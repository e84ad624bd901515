/** The server's hub and the loops that read its maps, each call on its own, proved against what the turns amount to. */
module ServerHub {
  import opened Protocol
  import opened Handling
  import opened Wires
  import opened ServerObjects
  import opened HubTurns
  import Machine
  import HubHistory

  class Hub {
    var clients: map<string, Client>
    var sessions: map<SessionId, Session>
    var calls: seq<Callback>
    var clientCalls: seq<HubHistory.ClientCall>
    ghost var handled: seq<HubHistory.Handled>

    constructor ()
      ensures Valid() && clients == map[] && sessions == map[] && calls == [] && handled == []
    {
      clients, sessions, calls, clientCalls, handled := map[], map[], [], [], [];
    }

    /** Every key leads to the object with that id, and both key sets are what the handled requests leave. */
    ghost predicate Valid()
      reads this, sessions.Values
    {
      && (forall k :: k in sessions ==> sessions[k].id == k && sessions[k].down != null)
      && (forall a :: a in clients ==> clients[a].id == a)
      && sessions.Keys == HubHistory.Sessions(handled)
      && clients.Keys == HubHistory.Clients(handled)
      && clientCalls == HubHistory.Calls(handled)
    }

    method ByIdGetSession(id: SessionId) returns (found: Option<Session>)
      requires Valid()
      ensures found.Some? <==> id in HubHistory.Sessions(handled)
      ensures found.Some? ==> id in sessions && found.value == sessions[id] && found.value.id == id
    {
      found := if id in sessions then Some(sessions[id]) else None;
    }

    method ByIdGetClient(agent: string) returns (found: Option<Client>)
      requires Valid()
      ensures found.Some? <==> agent in HubHistory.Clients(handled)
      ensures found.Some? ==> agent in clients && found.value == clients[agent] && found.value.id == agent
    {
      found := if agent in clients then Some(clients[agent]) else None;
    }

    method RegisterClient(c: Client)
      requires Valid()
      modifies this
      ensures Valid() && handled == old(handled) + [HubHistory.ClientIn(c.id)]
      ensures clients == old(clients)[c.id := c] && sessions == old(sessions) && calls == old(calls)
    {
      clients := clients[c.id := c];
      clientCalls := clientCalls + [HubHistory.Up(c.id)];
      hide HubHistory.Sessions, HubHistory.Clients, HubHistory.Calls;
      HubHistory.HandledOneMore(handled, HubHistory.ClientIn(c.id));
      handled := handled + [HubHistory.ClientIn(c.id)];
    }

    /** Whoever is registered under the id is removed; it is the client of the request that is closed. */
    method UnregisterClient(c: Client)
      requires Valid() && c.Valid()
      modifies this, c, c.socket
      ensures Valid() && handled == old(handled) + [HubHistory.ClientOut(c.id)] && c.Valid()
      ensures clients == old(clients) - {c.id} && sessions == old(sessions) && calls == old(calls)
      ensures c.isClosed == (old(c.isClosed) || c.id in old(clients))
      ensures c.socket != null ==> c.socket.View() == Shut(old(c.socket.View()), c.id in old(clients))
      ensures c.id in old(clients) ==>
                var gone := old(clients)[c.id];
                (gone.isClosed && !old(clients[c.id].isClosed) <==> gone == c && !old(c.isClosed))
      ensures c.queue == old(c.queue)
    {
      hide HubHistory.Sessions, HubHistory.Clients, HubHistory.Calls;
      HubHistory.HandledOneMore(handled, HubHistory.ClientOut(c.id));
      handled := handled + [HubHistory.ClientOut(c.id)];
      if c.id !in clients {
        return;
      }
      c.Close();
      clients := clients - {c.id};
      clientCalls := clientCalls + [HubHistory.Gone(c.id)];
    }

    method Store(s: Session)
      requires Valid() && s.down != null
      modifies this`sessions, this`handled
      ensures Valid() && handled == old(handled) + [HubHistory.SessionIn(s.id)]
      ensures sessions == old(sessions)[s.id := s]
    {
      hide HubHistory.Sessions, HubHistory.Clients, HubHistory.Calls;
      HubHistory.HandledOneMore(handled, HubHistory.SessionIn(s.id));
      sessions, handled := sessions[s.id := s], handled + [HubHistory.SessionIn(s.id)];
    }

    method RegisterSession(s: Session, info: Bytes)
      requires Valid() && s.Wired()
      modifies this, s.up.socket
      ensures Valid() && handled == old(handled) + [HubHistory.SessionIn(s.id)]
      ensures sessions == old(sessions)[s.id := s] && clients == old(clients)
      ensures calls == old(calls) + RegisterEffect(s.id, s.status).calls
      ensures s.up.socket != null ==> s.up.socket.View() == After(old(s.up.socket.View()), Texts([info]))
    {
      Store(s);
      var current := s.GetStatus();
      if current.Connected? {
        calls := calls + [Registered(s.id)];
      }
      assert Texts([info]) == [Frame(TEXT_MESSAGE, Plain(info))];
      hide HubHistory.Sessions, HubHistory.Clients, HubHistory.Calls, Texts, After;
      if !s.protocol.Http? {
        var _ := s.up.WsLockWriteMessage(TEXT_MESSAGE, Plain(info));
      }
    }

    /** The end of a session that is not HTTP: the callback, one notice to one side, the close of the upstream. */
    method Dismiss(s: Session)
      requires s.Wired() && s.up.Valid() && !s.protocol.Http?
      modifies this`calls, s.up, s.up.socket, s.down.socket
      ensures s.up.Valid() && s.up.isClosed && s.up.queue == old(s.up.queue)
      ensures var e := UnregisterEffect(s.id, true, s.protocol, s.status, s.annotation);
              && calls == old(calls) + e.calls
              && s.down.socket.View() == After(old(s.down.socket.View()), Encoded(e.closes))
              && s.up.socket.View() == After(old(s.up.socket.View()), Texts(e.notes)).(room := 0)
    {
      calls := calls + [Unregistered(s.id)];
      if !s.status.UpstreamClosed? {
        var _ := s.up.WsLockWriteMessage(TEXT_MESSAGE, Plain(s.annotation));
      } else {
        var _ := s.down.WsLockWriteMessage(TEXT_MESSAGE, Json(Machine.CloseFor(s.id, UPSTREAM_CLOSED_TEXT)));
      }
      s.Close();
    }

    method UnregisterSession(s: Session)
      requires Valid() && s.Wired() && s.up.Valid()
      modifies this, s.up, s.up.socket, s.down.socket
      ensures Valid() && handled == old(handled) + [HubHistory.SessionOut(s.id)] && s.up.Valid()
      ensures sessions == old(sessions) - {s.id} && clients == old(clients)
      ensures var e := UnregisterEffect(s.id, s.id in old(sessions), s.protocol, s.status, s.annotation);
              && calls == old(calls) + e.calls
              && s.down.socket.View() == After(old(s.down.socket.View()), Encoded(e.closes))
              && (s.up.socket != null ==>
                    s.up.socket.View() == var w := After(old(s.up.socket.View()), Texts(e.notes));
                                          if e.closesUpstream then w.(room := 0) else w)
              && s.up.isClosed == (old(s.up.isClosed) || e.closesUpstream) && s.up.queue == old(s.up.queue)
    {
      hide HubHistory.Sessions, HubHistory.Clients, HubHistory.Calls;
      HubHistory.HandledOneMore(handled, HubHistory.SessionOut(s.id));
      handled := handled + [HubHistory.SessionOut(s.id)];
      if s.id !in sessions {
        return;
      }
      sessions := sessions - {s.id};
      if s.protocol.Http? {
        return;
      }
      Dismiss(s);
    }

    ghost function Seen(ends: set<Client>, sockets: set<Socket>, subjects: set<Session>): Outside
      reads this, ends, sockets, subjects
    {
      Outside(clients, sessions, calls, map o | o in sockets :: o.View(), map c | c in ends :: c.isClosed,
              map c | c in ends :: c.queue, map s | s in subjects :: FieldsOf(s))
    }

    /** Any request: its effect on the maps, the callbacks, every connection and every channel. */
    method Serve(r: Request, ghost ends: set<Client>, ghost sockets: set<Socket>)
      requires Valid() && Fits(Snap(r)) && Within(Snap(r), ends, sockets) && AllValid(ends)
      modifies this, Closing(Snap(r)), Writing(Snap(r))
      ensures Valid() && handled == old(handled) + [Label(Snap(r))] && AllValid(ends)
      ensures clients == ClientsOnce(old(clients), Snap(r)) && sessions == SessionsOnce(old(sessions), Snap(r))
      ensures calls == old(calls) + EffectOf(old(handled), Snap(r)).calls
      ensures forall o :: o in sockets ==> o.View() == WireOnce(o, old(o.View()), old(handled), Snap(r))
      ensures forall c :: c in ends ==> c.isClosed == ClosedOnce(c, old(c.isClosed), old(handled), Snap(r))
      ensures forall c :: c in ends ==> c.queue == old(c.queue)
    {
      ElsewhereNothing(Snap(r), handled);
      match r
      case AgentIn(c) => RegisterClient(c);
      case AgentOut(c) => UnregisterClient(c);
      case In(s, info) => RegisterSession(s, info);
      case Out(s) => UnregisterSession(s);
    }

    /** Serving a request leaves the fields of all sessions as they are. */
    method ServeApart(r: Request, ghost j: Job, ghost ends: set<Client>, ghost sockets: set<Socket>)
      requires Valid() && AllValid(ends) && Snap(r) == j && Fits(j) && Within(j, ends, sockets)
      modifies this, ends, sockets
      ensures Valid() && handled == old(handled) + [Label(j)] && AllValid(ends)
      ensures clients == ClientsOnce(old(clients), j) && sessions == SessionsOnce(old(sessions), j)
      ensures calls == old(calls) + EffectOf(old(handled), j).calls
      ensures forall o :: o in sockets ==> o.View() == WireOnce(o, old(o.View()), old(handled), j)
      ensures forall c :: c in ends ==> c.isClosed == ClosedOnce(c, old(c.isClosed), old(handled), j)
      ensures forall c :: c in ends ==> c.queue == old(c.queue)
      ensures forall s: Session :: old(allocated(s)) ==> FieldsOf(s) == old(FieldsOf(s))
    {
      hide Valid, WireOnce, ClosedOnce, EffectOf, Socket.View, Fits, AllValid;
      Serve(r, ends, sockets);
    }

    /** The same, as one change of everything at stake. */
    method ServeInTurn(r: Request, ghost ends: set<Client>, ghost sockets: set<Socket>, ghost subjects: set<Session>)
      requires Valid() && AllValid(ends) && Fits(Snap(r)) && Within(Snap(r), ends, sockets)
      modifies this, ends, sockets
      ensures Valid() && handled == old(handled) + [Label(old(Snap(r)))] && AllValid(ends)
      ensures Seen(ends, sockets, subjects) == Done(old(Seen(ends, sockets, subjects)), old(handled), old(Snap(r)))
    {
      hide Valid, WireOnce, ClosedOnce, EffectOf, Socket.View, Fits, AllValid, Within, Snap, FieldsOf;
      ServeApart(r, Snap(r), ends, sockets);
    }

    method ChangeInTurn(s: Session, wanted: SessionStatus, ghost ends: set<Client>, ghost sockets: set<Socket>,
                        ghost subjects: set<Session>)
      requires Valid() && AllValid(ends) && s in subjects
      modifies s`status, s`log
      ensures Valid() && AllValid(ends)
      ensures var x := old(Seen(ends, sockets, subjects));
              Seen(ends, sockets, subjects) ==
                x.(fields := x.fields[s := x.fields[s].(status := AfterSet(x.fields[s].status, wanted))])
    {
      s.SetStatus(wanted);
    }

    method AnnotateInTurn(s: Session, text: Bytes, ghost ends: set<Client>, ghost sockets: set<Socket>,
                          ghost subjects: set<Session>)
      requires Valid() && AllValid(ends) && s in subjects
      modifies s`annotation
      ensures Valid() && AllValid(ends)
      ensures var x := old(Seen(ends, sockets, subjects));
              Seen(ends, sockets, subjects) == x.(fields := x.fields[s := x.fields[s].(annotation := text)])
    {
      s.annotation := text;
    }

    /** One turn: a request is served, or another goroutine changes a session. */
    method Step(t: HubTurn, ghost ends: set<Client>, ghost sockets: set<Socket>, ghost subjects: set<Session>)
      requires Valid() && AllValid(ends) && Suits(t, Seen(ends, sockets, subjects).fields, ends, sockets)
      modifies this, ends, sockets, subjects
      ensures Valid() && handled == old(handled) + Heard(t) && AllValid(ends)
      ensures Suits(t, old(Seen(ends, sockets, subjects)).fields, old(Seen(ends, sockets, subjects)).closed.Keys,
                    old(Seen(ends, sockets, subjects)).wires.Keys)
      ensures Seen(ends, sockets, subjects) == OneHubTurn(old(Seen(ends, sockets, subjects)), old(handled), t)
    {
      ghost var x := Seen(ends, sockets, subjects);
      assert x.closed.Keys == ends && x.wires.Keys == sockets && x.fields.Keys == subjects;
      match t {
        case Serves(r) =>
          assert JobOf(r, x.fields) == Snap(r);
          hide Valid, AllValid, Seen, Done, Fits, Within, FieldsOf;
          ServeInTurn(r, ends, sockets, subjects);
        case Changes(s, wanted) =>
          hide Valid, AllValid, Seen;
          ChangeInTurn(s, wanted, ends, sockets, subjects);
        case Annotates(s, text) =>
          hide Valid, AllValid, Seen;
          AnnotateInTurn(s, text, ends, sockets, subjects);
      }
    }

    /**
     The hub's loop, among what other goroutines do to the sessions: everything it does is what the requests, one after
     the other and each as it finds its session, amount to.
     */
    method Run(turns: seq<HubTurn>, ghost ends: set<Client>, ghost sockets: set<Socket>, ghost subjects: set<Session>)
      requires Valid() && AllValid(ends) && AllSuit(turns, Seen(ends, sockets, subjects))
      modifies this, ends, sockets, subjects
      ensures Valid() && AllValid(ends) && handled == old(handled) + AllHeard(turns)
      ensures Seen(ends, sockets, subjects) == InTurn(old(Seen(ends, sockets, subjects)), old(handled), turns)
    {
      ghost var h, x := handled, Seen(ends, sockets, subjects);
      assert x.closed.Keys == ends && x.wires.Keys == sockets;
      hide Valid, AllValid, AllHeard, AfterTurns, InTurn, OneHubTurn, Seen, Suits, AllSuit;
      NoTurn(x, h, turns);
      for n := 0 to |turns|
        invariant Valid() && AllValid(ends) && handled == h + AllHeard(turns[..n])
        invariant Seen(ends, sockets, subjects) == AfterTurns(x, h, turns, n)
      {
        OneMoreTurn(x, h, turns, n);
        Step(turns[n], ends, sockets, subjects);
      }
    }

    /** The deferred function of `proxy`: ask the hub if the session is on the map, else close the upstream here. */
    method Leave(s: Session) returns (asks: bool)
      requires Valid() && s.up.Valid()
      modifies s.up, s.up.socket
      ensures asks == (s.id in sessions) && s.up.Valid()
      ensures s.up.isClosed == (old(s.up.isClosed) || !asks)
      ensures s.up.socket != null ==> s.up.socket.View() == Shut(old(s.up.socket.View()), !asks)
    {
      var found := ByIdGetSession(s.id);
      asks := found.Some?;
      if !asks {
        s.Close();
      }
    }

    /** The body of readDownStreamPump for one message. */
    method RouteDownStream(c: Client, m: TunnelMessage, ghost ends: set<Client>) returns (panics: bool)
      requires Valid() && AllValid(ends) && c.socket != null
      modifies if m.session in sessions then {} else {c.socket}
      modifies (if m.session in sessions then {sessions[m.session].up} else {})`queue
      ensures Valid() && AllValid(ends)
      ensures panics == (m.session in sessions && sessions[m.session].up.isClosed)
      ensures m.session in sessions ==>
                sessions[m.session].up.queue == old(sessions[m.session].up.queue) + if panics then [] else [m]
      ensures m.session !in sessions ==>
                c.socket.View() == After(old(c.socket.View()), Encoded(Strays([m], sessions.Keys)))
    {
      OneStray(m, sessions.Keys);
      var found := ByIdGetSession(m.session);
      panics := false;
      if found.Some? {
        if found.value.up.isClosed {
          panics := true;
        } else {
          found.value.up.queue := found.value.up.queue + [m];
        }
      } else {
        var _ := c.WsLockWriteMessage(TEXT_MESSAGE, Json(m.(action := CLOSE_MESSAGE)));
      }
    }

    /** The same, with what it leaves alone. */
    method RouteApart(c: Client, m: TunnelMessage, ghost ends: set<Client>, ghost sockets: set<Socket>)
      returns (panics: bool)
      requires Valid() && AllValid(ends) && c.socket != null && c.socket in sockets
      requires m.session in sessions ==> sessions[m.session].up in ends
      modifies ends`queue, sockets
      ensures Valid() && AllValid(ends)
      ensures panics == (m.session in sessions && sessions[m.session].up.isClosed)
      ensures forall u :: u in ends ==>
                && u.isClosed == old(u.isClosed)
                && u.queue == QueueOnce(old(u.queue), u, sessions, m, panics)
      ensures forall o :: o in sockets ==>
                o.View() == BounceOnce(old(o.View()), o, c.socket, sessions.Keys, m)
      ensures forall s: Session :: old(allocated(s)) ==> FieldsOf(s) == old(FieldsOf(s))
    {
      hide Valid, AllValid, Strays, Encoded, After, Socket.View;
      panics := RouteDownStream(c, m, ends);
    }

    /** The same, as one change of everything at stake. */
    method RouteInTurn(c: Client, m: TunnelMessage, ghost ends: set<Client>, ghost sockets: set<Socket>,
                       ghost subjects: set<Session>)
      returns (panics: bool)
      requires Valid() && AllValid(ends) && c.socket != null && c.socket in sockets
      requires m.session in sessions ==> sessions[m.session].up in ends
      modifies ends`queue, sockets
      ensures Valid() && AllValid(ends)
      ensures panics == (m.session in sessions && sessions[m.session].up.isClosed)
      ensures Seen(ends, sockets, subjects) == Route(old(Seen(ends, sockets, subjects)), c.socket, m, panics)
    {
      ghost var x := Seen(ends, sockets, subjects);
      hide Valid, AllValid, Socket.View, FieldsOf, QueueOnce, BounceOnce;
      panics := RouteApart(c, m, ends, sockets);
      ghost var y, z := Seen(ends, sockets, subjects), Route(x, c.socket, m, panics);
      assert y.queues == z.queues && y.closed == z.closed;
      assert y.wires == z.wires && y.fields == z.fields;
    }

    /** One turn of readDownStreamPump. */
    method PumpStep(c: Client, t: PumpTurn, ghost ends: set<Client>, ghost sockets: set<Socket>,
                    ghost subjects: set<Session>)
      returns (panics: bool)
      requires Valid() && AllValid(ends) && c.socket != null && Homes(Seen(ends, sockets, subjects))
      requires PumpSuits(t, Seen(ends, sockets, subjects), c.socket)
      modifies this, ends, sockets, subjects
      ensures Valid() && AllValid(ends) && handled == old(handled) + HeardMeanwhile(t)
      ensures var x := old(Seen(ends, sockets, subjects));
              && Homes(x) && PumpSuits(t, x, c.socket) && x.closed.Keys == x.queues.Keys
              && panics == Panics(x, t)
              && Seen(ends, sockets, subjects) == OnePumpTurn(x, old(handled), c.socket, t)
    {
      ghost var x := Seen(ends, sockets, subjects);
      assert x.closed.Keys == ends && x.queues.Keys == ends && x.wires.Keys == sockets;
      panics := false;
      match t {
        case Arrives(m) =>
          assert m.session in sessions ==> sessions[m.session].up in x.queues;
          hide Valid, AllValid, Route;
          panics := RouteInTurn(c, m, ends, sockets, subjects);
        case Meanwhile(turn) =>
          hide Valid, AllValid, Seen, Homes, Suits, OneHubTurn;
          Step(turn, ends, sockets, subjects);
      }
    }

    /**
     readDownStreamPump over the messages that arrive and what the hub does in between: each message goes to the session
     that is then on the map under its id, or sends a close back; a send on a closed channel ends it.
     */
    method ReadDownStreamPump(c: Client, turns: seq<PumpTurn>, ghost ends: set<Client>, ghost sockets: set<Socket>,
                              ghost subjects: set<Session>)
      returns (done: nat, panics: bool)
      requires Valid() && AllValid(ends) && c.socket != null && Homes(Seen(ends, sockets, subjects))
      requires AllPumpSuit(turns, Seen(ends, sockets, subjects), c.socket)
      modifies this, ends, sockets, subjects
      ensures done <= |turns| && Valid() && AllValid(ends) && (panics <==> done < |turns|)
      ensures var x := old(Seen(ends, sockets, subjects));
              && Homes(x) && x.closed.Keys == x.queues.Keys && AllPumpSuit(turns, x, c.socket)
              && Pumped(x, old(handled), c.socket, turns, done, panics, Seen(ends, sockets, subjects), handled)
    {
      ghost var h, x, o := handled, Seen(ends, sockets, subjects), c.socket;
      assert x.closed.Keys == x.queues.Keys;
      hide Valid, AllValid, Seen, Homes, OnePumpTurn, PumpSuits, AllPumpSuit, Panics, Pumped, SameObjects;
      PumpedAtFirst(x, h, o, turns);
      done, panics := 0, false;
      while done < |turns| && !panics
        invariant done <= |turns| && Valid() && AllValid(ends) && (panics ==> done < |turns|)
        invariant Pumped(x, h, o, turns, done, panics, Seen(ends, sockets, subjects), handled)
        decreases |turns| - done, !panics
      {
        PumpedKeeps(x, h, o, turns, done, Seen(ends, sockets, subjects), handled);
        PumpedNext(x, h, o, turns, done, Seen(ends, sockets, subjects), handled);
        panics := PumpStep(c, turns[done], ends, sockets, subjects);
        done := if panics then done else done + 1;
      }
    }

    /** writeDownStreamPump: up to the first failed write; its session, if it is on the map, is marked and reported. */
    method WriteDownStreamPump(c: Client, outgoing: seq<TunnelMessage>) returns (reported: Option<Session>)
      requires Valid() && c.socket != null
      modifies c.socket, sessions.Values
      ensures Valid()
      ensures c.socket.View() == After(old(c.socket.View()), Encoded(outgoing))
      ensures var room := old(c.socket.View()).room;
              if room < |outgoing| && outgoing[room].session in sessions
              then reported == Some(sessions[outgoing[room].session])
              else reported == None
      ensures forall k :: k in sessions ==>
                sessions[k].Cell() == if reported == Some(sessions[k])
                                      then Machine.SetStatus(old(sessions[k].Cell()), DownstreamClosed)
                                      else old(sessions[k].Cell())
    {
      var n, ok := 0, true;
      ghost var wire := c.socket.View();
      assert outgoing[..0] == [] && After(wire, Encoded([])) == wire;
      while n < |outgoing| && ok
        decreases |outgoing| - n, ok
        invariant n <= |outgoing| && n <= wire.room && (!ok ==> n < |outgoing| && n == wire.room)
        invariant c.socket.View() == After(wire, Encoded(outgoing[..n]))
        modifies c.socket
      {
        hide After, Encoded;
        assert outgoing[..n + 1] == outgoing[..n] + [outgoing[n]];
        OneMoreWritten(wire, outgoing[..n], outgoing[n]);
        ok := c.WsLockWriteMessage(TEXT_MESSAGE, Json(outgoing[n]));
        n := if ok then n + 1 else n;
      }
      NothingMoreWritten(wire, outgoing, n);
      reported := None;
      if !ok {
        reported := ByIdGetSession(outgoing[n].session);
        if reported.Some? {
          reported.value.SetStatus(DownstreamClosed);
        }
      }
    }

    /** getSessions over a snapshot of the map: the ids grouped by agent, each id once. */
    method GetSessions() returns (index: map<string, seq<SessionId>>)
      requires Valid()
      ensures forall a, i, j :: a in index && 0 <= i < j < |index[a]| ==> index[a][i] != index[a][j]
      ensures forall a :: a in index ==> index[a] != []
      ensures forall a, k :: a in index && k in index[a] ==> k in sessions && sessions[k].down.id == a
      ensures forall k :: k in sessions ==> sessions[k].down.id in index && k in index[sessions[k].down.id]
    {
      index := map[];
      var rest := sessions.Keys;
      while rest != {}
        invariant rest <= sessions.Keys
        invariant forall a, i, j :: a in index && 0 <= i < j < |index[a]| ==> index[a][i] != index[a][j]
        invariant forall a :: a in index ==> index[a] != []
        invariant forall a, k :: a in index && k in index[a] ==> k in sessions && k !in rest && sessions[k].down.id == a
        invariant forall k :: k in sessions && k !in rest ==>
                    sessions[k].down.id in index && k in index[sessions[k].down.id]
        decreases rest
      {
        var k :| k in rest;
        var agent := sessions[k].down.id;
        if agent !in index {
          index := index[agent := []];
        }
        index := index[agent := index[agent] + [k]];
        rest := rest - {k};
      }
    }
  }
}
