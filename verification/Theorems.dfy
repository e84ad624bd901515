/** The guarantees of the tunnel, over every run, every state of it and every session. */
module Theorems {
  import opened Protocol
  import opened Pipes
  import opened Machine
  import opened Projection
  import opened Queues
  import opened Reachability
  import opened History
  import opened Callbacks
  import opened LeftBehind
  import opened Paths
  import Srv = ServerInvariant
  import Agt = AgentInvariant
  import UpwardOrder
  import DownwardDelivery
  import HttpExchange
  import Endings
  import Duties
  import Ledger

  /** Session `s` exists in the `i`-th state of the run. */
  predicate Reached(run: seq<State>, events: seq<Event>, i: nat, s: SessionId) {
    IsRun(run, events) && i < |run| && s < |run[i].nodes|
  }

  function Server(run: seq<State>, i: nat, s: SessionId): ServerSession
    requires i < |run| && s < |run[i].nodes|
  {
    run[i].nodes[s].srv
  }

  function Agent(run: seq<State>, i: nat, s: SessionId): AgentSession
    requires i < |run| && s < |run[i].nodes|
  {
    run[i].nodes[s].agt
  }

  /** The server's hub is not working for this session. */
  predicate Drained(g: State, s: SessionId) {
    g.sh.hub.HubIdle? || g.sh.hub.of != s
  }

  // ---------- the server's side ----------

  /** The status of a session goes Connecting, Connected?, (upstream closed | downstream closed)?, and stays there. */
  lemma StatusIsOrderly(run: seq<State>, events: seq<Event>, i: nat, j: nat, s: SessionId)
    requires Reached(run, events, i, s) && i <= j < |run|
    ensures s < |run[j].nodes|
    ensures Srv.StatusHistory(Server(run, j, s).cell.log)
    ensures Server(run, j, s).cell.status == Server(run, j, s).cell.log[|Server(run, j, s).cell.log| - 1]
    ensures Server(run, i, s).cell.log <= Server(run, j, s).cell.log
    ensures Absorbing(Server(run, i, s).cell.status) ==> Server(run, j, s).cell.status == Server(run, i, s).cell.status
  {
    hide IsRun, See, AgentGrows;
    RunGrows(run, events, i, j, s);
    ServerEverywhere(run, events, i, s);
    ServerEverywhere(run, events, j, s);
  }

  /**
   Once the unregister callback has fired for a session the register callback never fires again; both are called with
   the session's own id, neither for HTTP, and the register callback only after the agent's hub has stored the session.
   */
  lemma CallbacksAreSafe(run: seq<State>, events: seq<Event>, i: nat, s: SessionId)
    requires Reached(run, events, i, s)
    ensures var calls := Server(run, i, s).told.calls;
            && (forall j, k :: 0 <= j < k < |calls| && calls[j] == Unregistered(s) ==> calls[k] == Unregistered(s))
            && (forall c :: c in calls ==> c == Registered(s) || c == Unregistered(s))
            && (Server(run, i, s).protocol.Http? ==> calls == [])
            && (Registered(s) in calls ==> Agent(run, i, s).life.stores == 1)
  {
    hide IsRun, See, UpwardOrder.Inv, DownwardDelivery.Inv, HttpExchange.Inv;
    Everywhere(run, events, i, s);
    var calls := Server(run, i, s).told.calls;
    forall c | c in calls ensures c == Registered(s) || c == Unregistered(s) {
      assert c.id == s;
    }
  }

  /**
   The hub tells the upstream or the agent that a session is over, never both, whatever the requests and statuses; and
   one of them it does tell whenever it has taken a session that is not HTTP off the map.
   */
  lemma TeardownIsExclusive(run: seq<State>, events: seq<Event>, i: nat, s: SessionId)
    requires Reached(run, events, i, s)
    ensures Server(run, i, s).told.notes == [] || Server(run, i, s).told.closes == 0
    ensures Server(run, i, s).told.closes > 0 ==> Server(run, i, s).cell.status.UpstreamClosed?
    ensures var srv := Server(run, i, s);
            srv.member.everStored && !srv.member.stored && !srv.protocol.Http? && Drained(run[i], s) ==>
              (srv.told.notes == [] <==> srv.told.closes > 0)
  {
    hide IsRun;
    ServerEverywhere(run, events, i, s);
  }

  /**
   The status tells who closed the session: upstream closed means that reading the upstream has failed, downstream
   closed that the relay has taken the agent's close or that a write to the agent has failed; and each of these leaves
   one of the two.
   */
  lemma StatusTellsWhoClosed(run: seq<State>, events: seq<Event>, i: nat, s: SessionId)
    requires Reached(run, events, i, s)
    ensures var srv, pump := Server(run, i, s), run[i].sh.pump;
            var unwritten := srv.member.pumpRequests >= 1 || pump == PumpReporting(s);
            && (srv.cell.status.UpstreamClosed? ==> srv.ends.broken && srv.reader.Stopped?)
            && (srv.cell.status.DownstreamClosed? ==> srv.ends.ended.Some? || unwritten)
            && (srv.ends.ended.Some? || unwritten || (srv.ends.broken && srv.reader.Stopped?) ==>
                  Srv.SideClosed(srv.cell.status))
  {
    hide IsRun, UpwardOrder.Inv, DownwardDelivery.Inv, HttpExchange.Inv, Agt.Inv, Duties.Inv, Ledger.Inv;
    Everywhere(run, events, i, s);
  }

  /**
   The reason arrives: when the session's own request has been handled, the write pump has not asked before and the
   upstream was not found closed, the upstream has been told exactly once, with the payload of the close that ended the
   relay, or with nothing if none did; and that payload is one the agent has sent.
   */
  lemma CloseReasonIsShown(run: seq<State>, events: seq<Event>, i: nat, s: SessionId)
    requires Reached(run, events, i, s) && !Server(run, i, s).protocol.Http?
    requires Server(run, i, s).member.ownRequest && Server(run, i, s).member.pumpRequests == 0 && Drained(run[i], s)
    ensures var srv := Server(run, i, s);
            var reason := if srv.ends.ended.Some? then srv.ends.ended.value else [];
            && (if srv.told.closes == 0 then srv.told.notes == [reason]
                else srv.told.closes == 1 && srv.told.notes == [])
            && (srv.cell.status.DownstreamClosed? ==>
                  srv.told.notes == [reason] && (srv.ends.ended.Some? || run[i].sh.pump == PumpReporting(s)))
            && (srv.ends.ended.Some? ==> reason in Agent(run, i, s).life.reasons)
  {
    hide IsRun, UpwardOrder.Inv, DownwardDelivery.Inv, HttpExchange.Inv, Agt.Inv, Duties.Inv, Ledger.Inv;
    Everywhere(run, events, i, s);
  }

  /** The hub receives at most two register and two unregister requests for a session. */
  lemma RequestsAreBounded(run: seq<State>, events: seq<Event>, i: nat, s: SessionId)
    requires Reached(run, events, i, s)
    ensures Server(run, i, s).member.registers <= 2
    ensures Server(run, i, s).member.pumpRequests + Weight(Server(run, i, s).member.ownRequest) <= 2
  {
    hide IsRun, See;
    ServerEverywhere(run, events, i, s);
  }

  /**
   When the callbacks fire, exactly. The register callback fires once for every register request for which the hub
   reads Connected, and it reads the status at most once for each of the at most two requests. The unregister callback
   fires once for every unregister request that takes the session off the map: the session's own and the write pump's,
   each at most once.
   */
  lemma CallbacksAreCounted(run: seq<State>, events: seq<Event>, i: nat, s: SessionId)
    requires Reached(run, events, i, s)
    ensures Registrations(Server(run, i, s).told.calls) + Weight(run[i].sh.hub == HubCalling(s)) ==
              Times(run, events, i, s, Checked(1, true)) + Times(run, events, i, s, Checked(2, true))
    ensures forall n :: 1 <= n <= 2 ==>
              Times(run, events, i, s, Checked(n, true)) + Times(run, events, i, s, Checked(n, false)) <= 1
    ensures Unregistrations(Server(run, i, s).told.calls) +
            Weight(run[i].sh.hub.HubUncalling? && run[i].sh.hub.of == s) ==
              Times(run, events, i, s, TookOff(true)) + Times(run, events, i, s, TookOff(false))
    ensures forall own :: Times(run, events, i, s, TookOff(own)) <= 1
    ensures Registrations(Server(run, i, s).told.calls) <= 2 && Unregistrations(Server(run, i, s).told.calls) <= 2
  {
    hide IsRun, Registrations, Unregistrations, Times, Srv.Inv;
    AlwaysTallied(run, events, i, s);
    ServerEverywhere(run, events, i, s);
  }

  /**
   The register callback has fired twice if and only if the hub read Connected for both requests; reading anything
   else for either leaves at most one. The unregister callback has fired twice if and only if both kinds of request
   found the session on the map.
   */
  lemma CallbacksFireTwiceIff(run: seq<State>, events: seq<Event>, i: nat, s: SessionId)
    requires Reached(run, events, i, s) && Drained(run[i], s)
    ensures Registrations(Server(run, i, s).told.calls) == 2 <==>
              Ever(run, events, i, s, Checked(1, true)) && Ever(run, events, i, s, Checked(2, true))
    ensures Registrations(Server(run, i, s).told.calls) == 0 <==>
              !Ever(run, events, i, s, Checked(1, true)) && !Ever(run, events, i, s, Checked(2, true))
    ensures Ever(run, events, i, s, Checked(1, false)) || Ever(run, events, i, s, Checked(2, false)) ==>
              Registrations(Server(run, i, s).told.calls) <= 1
    ensures Unregistrations(Server(run, i, s).told.calls) == 2 <==>
              Ever(run, events, i, s, TookOff(true)) && Ever(run, events, i, s, TookOff(false))
    ensures Unregistrations(Server(run, i, s).told.calls) == 0 <==>
              !Ever(run, events, i, s, TookOff(true)) && !Ever(run, events, i, s, TookOff(false))
  {
    assert i <= |events|;
    hide IsRun, Registrations, Unregistrations, Times, Ever;
    CallbacksAreCounted(run, events, i, s);
    forall m ensures Ever(run, events, i, s, m) <==> Times(run, events, i, s, m) > 0 {
      EverAtLeastOnce(run, events, i, s, m);
    }
  }

  /** After the hub has handled the session's own unregister request, the session is never in the map again. */
  lemma GoneForGood(run: seq<State>, events: seq<Event>, i: nat, j: nat, s: SessionId)
    requires Reached(run, events, i, s) && i <= j < |run|
    requires Server(run, i, s).member.ownRequest && run[i].sh.hub != HubRemoving(s, true)
    ensures s < |run[j].nodes| && !Server(run, j, s).member.stored
  {
    hide IsRun;
    DismissedForGood(run, events, i, j, s);
    ServerEverywhere(run, events, j, s);
  }

  /** A registered session knows its agent, which is what listing the sessions by agent relies on. */
  lemma RegisteredHasAgent(run: seq<State>, events: seq<Event>, i: nat, s: SessionId)
    requires Reached(run, events, i, s) && Server(run, i, s).member.stored
    ensures Server(run, i, s).agentSet
  {
    hide IsRun, See;
    ServerEverywhere(run, events, i, s);
  }

  /**
   The upstream channel of a session is never closed twice. Once the handler is done and the hub has drained it has
   been closed exactly once, except for an HTTP session that left through the hub, whose channel nobody closes.
   */
  lemma ClosedExactlyOnce(run: seq<State>, events: seq<Event>, i: nat, s: SessionId)
    requires Reached(run, events, i, s)
    ensures Server(run, i, s).member.closes <= 1
    ensures Server(run, i, s).proxy.Finished? && Drained(run[i], s) ==>
              (Server(run, i, s).member.closes == 1 <==>
               !(Server(run, i, s).protocol.Http? && Server(run, i, s).member.ownRequest))
  {
    hide IsRun;
    ServerEverywhere(run, events, i, s);
  }

  /**
   After a lookup that came too early: whenever the hub has drained, the session is on the map if and only if no
   unregister request for it has been handled since. None ever is if the agent's write pump had already exited.
   */
  lemma LeftBehindUntilRemoved(run: seq<State>, events: seq<Event>, i: nat, j: nat, s: SessionId)
    requires IsRun(run, events) && i < j < |run| && Misses(run[i], events[i], s) && Drained(run[j], s)
    ensures s < |run[j].nodes|
    ensures Server(run, j, s).member.stored <==> !RemovedSince(events, i, j, s)
    ensures run[i].sh.pump.PumpExited? ==> Server(run, j, s).member.stored
  {
    hide IsRun, RemovedSince;
    MissStays(run, events, i, j, s);
    ServerEverywhere(run, events, j, s);
    if run[i].sh.pump.PumpExited? {
      NoPumpNoRemoval(run, events, i, j, s);
    }
  }

  /**
   Is the session off the map once its handler is done and the hub has drained? Unless the deferred lookup came while
   a Store of the hub was still to come, and no unregister request was handled after that.
   */
  lemma LeftBehindIff(run: seq<State>, events: seq<Event>, i: nat, s: SessionId)
    requires Reached(run, events, i, s)
    requires Server(run, i, s).proxy.Finished? && Drained(run[i], s)
    ensures Server(run, i, s).member.stored <==>
              exists k :: 0 <= k < i && Misses(run[k], events[k], s) && !RemovedSince(events, k, i, s)
  {
    assert i <= |events|;
    hide IsRun, Misses, RemovedSince;
    ServerEverywhere(run, events, i, s);
    if Server(run, i, s).member.stored {
      var k := MissWas(run, events, i, s);
      LeftBehindUntilRemoved(run, events, k, i, s);
    }
    forall k | 0 <= k < i && Misses(run[k], events[k], s) && !RemovedSince(events, k, i, s)
      ensures Server(run, i, s).member.stored {
      LeftBehindUntilRemoved(run, events, k, i, s);
    }
  }

  /**
   A session left behind stays in every continuation if and only if nobody can have it removed any more: the hub is not
   about to, the write pump is not working for it, and either the write pump has failed or the session's reader has
   nothing to forward and will not get anything. (After a panic nothing changes.)
   */
  lemma LeftBehindForGood(run: seq<State>, events: seq<Event>, k: nat, i: nat, s: SessionId)
    requires IsRun(run, events) && k < i < |run| && Misses(run[k], events[k], s)
    requires s < |run[i].nodes| && Server(run, i, s).member.stored
    ensures (forall g :: Leads(run[i], g) ==> s < |g.nodes| && g.nodes[s].srv.member.stored) <==>
              run[i].crashed || !Removable(run[i].sh, Server(run, i, s), s)
  {
    MissStays(run, events, k, i, s);
    RunsAreWhole(run, events, i);
    hide IsRun, Leads, Removable, Whole, Misses;
    if run[i].crashed {
      forall g | Leads(run[i], g) ensures g == run[i] {
        CrashIsTheEnd(run[i], g);
      }
    } else if Removable(run[i].sh, Server(run, i, s), s) {
      var g := CanBeRemoved(run[i], s);
    } else {
      forall g | Leads(run[i], g) ensures s < |g.nodes| && g.nodes[s].srv.member.stored {
        var run', events', j := Continues(run, events, i, g);
        assert run'[..i + 1][i] == run[..i + 1][i];
        StrandedForGood(run', events', i, j, s);
      }
    }
  }

  /**
   An HTTP reply that the inbound pump has looked up when the handler has stopped waiting is never delivered if the
   handler leaves through the hub, and nothing the agent sends is read any more, for any session: the channel has no
   receiver and nobody closes it.
   */
  lemma ReplyBlocksForGood(run: seq<State>, events: seq<Event>, i: nat, j: nat, s: SessionId)
    requires Reached(run, events, i, s) && i <= j < |run|
    requires Server(run, i, s).protocol.Http? && run[i].sh.inbound.InDelivering? && run[i].sh.inbound.m.session == s
    requires Stopped(Server(run, i, s))
    ensures run[j].sh.inbound == run[i].sh.inbound && run[i].sh.up <= run[j].sh.up && run[j].crashed == run[i].crashed
    ensures s < |run[j].nodes| && Server(run, j, s).member.closes == 0
  {
    hide IsRun, Srv.ControlInv, Srv.StatusInv, Srv.LeakInv, Srv.CallInv, Srv.TeardownInv;
    StuckForGood(run, events, i, j, s);
    ServerEverywhere(run, events, j, s);
  }

  /** The handler has stopped waiting and has not found that it must close the upstream itself. */
  predicate Stopped(srv: ServerSession) {
    srv.proxy.Leaving? || srv.proxy.Unregistering? || srv.member.ownRequest
  }

  lemma StuckIs(g: State, s: SessionId)
    requires s < |g.nodes| && g.nodes[s].srv.protocol.Http?
    requires g.sh.inbound.InDelivering? && g.sh.inbound.m.session == s
    ensures Stuck(View(g, s)) <==> Stopped(g.nodes[s].srv)
  {
  }

  /**
   The blocked states are no others: the inbound pump, offering an HTTP reply, stays blocked in every continuation if
   and only if the handler has stopped that way. Otherwise the handler still takes the reply, or it closes the channel
   and the send ends the run.
   */
  lemma ReplyBlocksIff(run: seq<State>, events: seq<Event>, i: nat, s: SessionId)
    requires Reached(run, events, i, s) && !run[i].crashed
    requires Server(run, i, s).protocol.Http? && run[i].sh.inbound.InDelivering? && run[i].sh.inbound.m.session == s
    ensures (forall g :: Leads(run[i], g) ==> g.sh.inbound == run[i].sh.inbound && !g.crashed) <==>
              Stopped(Server(run, i, s))
  {
    hide IsRun, Leads, Good, Stuck, View, Stopped;
    Everywhere(run, events, i, s);
    StuckIs(run[i], s);
    if Stopped(Server(run, i, s)) {
      forall g | Leads(run[i], g) ensures g.sh.inbound == run[i].sh.inbound && !g.crashed {
        var run', events', j := Continues(run, events, i, g);
        assert run'[..i + 1][i] == run[..i + 1][i];
        StuckForGood(run', events', i, j, s);
      }
    } else {
      var g := GetsOn(run[i], s);
    }
  }

  /**
   A message on a channel that has been closed is never delivered: the pump keeps it in every continuation, and the
   send can only end the run.
   */
  lemma ClosedChannelEndsTheRun(run: seq<State>, events: seq<Event>, i: nat, g: State)
    requires IsRun(run, events) && i < |run| && Doomed(run[i]) && Leads(run[i], g)
    ensures g.sh.inbound == run[i].sh.inbound
    ensures g.crashed || Happens(g, Crash, g.(crashed := true))
  {
    var run', events', j := Continues(run, events, i, g);
    hide IsRun;
    assert run'[..i + 1][i] == run[..i + 1][i];
    DoomedForGood(run', events', i, j);
  }

  /** That is where every message looked up for a session left behind goes once its handler is done. */
  lemma LeftBehindEndsTheRun(run: seq<State>, events: seq<Event>, k: nat, i: nat, s: SessionId)
    requires IsRun(run, events) && k < i < |run| && Misses(run[k], events[k], s)
    requires s < |run[i].nodes| && Server(run, i, s).proxy.Finished?
    requires run[i].sh.inbound.InDelivering? && run[i].sh.inbound.m.session == s
    ensures Doomed(run[i])
  {
    hide IsRun, Misses;
    MissStays(run, events, k, i, s);
    ServerEverywhere(run, events, i, s);
  }

  // ---------- across both machines ----------

  /**
   The agent never sees data for a session before its hub has stored it: wherever a data message is, at the upstream
   reader, in the write pump, on the wire or with a goroutine of the agent, the session has been stored, so a lookup
   that misses means that it has been removed.
   */
  lemma NeverTooEarly(run: seq<State>, events: seq<Event>, i: nat, s: SessionId)
    requires Reached(run, events, i, s)
    requires Server(run, i, s).reader.Forwarding?
          || (run[i].sh.pump.PumpWriting? && run[i].sh.pump.message.session == s && IsData(run[i].sh.pump.message))
          || (exists m :: m in run[i].sh.down && m.session == s && IsData(m))
          || Agent(run, i, s).data != []
    ensures Agent(run, i, s).life.stores == 1
    ensures Agent(run, i, s).life.removes == 1 <==> !Agent(run, i, s).life.stored
  {
    hide IsRun, UpwardOrder.Inv, DownwardDelivery.Inv, HttpExchange.Inv, Srv.Inv;
    Everywhere(run, events, i, s);
    OnlyMembers(run[i].sh.down, s);
  }

  /**
   No data is dropped while the session is there: a data message the agent has refused, or is about to, belongs to a
   session that was stored and has been removed, and one it has finished with was delivered whole, or its pipe is
   closed.
   */
  lemma DataIsAccountedFor(run: seq<State>, events: seq<Event>, i: nat, s: SessionId, k: nat)
    requires Reached(run, events, i, s) && k < |Agent(run, i, s).data|
    ensures var agt := Agent(run, i, s);
            && (agt.data[k].pc.Refusing? || agt.data[k].pc.Refused? ==> agt.life.stores == 1 && agt.life.removes == 1)
            && (agt.data[k].pc.Ended? ==> k in agt.inflow.delivered || agt.life.closed)
  {
    hide IsRun, UpwardOrder.Inv, DownwardDelivery.Inv, HttpExchange.Inv, Srv.Inv, Endings.Inv, Ledger.Inv;
    Everywhere(run, events, i, s);
  }

  /**
   A close that finds its session takes effect: from then on its goroutine is about to mark the session, or has marked
   it, or has also closed its pipes; and only that makes the agent hold the upstream for closed.
   */
  lemma ClosesTakeEffect(run: seq<State>, events: seq<Event>, i: nat, j: nat, s: SessionId, c: nat)
    requires IsRun(run, events) && i < j < |run| && events[i] == Move(s, Task(CloserSeek(c)))
    requires s < |run[i].nodes| && Agent(run, i, s).life.stored
    ensures s < |run[j].nodes| && c < |Agent(run, j, s).closers|
    ensures var agt := Agent(run, j, s);
            match agt.closers[c]
            case Marking => true
            case Shutting => Absorbing(agt.life.status)
            case Shut => Absorbing(agt.life.status) && agt.life.closed
            case _ => false
    ensures Agent(run, j, s).life.status.UpstreamClosed? ==>
              exists x :: x in Agent(run, j, s).closers && (x.Shutting? || x.Shut?)
  {
    assert Happens(run[i], events[i], run[i + 1]);
    assert Duties.Seized(run[i + 1].nodes[s].agt.closers[c]);
    hide IsRun, UpwardOrder.Inv, DownwardDelivery.Inv, HttpExchange.Inv, Srv.Inv, Agt.Inv, Endings.Inv, Ledger.Inv;
    SeizedForGood(run, events, i + 1, j, s, c);
    Everywhere(run, events, j, s);
  }

  /**
   Conservation. What the agent has sent for a session is on the wire, with the inbound pump, has been handed to the
   handler, or has been answered with a close; and every close the server has sent is on the wire, could not be written,
   or has become exactly one task of the agent.
   */
  lemma MessagesAreConserved(run: seq<State>, events: seq<Event>, i: nat, s: SessionId)
    requires Reached(run, events, i, s)
    ensures var srv, agt, sh := Server(run, i, s), Agent(run, i, s), run[i].sh;
            var sent := |agt.life.control| + Ledger.Refusals(agt.data) + |agt.outflow.chunks|
                        - Weight(agt.outflow.hand.Some?) + |agt.answers|;
            && sent == |Only(sh.up, s)| + Weight(!sh.inbound.InReading? && sh.inbound.m.session == s)
                       + srv.traffic.delivered + srv.traffic.bounced
            && srv.traffic.bounced + srv.told.closes ==
                 Count(Only(sh.down, s), CLOSE_MESSAGE) + srv.traffic.lost + |agt.closers|
                 + (|agt.https| - HttpExchange.Requests(agt.https))
  {
    hide IsRun, UpwardOrder.Inv, DownwardDelivery.Inv, HttpExchange.Inv, Srv.Inv, Agt.Inv, Endings.Inv, Duties.Inv;
    Everywhere(run, events, i, s);
  }

  /** The connect request on its way to the agent names the protocol of the session. */
  lemma ConnectNamesProtocol(run: seq<State>, events: seq<Event>, i: nat, s: SessionId, m: TunnelMessage)
    requires Reached(run, events, i, s)
    requires m in run[i].sh.down && m.session == s && m.action == CONNECT_MESSAGE
    ensures m.protocol == Server(run, i, s).protocol
  {
    hide IsRun, UpwardOrder.Inv, DownwardDelivery.Inv, HttpExchange.Inv, Srv.Inv, Agt.Inv, Duties.Inv, Ledger.Inv;
    Everywhere(run, events, i, s);
    OnlyMembers(run[i].sh.down, s);
  }

  /** One presence on the agent's map, one unregister, and nothing but Connect, then Close, from the agent's hub. */
  lemma AgentLivesOnce(run: seq<State>, events: seq<Event>, i: nat, s: SessionId)
    requires Reached(run, events, i, s)
    ensures var life := Agent(run, i, s).life;
            && life.stores <= 1 && life.removes <= life.stores
            && (life.stored <==> life.stores == 1 && life.removes == 0)
            && life.withdrawals <= 1
            && Agt.ControlLanguage(life.control)
  {
    hide IsRun, UpwardOrder.Inv, DownwardDelivery.Inv, HttpExchange.Inv, Srv.Inv;
    Everywhere(run, events, i, s);
  }

  lemma FlattenPrefix(a: seq<Bytes>, b: seq<Bytes>)
    requires a <= b
    ensures Flatten(a) <= Flatten(b)
  {
    FlattenAppend(a, b[|a|..]);
    assert a + b[|a|..] == b;
  }

  /**
   Downstream to upstream: the binary frames written to the upstream are the chunks of the downstream messages, in
   order, without gap or repetition, from the first chunk that did not arrive before the session's first Store.
   */
  lemma UpstreamGetsARun(run: seq<State>, events: seq<Event>, i: nat, s: SessionId)
    requires Reached(run, events, i, s) && !Server(run, i, s).protocol.Http?
    ensures var r, chunks := Server(run, i, s).relay, SplitAll(Agent(run, i, s).outflow.produced);
            r.skipped + |r.frames| <= |chunks| && r.frames == chunks[r.skipped..r.skipped + |r.frames|]
  {
    hide IsRun, Srv.Inv, Agt.Inv, DownwardDelivery.Inv, HttpExchange.Inv, UpwardOrder.WireInv, UpwardOrder.CountInv;
    Everywhere(run, events, i, s);
    var r, out := Server(run, i, s).relay, Agent(run, i, s).outflow;
    assert out.chunks <= SplitAll(out.produced);
  }

  /** If the session was stored before any chunk arrived, the upstream gets a prefix of the downstream's bytes. */
  lemma UpstreamGetsAPrefix(run: seq<State>, events: seq<Event>, i: nat, j: nat, s: SessionId)
    requires Reached(run, events, i, s) && i <= j < |run| && !Server(run, i, s).protocol.Http?
    requires Server(run, i, s).member.everStored && Server(run, i, s).relay.arrived == 0
    ensures s < |run[j].nodes|
    ensures Server(run, j, s).relay.frames <= SplitAll(Agent(run, j, s).outflow.produced)
    ensures Flatten(Server(run, j, s).relay.frames) <= Flatten(Agent(run, j, s).outflow.produced)
  {
    hide IsRun, AgentGrows, Srv.Inv, Agt.Inv, DownwardDelivery.Inv, HttpExchange.Inv, UpwardOrder.WireInv,
         UpwardOrder.FrameInv, UpwardOrder.ChunkInv, Flatten, SplitAll;
    RunGrows(run, events, i, j, s);
    Everywhere(run, events, i, s);
    assert Server(run, j, s).relay.skipped == 0;
    UpstreamGetsARun(run, events, j, s);
    var out := Agent(run, j, s).outflow;
    assert Server(run, j, s).relay.frames <= SplitAll(out.produced);
    FlattenPrefix(Server(run, j, s).relay.frames, SplitAll(out.produced));
    SplitAllFlatten(out.produced);
  }

  /** The frames with these numbers. */
  function Pick(frames: seq<Bytes>, order: seq<nat>): seq<Bytes>
    requires forall k :: 0 <= k < |order| ==> order[k] < |frames|
  {
    seq(|order|, k requires 0 <= k < |order| => frames[order[k]])
  }

  /** The frame a data task carries. */
  lemma CarriesFrame(l: Local, i: nat)
    requires DownwardDelivery.Inv(l) && !l.srv.protocol.Http? && i < |l.agt.data|
    ensures i < |l.srv.relay.accepted|
    ensures 0 <= l.srv.relay.accepted[i] < |l.srv.relay.inputs|
    ensures l.agt.data[i].payload == l.srv.relay.inputs[l.srv.relay.accepted[i]]
  {
    var r := l.srv.relay;
    assert DownwardDelivery.IsAccepted(r.inputs, r.accepted, i, l.agt.data[i].payload);
  }

  /** The frames of the tasks whose write is complete. */
  lemma DeliveredFrames(l: Local) returns (order: seq<nat>)
    requires DownwardDelivery.Inv(l) && !l.srv.protocol.Http?
    ensures |order| == |l.agt.inflow.delivered|
    ensures forall k :: 0 <= k < |order| ==> order[k] < |l.srv.relay.inputs| && order[k] in l.srv.relay.accepted
    ensures forall j, k :: 0 <= j < k < |order| ==> order[j] != order[k]
    ensures forall i :: 0 <= i < |l.agt.data| && i !in l.agt.inflow.delivered ==>
              i < |l.srv.relay.accepted| && l.srv.relay.accepted[i] !in order
    ensures Pick(l.srv.relay.inputs, order) == DownwardDelivery.Payloads(l.agt.data, l.agt.inflow.delivered)
  {
    var r, data, pipe := l.srv.relay, l.agt.data, l.agt.inflow;
    hide Flatten, DownwardDelivery.Partial, Queues.DataOf;
    forall i | 0 <= i < |data|
      ensures i < |r.accepted| && 0 <= r.accepted[i] < |r.inputs| && data[i].payload == r.inputs[r.accepted[i]] {
      CarriesFrame(l, i);
    }
    order := seq(|pipe.delivered|, k requires 0 <= k < |pipe.delivered| => r.accepted[pipe.delivered[k]] as nat);
    assert forall k :: 0 <= k < |order| ==> order[k] == r.accepted[pipe.delivered[k]];
  }

  /**
   Upstream to downstream: the bytes handed to the downstream are whole upstream frames of the same session that were
   forwarded, in some order and none twice, and then perhaps the beginning of one more, whose write is in progress or
   has been cut short by the closing of the pipe.
   */
  lemma DownstreamGetsWholeFrames(l: Local) returns (order: seq<nat>, last: nat, bytes: nat)
    requires DownwardDelivery.Inv(l) && !l.srv.protocol.Http?
    ensures forall k :: 0 <= k < |order| ==> order[k] < |l.srv.relay.inputs| && order[k] in l.srv.relay.accepted
    ensures forall j, k :: 0 <= j < k < |order| ==> order[j] != order[k]
    ensures bytes > 0 ==> last < |l.srv.relay.inputs| && last !in order && bytes <= |l.srv.relay.inputs[last]|
    ensures bytes > 0 ==> last in l.srv.relay.accepted && (l.agt.inflow.offer.Some? || l.agt.life.closed)
    ensures l.agt.inflow.received ==
              Flatten(Pick(l.srv.relay.inputs, order)) + if bytes > 0 then l.srv.relay.inputs[last][..bytes] else []
  {
    var r, data, pipe := l.srv.relay, l.agt.data, l.agt.inflow;
    order := DeliveredFrames(l);
    hide Flatten, Pick, DownwardDelivery.Payloads, DownwardDelivery.Flows;
    last, bytes := 0, 0;
    if pipe.offer.Some? && pipe.offer.value.taken > 0 {
      CarriesFrame(l, pipe.offer.value.owner);
      last, bytes := r.accepted[pipe.offer.value.owner], pipe.offer.value.taken;
    } else if pipe.offer.None? && pipe.cut.Some? && pipe.cut.value.bytes > 0 {
      CarriesFrame(l, pipe.cut.value.owner);
      last, bytes := r.accepted[pipe.cut.value.owner], pipe.cut.value.bytes;
    }
  }

  /** ... in every state of every run. */
  lemma DownwardDelivered(run: seq<State>, events: seq<Event>, i: nat, s: SessionId)
    returns (order: seq<nat>, last: nat, bytes: nat)
    requires Reached(run, events, i, s) && !Server(run, i, s).protocol.Http?
    ensures var inputs, accepted := Server(run, i, s).relay.inputs, Server(run, i, s).relay.accepted;
            && (forall k :: 0 <= k < |order| ==> order[k] < |inputs| && order[k] in accepted)
            && (forall j, k :: 0 <= j < k < |order| ==> order[j] != order[k])
            && (bytes > 0 ==> last < |inputs| && last !in order && bytes <= |inputs[last]|)
            && (bytes > 0 ==> last in accepted && (Agent(run, i, s).inflow.offer.Some? || Agent(run, i, s).life.closed))
            && Agent(run, i, s).inflow.received ==
                 Flatten(Pick(inputs, order)) + if bytes > 0 then inputs[last][..bytes] else []
  {
    hide IsRun, DownwardDelivery.Inv, Srv.Inv, Agt.Inv, UpwardOrder.Inv, HttpExchange.Inv, Flatten;
    Everywhere(run, events, i, s);
    order, last, bytes := DownstreamGetsWholeFrames(View(run[i], s));
  }

  /**
   HTTP: the agent sends one answer for each request it has answered, which is at most one. Every answer is in one place
   at most: on the wire to the server, with the inbound pump, consumed by the handler, or turned into one close, which
   is on the wire back or has been absorbed by the agent. The body consumed is one the agent has answered with. Other
   sessions have no answers at all.
   */
  lemma HttpAnswersOnce(run: seq<State>, events: seq<Event>, i: nat, s: SessionId)
    requires Reached(run, events, i, s)
    ensures var agt, sh, replies := Agent(run, i, s), run[i].sh, Server(run, i, s).relay.replies;
            && |agt.answers| == HttpExchange.Answered(agt.https) <= HttpExchange.Requests(agt.https) <= 1
            && |replies| + (|agt.https| - HttpExchange.Requests(agt.https)) <= |agt.answers|
            && (forall r :: r in replies ==> r in agt.answers)
            && (Server(run, i, s).protocol.Http? ==>
                  |Only(sh.up, s)| + Weight(!sh.inbound.InReading? && sh.inbound.m.session == s) + |replies| +
                  Count(Only(sh.down, s), CLOSE_MESSAGE) + (|agt.https| - HttpExchange.Requests(agt.https))
                  <= |agt.answers|)
            && (!Server(run, i, s).protocol.Http? ==> agt.https == [] && agt.answers == [] && replies == [])
  {
    hide IsRun, DownwardDelivery.Inv, Srv.Inv, UpwardOrder.Inv;
    Everywhere(run, events, i, s);
    HttpExchange.AnsweredWithinRequests(Agent(run, i, s).https);
  }
}
