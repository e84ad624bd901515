/** Sessions whose deferred lookup comes before their Store: what becomes of them. */
module LeftBehind {
  import opened Protocol
  import opened Machine
  import opened Projection
  import opened Reachability
  import opened History
  import opened Handling
  import opened Paths
  import Srv = ServerInvariant

  /** The deferred function looks for the session between the hub's receipt of a register request and its Store. */
  predicate Misses(g: State, e: Event, s: SessionId) {
    e == Move(s, Proxy(LookUpSelf)) && g.sh.hub == HubStoring(s) && s < |g.nodes| && !g.nodes[s].srv.member.stored
  }

  /** The hub handles an unregister request for the session. */
  predicate Removes(e: Event, s: SessionId) {
    e == Move(s, Hub(RemoveSession))
  }

  ghost predicate RemovedSince(events: seq<Event>, i: nat, j: nat, s: SessionId)
    requires j <= |events|
  {
    exists k :: i < k < j && Removes(events[k], s)
  }

  lemma MissKept(s: SessionId, a: Action, l: Local, l': Local)
    requires Own(s, l.sh) && Srv.Inv(s, l) && Step(s, a, l, l') && l.srv.member.missPending
    ensures l'.srv.member.missPending
    ensures l'.srv.member.lateRemoval <==> l.srv.member.lateRemoval || a == Hub(RemoveSession)
  {
    hide WriterStep, UpReaderStep, PumpStep, InboundStep,
         ReadStep, ConnStep, AgentHubStep, DataStep, TaskStep, StreamStep;
    match a
    case Proxy(p) =>
    case Writer(w) => WriterFrame(w, l, l');
    case UpReader(r) => UpReaderFrame(r, l, l');
    case Pump(u) => PumpFrame(s, u, l, l');
    case Hub(h) =>
    case Inbound(n) => InboundFrame(s, n, l, l');
    case _ => AgentSideFrame(s, a, l, l');
  }

  lemma HubKeepsTheMiss(s: SessionId, a: HubAction, l: Local, l': Local)
    requires HubStep(s, a, l, l')
    ensures l'.srv.member.missPending == l.srv.member.missPending
  {
    match a
    case TakeRegister =>
    case TakeOwnUnregister =>
    case TakePumpUnregister =>
    case StoreSession =>
    case CheckConnected => assert l'.srv == l.srv;
    case CallRegistered => assert l'.srv.member == l.srv.member;
    case RemoveSession =>
    case CallUnregistered => assert l'.srv.member == l.srv.member;
    case NotifyTeardown(ok) => assert l'.srv.member == l.srv.member;
    case CloseSession => assert l'.srv.member == CloseUpstream(l.srv.member);
  }

  lemma OnlyTheLookupMisses(s: SessionId, a: Action, l: Local, l': Local)
    requires Step(s, a, l, l') && a != Proxy(LookUpSelf)
    ensures l'.srv.member.missPending == l.srv.member.missPending
  {
    hide HubStep, ProxyStep, WriterStep, UpReaderStep, PumpStep, InboundStep,
         ReadStep, ConnStep, AgentHubStep, DataStep, TaskStep, StreamStep;
    match a
    case Proxy(p) => ProxyFrame(s, p, l, l');
    case Writer(w) => WriterFrame(w, l, l');
    case UpReader(r) => UpReaderFrame(r, l, l');
    case Pump(u) => PumpFrame(s, u, l, l');
    case Hub(h) => HubKeepsTheMiss(s, h, l, l');
    case Inbound(n) => InboundFrame(s, n, l, l');
    case _ => AgentSideFrame(s, a, l, l');
  }

  lemma MissBegins(g: State, e: Event, g': State, s: SessionId)
    requires Happens(g, e, g') && s < |g'.nodes| && g'.nodes[s].srv.member.missPending
    requires s < |g.nodes| ==> !g.nodes[s].srv.member.missPending
    ensures Misses(g, e, s)
  {
    if e.Move? && e.s == s {
      if e.a != Proxy(LookUpSelf) {
        OnlyTheLookupMisses(s, e.a, At(g, s), At(g', s));
      }
    }
  }

  lemma MissIsNoted(g: State, e: Event, g': State, s: SessionId)
    requires Happens(g, e, g') && Misses(g, e, s)
    ensures s < |g.nodes| && s < |g'.nodes| && g'.nodes[s].srv.member.missPending
    ensures g'.nodes[s].srv.member.lateRemoval == g.nodes[s].srv.member.lateRemoval
  {
    assert Step(s, e.a, At(g, s), At(g', s));
  }

  lemma MissIsFirst(run: seq<State>, events: seq<Event>, i: nat, s: SessionId)
    requires IsRun(run, events) && i < |events| && Misses(run[i], events[i], s)
    ensures !run[i].nodes[s].srv.member.lateRemoval
  {
    assert Happens(run[i], events[i], run[i + 1]);
    hide IsRun;
    assert run[i].nodes[s].srv.proxy.Leaving?;
    ServerEverywhere(run, events, i, s);
  }

  /** After the miss the record of it stays, and the record of the removal says whether there has been one. */
  lemma {:induction false} MissStays(run: seq<State>, events: seq<Event>, i: nat, j: nat, s: SessionId)
    requires IsRun(run, events) && i < j < |run| && Misses(run[i], events[i], s)
    ensures s < |run[j].nodes| && run[j].nodes[s].srv.member.missPending
    ensures run[j].nodes[s].srv.member.lateRemoval <==> RemovedSince(events, i, j, s)
    decreases j - i
  {
    hide Happens, Init, Misses, Step, Own, Srv.Inv, See;
    if j == i + 1 {
      MissIsNoted(run[i], events[i], run[j], s);
      MissIsFirst(run, events, i, s);
    } else {
      MissStays(run, events, i, j - 1, s);
      ServerEverywhere(run, events, j - 1, s);
      EventSeen(run[j - 1], events[j - 1], run[j], s);
      var e, l, l' := events[j - 1], View(run[j - 1], s), View(run[j], s);
      assert RemovedSince(events, i, j, s) <==> RemovedSince(events, i, j - 1, s) || Removes(e, s);
      if e.Move? && e.s == s {
        MissKept(s, e.a, l, l');
      }
    }
  }

  /** Conversely, a record of a miss goes back to one. */
  lemma {:induction false} MissWas(run: seq<State>, events: seq<Event>, j: nat, s: SessionId) returns (i: nat)
    requires IsRun(run, events) && j < |run| && s < |run[j].nodes| && run[j].nodes[s].srv.member.missPending
    ensures i < j && Misses(run[i], events[i], s)
  {
    hide Happens, Misses, Step, Own, Srv.Inv, See;
    i := 0;
    if j > 0 {
      var g, e, g' := run[j - 1], events[j - 1], run[j];
      if s < |g.nodes| && g.nodes[s].srv.member.missPending {
        i := MissWas(run, events, j - 1, s);
      } else {
        i := j - 1;
        MissBegins(g, e, g', s);
      }
    }
  }

  /** The write pump is gone and the deferred lookup over: nobody asks for the removal. */
  predicate Abandoned(l: Local) {
    l.srv.member.missPending && l.sh.pump.PumpExited? && !l.sh.hub.HubRemoving?
  }

  lemma StaysAbandoned(s: SessionId, a: Action, l: Local, l': Local)
    requires Own(s, l.sh) && Srv.Inv(s, l) && Step(s, a, l, l') && Abandoned(l)
    ensures Abandoned(l') && a != Hub(RemoveSession)
  {
    hide WriterStep, UpReaderStep, InboundStep,
         ReadStep, ConnStep, AgentHubStep, DataStep, TaskStep, StreamStep;
    match a
    case Proxy(p) =>
    case Writer(w) => WriterFrame(w, l, l');
    case UpReader(r) => UpReaderFrame(r, l, l');
    case Pump(u) =>
    case Hub(h) =>
    case Inbound(n) => InboundFrame(s, n, l, l');
    case _ => AgentSideFrame(s, a, l, l');
  }

  lemma QuietAbandoned(l: Local, l': Local)
    requires Quiet(l.sh, l'.sh) && l' == l.(sh := l'.sh) && Abandoned(l)
    ensures Abandoned(l')
  {
  }

  lemma MissAbandons(g: State, e: Event, g': State, s: SessionId)
    requires Happens(g, e, g') && Misses(g, e, s) && g.sh.pump.PumpExited?
    ensures s < |g'.nodes| && Abandoned(View(g', s)) && !Removes(e, s)
  {
    assert Step(s, e.a, At(g, s), At(g', s));
  }

  lemma {:induction false} NoPumpNoRemoval(run: seq<State>, events: seq<Event>, i: nat, j: nat, s: SessionId)
    requires IsRun(run, events) && i < j < |run| && Misses(run[i], events[i], s) && run[i].sh.pump.PumpExited?
    ensures s < |run[j].nodes| && Abandoned(View(run[j], s)) && !RemovedSince(events, i, j, s)
    decreases j - i
  {
    hide Happens, Init, Misses, Step, Own, Srv.Inv, See, View, Abandoned;
    if j == i + 1 {
      MissAbandons(run[i], events[i], run[j], s);
    } else {
      NoPumpNoRemoval(run, events, i, j - 1, s);
      ServerEverywhere(run, events, j - 1, s);
      EventSeen(run[j - 1], events[j - 1], run[j], s);
      var e, l, l' := events[j - 1], View(run[j - 1], s), View(run[j], s);
      if e.Move? && e.s == s {
        StaysAbandoned(s, e.a, l, l');
      } else {
        QuietAbandoned(l, l');
      }
    }
  }

  // ---------- for ever ----------

  /** The reader has, or can still get, a frame for the write pump. */
  predicate CanForward(srv: ServerSession) {
    srv.reader.Forwarding? || ((srv.reader.Reading? || srv.reader.Got?) && srv.cell.status.Connected?)
  }

  /** The write pump is working for session `s`. */
  predicate PumpFor(p: PumpPc, s: SessionId) {
    match p
    case PumpWriting(m) => m.session == s
    case PumpLooking(id) => id == s
    case PumpMarking(id) => id == s
    case PumpReporting(id) => id == s
    case _ => false
  }

  /** The write pump has not failed. */
  predicate PumpServes(p: PumpPc) {
    p.PumpWaiting? || p.PumpWriting?
  }

  /**
   Somebody can still have the session removed: the hub is about to, the write pump is working for it, or the write
   pump serves and the session's reader can forward, so that the write can fail.
   */
  predicate Removable(sh: Shared, srv: ServerSession, s: SessionId) {
    || (sh.hub.HubRemoving? && sh.hub.of == s)
    || PumpFor(sh.pump, s)
    || (PumpServes(sh.pump) && CanForward(srv))
  }

  predicate Stranded(sh: Shared, srv: ServerSession, s: SessionId) {
    srv.member.missPending && srv.member.stored && !Removable(sh, srv, s)
  }

  /** A step of another session. */
  lemma OthersLeaveStranded(t: SessionId, a: Action, l: Local, l': Local, srv: ServerSession, s: SessionId)
    requires t != s && Step(t, a, l, l') && Stranded(l.sh, srv, s)
    ensures Stranded(l'.sh, srv, s)
  {
    hide WriterStep, UpReaderStep, InboundStep, ProxyStep,
         ReadStep, ConnStep, AgentHubStep, DataStep, TaskStep, StreamStep;
    match a
    case Proxy(p) => ProxyFrame(t, p, l, l');
    case Writer(w) => WriterFrame(w, l, l');
    case UpReader(r) => UpReaderFrame(r, l, l');
    case Pump(u) =>
    case Hub(h) =>
    case Inbound(n) => InboundFrame(t, n, l, l');
    case _ => AgentSideFrame(t, a, l, l');
  }

  /** What the invariant says of a handler that has missed. */
  lemma MissedHandlers(s: SessionId, l: Local)
    requires Srv.Inv(s, Project(l, s)) && l.srv.member.missPending
    ensures l.srv.proxy.Closing? || l.srv.proxy.Finished?
  {
  }

  lemma InboundLeavesStranded(s: SessionId, a: InboundAction, l: Local, l': Local)
    requires InboundStep(s, a, l, l') && (l.srv.proxy.Closing? || l.srv.proxy.Finished?)
    ensures l'.sh.pump == l.sh.pump && l'.sh.hub == l.sh.hub && l'.srv.member == l.srv.member
    ensures l'.srv.reader == l.srv.reader && l'.srv.cell == l.srv.cell
  {
  }

  lemma StaysStranded(s: SessionId, a: Action, l: Local, l': Local)
    requires Srv.Inv(s, Project(l, s)) && Step(s, a, l, l') && Stranded(l.sh, l.srv, s)
    ensures Stranded(l'.sh, l'.srv, s)
  {
    MissedHandlers(s, l);
    hide InboundStep, ReadStep, ConnStep, AgentHubStep, DataStep, TaskStep, StreamStep, Srv.Inv, Project;
    match a
    case Proxy(p) =>
    case Writer(w) =>
    case UpReader(r) =>
    case Pump(u) =>
    case Hub(h) =>
    case Inbound(n) => InboundLeavesStranded(s, n, l, l');
    case _ => AgentSideFrame(s, a, l, l');
  }

  lemma StrandedEvent(g: State, e: Event, g': State, s: SessionId)
    requires Happens(g, e, g') && s < |g.nodes| && Srv.Inv(s, View(g, s)) && Stranded(g.sh, g.nodes[s].srv, s)
    ensures s < |g'.nodes| && Stranded(g'.sh, g'.nodes[s].srv, s)
  {
    hide Stranded, Step, Srv.Inv;
    if e.Move? {
      if e.s == s {
        StaysStranded(s, e.a, At(g, s), At(g', s));
      } else {
        OthersLeaveStranded(e.s, e.a, At(g, e.s), At(g', e.s), g.nodes[s].srv, s);
      }
    }
  }

  lemma {:induction false} StrandedForGood(run: seq<State>, events: seq<Event>, i: nat, j: nat, s: SessionId)
    requires IsRun(run, events) && i <= j < |run| && s < |run[i].nodes| && Stranded(run[i].sh, run[i].nodes[s].srv, s)
    ensures s < |run[j].nodes| && Stranded(run[j].sh, run[j].nodes[s].srv, s)
    decreases j - i
  {
    hide Happens, Init, Stranded, View, Own, Srv.Inv;
    if i < j {
      StrandedForGood(run, events, i, j - 1, s);
      ServerEverywhere(run, events, j - 1, s);
      StrandedEvent(run[j - 1], events[j - 1], run[j], s);
    }
  }

  // ---------- or not ----------

  /** The hub can always finish what it is doing. */
  lemma HubMoves(t: SessionId, l: Local) returns (a: HubAction, l': Local)
    requires !l.sh.hub.HubIdle? && l.sh.hub.of == t
    ensures HubStep(t, a, l, l') && Stage(l'.sh.hub) < Stage(l.sh.hub)
    ensures l'.sh.pump == l.sh.pump && (l'.sh.hub.HubIdle? || l'.sh.hub.of == t) && !l'.sh.hub.HubRemoving?
    ensures l'.srv.reader == l.srv.reader && l'.srv.cell == l.srv.cell
    ensures !l.sh.hub.HubRemoving? && l.srv.member.stored ==> l'.srv.member.stored
  {
    var srv, sh := l.srv, l.sh;
    match sh.hub
    case HubStoring(_) =>
      a := StoreSession;
      l' := l.(sh := sh.(hub := HubChecking(t)),
               srv := srv.(member := srv.member.(stored := true, everStored := true)));
    case HubChecking(_) =>
      a := CheckConnected;
      l' := l.(sh := sh.(hub := if srv.cell.status.Connected? then HubCalling(t) else HubIdle));
    case HubCalling(_) =>
      a := CallRegistered;
      l' := l.(sh := sh.(hub := HubIdle), srv := srv.(told := srv.told.(calls := srv.told.calls + [Registered(t)])));
    case HubRemoving(_, own) =>
      a := RemoveSession;
      l' := if !srv.member.stored then l.(sh := sh.(hub := HubIdle))
            else l.(sh := sh.(hub := if srv.protocol.Http? then HubIdle else HubUncalling(t, own)),
                    srv := srv.(member := srv.member.(stored := false,
                                                  lateRemoval := srv.member.lateRemoval || srv.member.missPending)));
    case HubUncalling(_, own) =>
      a := CallUnregistered;
      l' := l.(sh := sh.(hub := HubNotifying(t, own)),
               srv := srv.(told := srv.told.(calls := srv.told.calls + [Unregistered(t)])));
    case HubNotifying(_, own) =>
      a := NotifyTeardown(true);
      l' := if !srv.cell.status.UpstreamClosed?
            then l.(sh := sh.(hub := HubClosing(t, own)),
                    srv := srv.(told := srv.told.(notes := srv.told.notes + [srv.annotation])))
            else l.(sh := WriteDown(sh, CloseFor(t, UPSTREAM_CLOSED_TEXT), true).(hub := HubClosing(t, own)),
                    srv := srv.(told := srv.told.(closes := srv.told.closes + 1)));
    case HubClosing(_, _) =>
      a := CloseSession;
      l' := l.(sh := sh.(hub := HubIdle), srv := srv.(member := CloseUpstream(srv.member)));
  }

  lemma {:induction false} HubSettles(g: State, g': State, s: SessionId) returns (g'': State)
    requires Leads(g, g') && !g'.crashed && s < |g'.nodes| && g'.nodes[s].srv.member.stored
    requires g'.sh.hub.HubIdle? || g'.sh.hub.of < |g'.nodes|
    requires !(g'.sh.hub.HubRemoving? && g'.sh.hub.of == s)
    ensures Leads(g, g'') && !g''.crashed && |g''.nodes| == |g'.nodes| && g''.nodes[s].srv.member.stored
    ensures g''.sh.hub.HubIdle? && g''.sh.pump == g'.sh.pump
    ensures g''.nodes[s].srv.reader == g'.nodes[s].srv.reader && g''.nodes[s].srv.cell == g'.nodes[s].srv.cell
    decreases Stage(g'.sh.hub)
  {
    hide HubStep, Leads;
    if g'.sh.hub.HubIdle? {
      g'' := g';
    } else {
      var t := g'.sh.hub.of;
      var a, l' := HubMoves(t, At(g', t));
      assert Step(t, Hub(a), At(g', t), l');
      var next := Moves(g, g', t, Hub(a), l');
      g'' := HubSettles(g, next, s);
    }
  }

  /** On the way to a removal, with the hub out of the way. */
  predicate Towards(s: SessionId, l: Local) {
    && l.srv.member.stored
    && (l.sh.hub == HubRemoving(s, false) ||
        (l.sh.hub.HubIdle? && (PumpFor(l.sh.pump, s) || (l.sh.pump.PumpWaiting? && CanForward(l.srv)))))
  }

  function Distance(s: SessionId, l: Local): nat {
    if l.sh.hub.HubRemoving? then 0
    else match l.sh.pump
      case PumpReporting(_) => 1
      case PumpMarking(_) => 2
      case PumpLooking(_) => 3
      case PumpWriting(_) => 4
      case _ => if l.srv.reader.Forwarding? then 5 else if l.srv.reader.Got? then 6 else 7
  }

  /** The reader gets a frame and offers it. */
  lemma ReaderMoves(s: SessionId, l: Local) returns (a: UpReaderAction, l': Local)
    requires Towards(s, l) && !l.sh.hub.HubRemoving? && l.sh.pump.PumpWaiting? && !l.srv.reader.Forwarding?
    ensures UpReaderStep(a, l, l') && Towards(s, l') && Distance(s, l') < Distance(s, l)
  {
    if l.srv.reader.Reading? {
      a := ReadFrame(BINARY_MESSAGE, []);
      l' := l.(srv := l.srv.(reader := Got(BINARY_MESSAGE, []),
                             relay := l.srv.relay.(inputs := l.srv.relay.inputs + [[]])));
    } else {
      a := CheckStatus;
      l' := l.(srv := l.srv.(reader := Forwarding(l.srv.reader.kind, l.srv.reader.frame)));
    }
  }

  /** The write pump takes the frame, fails to write it and marks the session. */
  lemma PumpMoves(s: SessionId, l: Local) returns (a: PumpAction, l': Local)
    requires Towards(s, l) && !l.sh.hub.HubRemoving? && !l.sh.pump.PumpReporting?
    requires l.sh.pump.PumpWaiting? ==> l.srv.reader.Forwarding?
    ensures PumpStep(s, a, l, l') && Towards(s, l') && Distance(s, l') < Distance(s, l)
  {
    match l.sh.pump
    case PumpWaiting =>
      a := TakeFrame;
      l' := l.(sh := l.sh.(pump := PumpWriting(Forward(s, l.srv.reader.kind, l.srv.reader.frame))),
               srv := l.srv.(reader := Reading,
                             relay := l.srv.relay.(accepted := l.srv.relay.accepted + [|l.srv.relay.inputs| - 1])));
    case PumpWriting(m) =>
      a := WriteMessage(false);
      l' := l.(sh := l.sh.(pump := PumpLooking(s)));
    case PumpLooking(_) =>
      a := PumpLookUp;
      l' := l.(sh := l.sh.(pump := PumpMarking(s)));
    case PumpMarking(_) =>
      a := PumpMark;
      l' := l.(sh := l.sh.(pump := PumpReporting(s)), srv := l.srv.(cell := SetStatus(l.srv.cell, DownstreamClosed)));
  }

  /** The hub takes the request and removes the session. */
  lemma RemovalMoves(s: SessionId, l: Local) returns (a: HubAction, l': Local)
    requires Towards(s, l) && (l.sh.hub.HubRemoving? || l.sh.pump.PumpReporting?)
    ensures HubStep(s, a, l, l')
    ensures !l'.srv.member.stored || (Towards(s, l') && Distance(s, l') < Distance(s, l))
  {
    if l.sh.hub.HubRemoving? {
      a, l' := HubMoves(s, l);
    } else {
      a := TakePumpUnregister;
      l' := l.(sh := l.sh.(hub := HubRemoving(s, false), pump := PumpExited),
               srv := l.srv.(member := l.srv.member.(pumpRequests := l.srv.member.pumpRequests + 1)));
    }
  }

  lemma {:induction false} Reaches(g: State, g': State, s: SessionId) returns (g'': State)
    requires Leads(g, g') && !g'.crashed && s < |g'.nodes| && Towards(s, At(g', s))
    ensures Leads(g, g'') && s < |g''.nodes| && !g''.nodes[s].srv.member.stored
    decreases Distance(s, At(g', s))
  {
    var l, a, l' := At(g', s), Read, At(g', s);
    hide Leads, Towards, Distance, HubStep, PumpStep, UpReaderStep;
    if l.sh.hub.HubRemoving? || l.sh.pump.PumpReporting? {
      var h;
      h, l' := RemovalMoves(s, l);
      a := Hub(h);
    } else if l.sh.pump.PumpWaiting? && !l.srv.reader.Forwarding? {
      var r;
      r, l' := ReaderMoves(s, l);
      a := UpReader(r);
    } else {
      var u;
      u, l' := PumpMoves(s, l);
      a := Pump(u);
    }
    g'' := Moves(g, g', s, a, l');
    if g''.nodes[s].srv.member.stored {
      g'' := Reaches(g, g'', s);
    }
  }

  /** The write pump finishes what it is doing for another session. */
  lemma PumpFrees(g: State, g': State, t: SessionId) returns (g'': State)
    requires Leads(g, g') && !g'.crashed && t < |g'.nodes|
    requires g'.sh.pump.PumpWriting? && g'.sh.pump.message.session == t
    ensures Leads(g, g'') && !g''.crashed && g''.nodes == g'.nodes
    ensures g''.sh.pump.PumpWaiting? && g''.sh.hub == g'.sh.hub
  {
    var l := At(g', t);
    var l' := l.(sh := WriteDown(l.sh, l.sh.pump.message, true).(pump := PumpWaiting));
    assert PumpStep(t, WriteMessage(true), l, l');
    g'' := Moves(g, g', t, Pump(WriteMessage(true)), l');
    assert g''.nodes[t] == Node(l.srv, l.agt);
    assert g''.nodes == g'.nodes;
  }

  /** Nobody works for a session that does not exist. */
  lemma WorkersExist(g: State)
    requires Whole(g)
    ensures g.sh.hub.HubIdle? || g.sh.hub.of < |g.nodes|
    ensures g.sh.pump.PumpWriting? ==> g.sh.pump.message.session < |g.nodes|
    ensures g.sh.inbound.InReading? || g.sh.inbound.m.session < |g.nodes|
  {
    hide Good;
    if !g.sh.hub.HubIdle? {
      assert g.sh.hub.of >= |g.nodes| ==> Unseen(g.sh, g.sh.hub.of);
    }
    if g.sh.pump.PumpWriting? {
      assert g.sh.pump.message.session >= |g.nodes| ==> Unseen(g.sh, g.sh.pump.message.session);
    }
    if !g.sh.inbound.InReading? {
      assert g.sh.inbound.m.session >= |g.nodes| ==> Unseen(g.sh, g.sh.inbound.m.session);
    }
  }

  lemma RemovesStored(s: SessionId, a: HubAction, l: Local, l': Local)
    requires l.sh.hub.HubRemoving? && l.sh.hub.of == s && HubStep(s, a, l, l')
    ensures !l'.srv.member.stored
  {
  }

  /** A stored session that is removable can be removed. */
  lemma CanBeRemoved(g: State, s: SessionId) returns (g': State)
    requires Whole(g) && !g.crashed && s < |g.nodes| && g.nodes[s].srv.member.stored
    requires Removable(g.sh, g.nodes[s].srv, s)
    ensures Leads(g, g') && s < |g'.nodes| && !g'.nodes[s].srv.member.stored
  {
    WorkersExist(g);
    hide Whole, Leads, HubStep;
    LeadsToItself(g);
    if g.sh.hub.HubRemoving? && g.sh.hub.of == s {
      var a, l' := HubMoves(s, At(g, s));
      RemovesStored(s, a, At(g, s), l');
      assert Step(s, Hub(a), At(g, s), l');
      g' := Moves(g, g, s, Hub(a), l');
    } else {
      g' := HubSettles(g, g, s);
      if g'.sh.pump.PumpWriting? && g'.sh.pump.message.session != s {
        g' := PumpFrees(g, g', g'.sh.pump.message.session);
      }
      g' := Reaches(g, g', s);
    }
  }
}
