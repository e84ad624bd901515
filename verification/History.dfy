/** What never shrinks, and what never comes back, from one state of a run to any later one. */
module History {
  import opened Protocol
  import opened Machine
  import opened Projection
  import opened Reachability
  import opened Paths
  import Srv = ServerInvariant
  import Agt = AgentInvariant
  import UpwardOrder
  import DownwardDelivery
  import HttpExchange
  import Duties

  /** Everything recorded about a session on the server is kept. */
  predicate ServerGrows(a: ServerSession, b: ServerSession) {
    && b.protocol == a.protocol
    && a.cell.log <= b.cell.log
    && a.told.calls <= b.told.calls
    && a.told.notes <= b.told.notes
    && a.told.closes <= b.told.closes
    && a.relay.inputs <= b.relay.inputs
    && a.relay.accepted <= b.relay.accepted
    && a.relay.frames <= b.relay.frames
    && (a.member.everStored ==> b.member.everStored && b.relay.skipped == a.relay.skipped)
    && (a.member.isClosed ==> b.member.isClosed)
  }

  /** Everything recorded about a session on the agent is kept. */
  predicate AgentGrows(a: AgentSession, b: AgentSession) {
    && a.life.control <= b.life.control
    && a.life.stores <= b.life.stores
    && a.life.removes <= b.life.removes
    && a.inflow.received <= b.inflow.received
    && a.inflow.delivered <= b.inflow.delivered
    && a.outflow.produced <= b.outflow.produced
    && a.outflow.chunks <= b.outflow.chunks
  }

  lemma ProxyGrows(s: SessionId, a: ProxyAction, l: Local, l': Local)
    requires ProxyStep(s, a, l, l')
    ensures ServerGrows(l.srv, l'.srv)
  {
  }

  lemma WriterGrows(s: SessionId, a: WriterAction, l: Local, l': Local)
    requires WriterStep(a, l, l')
    ensures ServerGrows(l.srv, l'.srv)
  {
  }

  lemma UpReaderGrows(s: SessionId, a: UpReaderAction, l: Local, l': Local)
    requires UpReaderStep(a, l, l')
    ensures ServerGrows(l.srv, l'.srv)
  {
  }

  lemma PumpGrows(s: SessionId, a: PumpAction, l: Local, l': Local)
    requires PumpStep(s, a, l, l')
    ensures ServerGrows(l.srv, l'.srv)
  {
  }

  lemma HubGrows(s: SessionId, a: HubAction, l: Local, l': Local)
    requires HubStep(s, a, l, l')
    ensures ServerGrows(l.srv, l'.srv)
  {
  }

  lemma InboundGrows(s: SessionId, a: InboundAction, l: Local, l': Local)
    requires InboundStep(s, a, l, l')
    ensures ServerGrows(l.srv, l'.srv)
  {
  }

  lemma ConnGrows(s: SessionId, a: ConnAction, l: Local, l': Local)
    requires ConnStep(a, l, l')
    ensures AgentGrows(l.agt, l'.agt)
  {
  }

  lemma AgentHubGrows(s: SessionId, a: AgentHubAction, l: Local, l': Local)
    requires AgentHubStep(s, a, l, l')
    ensures AgentGrows(l.agt, l'.agt)
  {
  }

  lemma StreamGrows(s: SessionId, a: StreamAction, l: Local, l': Local)
    requires StreamStep(s, a, l, l')
    ensures AgentGrows(l.agt, l'.agt)
  {
  }

  lemma StepGrows(s: SessionId, a: Action, l: Local, l': Local)
    requires Step(s, a, l, l')
    ensures ServerGrows(l.srv, l'.srv) && AgentGrows(l.agt, l'.agt)
  {
    hide ProxyStep, WriterStep, UpReaderStep, PumpStep, HubStep, InboundStep, ConnStep, AgentHubStep, StreamStep;
    if ServerSide(a) {
      ServerSideFrame(s, a, l, l');
    } else {
      AgentSideFrame(s, a, l, l');
    }
    match a
    case Proxy(p) => ProxyGrows(s, p, l, l');
    case Writer(w) => WriterGrows(s, w, l, l');
    case UpReader(r) => UpReaderGrows(s, r, l, l');
    case Pump(u) => PumpGrows(s, u, l, l');
    case Hub(h) => HubGrows(s, h, l, l');
    case Inbound(n) => InboundGrows(s, n, l, l');
    case Conn(c) => ConnGrows(s, c, l, l');
    case AgentHub(g) => AgentHubGrows(s, g, l, l');
    case Stream(x) => StreamGrows(s, x, l, l');
    case Read => assert l'.agt == Spawn(l.agt, l.sh.down[0]);
    case Data(i, d) => assert AgentGrows(l.agt, l'.agt);
    case Task(k) => assert AgentGrows(l.agt, l'.agt);
  }

  lemma EventGrows(g: State, e: Event, g': State, s: SessionId)
    requires Happens(g, e, g') && s < |g.nodes|
    ensures s < |g'.nodes|
    ensures ServerGrows(g.nodes[s].srv, g'.nodes[s].srv) && AgentGrows(g.nodes[s].agt, g'.nodes[s].agt)
  {
    match e
    case Move(t, a) =>
      if t == s {
        StepGrows(s, a, At(g, s), At(g', s));
      }
    case Open(protocol) =>
    case Crash =>
  }

  /** Histories only grow along a run. */
  lemma {:induction false} RunGrows(run: seq<State>, events: seq<Event>, i: nat, j: nat, s: SessionId)
    requires IsRun(run, events) && i <= j < |run| && s < |run[i].nodes|
    ensures s < |run[j].nodes|
    ensures ServerGrows(run[i].nodes[s].srv, run[j].nodes[s].srv)
    ensures AgentGrows(run[i].nodes[s].agt, run[j].nodes[s].agt)
    decreases j - i
  {
    hide Happens, Init;
    if i < j {
      RunGrows(run, events, i, j - 1, s);
      EventGrows(run[j - 1], events[j - 1], run[j], s);
    }
  }

  /** The hub has dealt with the unregister request of the session's own deferred function. */
  predicate Dismissed(l: Local) {
    l.srv.member.ownRequest && !(l.sh.hub.HubRemoving? && l.sh.hub.own)
  }

  lemma StaysDismissed(s: SessionId, a: Action, l: Local, l': Local)
    requires Own(s, l.sh) && Srv.Inv(s, l) && Dismissed(l) && Step(s, a, l, l')
    ensures Dismissed(l')
  {
    hide ReadStep, ConnStep, AgentHubStep, DataStep, TaskStep, StreamStep;
    match a
    case Proxy(p) =>
    case Writer(w) =>
    case UpReader(r) =>
    case Pump(u) =>
    case Hub(h) =>
    case Inbound(n) =>
    case _ => AgentSideFrame(s, a, l, l');
  }

  lemma QuietKeeps(l: Local, l': Local)
    requires Quiet(l.sh, l'.sh) && l' == l.(sh := l'.sh)
    ensures Dismissed(l) ==> Dismissed(l')
  {
  }

  /** One event, seen by a session: its own step on its own view, or next to nothing. */
  lemma EventSeen(g: State, e: Event, g': State, s: SessionId)
    requires Happens(g, e, g') && s < |g.nodes|
    ensures |g.nodes| <= |g'.nodes|
    ensures if e.Move? && e.s == s then Step(s, e.a, View(g, s), View(g', s))
            else Quiet(View(g, s).sh, View(g', s).sh) && View(g', s) == View(g, s).(sh := View(g', s).sh)
  {
    match e
    case Move(t, a) => StepProjects(t, a, At(g, t), At(g', t), s);
    case Open(protocol) =>
    case Crash =>
  }

  lemma {:induction false} DismissedForGood(run: seq<State>, events: seq<Event>, i: nat, j: nat, s: SessionId)
    requires IsRun(run, events) && i <= j < |run| && s < |run[i].nodes| && Dismissed(View(run[i], s))
    ensures s < |run[j].nodes| && Dismissed(View(run[j], s))
    decreases j - i
  {
    hide Happens, Init, Dismissed, Step, View, Own, Srv.Inv;
    if i < j {
      DismissedForGood(run, events, i, j - 1, s);
      ServerEverywhere(run, events, j - 1, s);
      EventSeen(run[j - 1], events[j - 1], run[j], s);
      var l, l' := View(run[j - 1], s), View(run[j], s);
      if events[j - 1].Move? && events[j - 1].s == s {
        StaysDismissed(s, events[j - 1].a, l, l');
      } else {
        QuietKeeps(l, l');
      }
    }
  }

  /**
   The inbound pump offers a reply to an HTTP handler that has stopped waiting and will leave, or has left, through the
   hub: nobody receives, nobody closes.
   */
  predicate Stuck(l: Local) {
    && l.sh.inbound.InDelivering?
    && l.srv.protocol.Http?
    && (l.srv.proxy.Leaving? || l.srv.proxy.Unregistering? || l.srv.member.ownRequest)
  }

  lemma StaysStuck(s: SessionId, a: Action, l: Local, l': Local)
    requires Own(s, l.sh) && Srv.Inv(s, l) && HttpExchange.Inv(l) && Stuck(l) && Step(s, a, l, l')
    ensures Stuck(l') && l'.sh.inbound == l.sh.inbound
  {
    hide ReadStep, ConnStep, AgentHubStep, DataStep, TaskStep, StreamStep, HttpExchange.AnswerOnce,
         HttpExchange.RequestOnce;
    match a
    case Proxy(p) =>
    case Writer(w) =>
    case UpReader(r) =>
    case Pump(u) =>
    case Hub(h) =>
    case Inbound(n) =>
    case _ => AgentSideFrame(s, a, l, l');
  }

  /** Only a receipt takes a message off the wire to the server. */
  lemma OthersLeaveTheWire(s: SessionId, a: Action, l: Local, l': Local)
    requires Step(s, a, l, l') && a != Inbound(Receive)
    ensures l.sh.up <= l'.sh.up
  {
    if ServerSide(a) {
      match a
      case Proxy(p) =>
      case Writer(w) =>
      case UpReader(r) =>
      case Pump(u) =>
      case Hub(h) =>
      case Inbound(n) =>
    }
  }

  lemma StuckMeans(g: State, s: SessionId)
    requires s < |g.nodes| && Stuck(View(g, s)) && Srv.Inv(s, View(g, s))
    ensures View(g, s).sh.inbound == g.sh.inbound && g.sh.inbound.InDelivering? && g.sh.inbound.m.session == s
    ensures !g.nodes[s].srv.member.isClosed
  {
  }

  lemma StuckUndisturbed(l: Local, l': Local)
    requires Quiet(l.sh, l'.sh) && l' == l.(sh := l'.sh) && Stuck(l)
    ensures Stuck(l')
  {
  }

  lemma StuckEvent(g: State, e: Event, g': State, s: SessionId)
    requires Happens(g, e, g') && s < |g.nodes|
    requires Good(s, View(g, s)) && Stuck(View(g, s))
    requires s < |g'.nodes| ==> Srv.Inv(s, View(g', s))
    ensures s < |g'.nodes| && Stuck(View(g', s)) && g'.sh.inbound == g.sh.inbound
    ensures g.sh.up <= g'.sh.up && g'.crashed == g.crashed
  {
    hide Agt.Inv, UpwardOrder.Inv, DownwardDelivery.Inv, HttpExchange.Inv;
    StuckMeans(g, s);
    EventSeen(g, e, g', s);
    var l, l' := View(g, s), View(g', s);
    hide Stuck, View, Srv.Inv, Own, See;
    if e.Move? {
      if e.s == s {
        StaysStuck(s, e.a, l, l');
      } else {
        StuckUndisturbed(l, l');
      }
      StuckMeans(g', s);
      assert e.a == Inbound(Receive) ==> g.sh.inbound.InReading?;
      OthersLeaveTheWire(e.s, e.a, At(g, e.s), At(g', e.s));
    } else {
      StuckUndisturbed(l, l');
    }
  }

  /** From then on nothing the agent sends is read, for any session, and the run does not end with a panic either. */
  lemma {:induction false} StuckForGood(run: seq<State>, events: seq<Event>, i: nat, j: nat, s: SessionId)
    requires IsRun(run, events) && i <= j < |run| && s < |run[i].nodes| && Stuck(View(run[i], s))
    ensures s < |run[j].nodes| && Stuck(View(run[j], s))
    ensures run[j].sh.inbound == run[i].sh.inbound && run[i].sh.up <= run[j].sh.up
    ensures run[j].crashed == run[i].crashed
    decreases j - i
  {
    hide Init, Happens, Stuck, View, Own, Srv.Inv, Good;
    if i < j {
      StuckForGood(run, events, i, j - 1, s);
      Everywhere(run, events, j - 1, s);
      EventSeen(run[j - 1], events[j - 1], run[j], s);
      ServerEverywhere(run, events, j, s);
      StuckEvent(run[j - 1], events[j - 1], run[j], s);
    }
  }

  /** A handler that is not stuck takes the reply, or closes the channel so that the send panics. */
  lemma Unstuck(s: SessionId, l: Local)
    requires Own(s, l.sh) && Srv.Inv(s, l) && HttpExchange.Inv(l)
    requires l.sh.inbound.InDelivering? && l.srv.protocol.Http? && !Stuck(l)
    ensures if l.srv.member.isClosed then true else l.srv.proxy.Awaiting? || l.srv.proxy.Closing?
  {
    HttpExchange.AnsweredWithinRequests(l.agt.https);
  }

  lemma GetsOn(g: State, s: SessionId) returns (g': State)
    requires s < |g.nodes| && Good(s, View(g, s)) && !g.crashed
    requires g.sh.inbound.InDelivering? && g.sh.inbound.m.session == s && g.nodes[s].srv.protocol.Http?
    requires !Stuck(View(g, s))
    ensures Leads(g, g') && (g'.sh.inbound != g.sh.inbound || g'.crashed)
  {
    hide Agt.Inv, UpwardOrder.Inv, DownwardDelivery.Inv;
    Unstuck(s, View(g, s));
    hide Srv.Inv, HttpExchange.Inv, Own, Leads, Good;
    LeadsToItself(g);
    g' := g;
    var l := At(g, s);
    if !l.srv.member.isClosed {
      if l.srv.proxy.Awaiting? {
        var l' := l.(sh := l.sh.(inbound := InReading),
                     srv := l.srv.(proxy := Leaving,
                                    relay := l.srv.relay.(replies := l.srv.relay.replies + [g.sh.inbound.m.payload]),
                                    traffic := l.srv.traffic.(delivered := l.srv.traffic.delivered + 1)));
        g' := Moves(g, g, s, Inbound(Deliver), l');
        return;
      }
      var l' := l.(srv := l.srv.(proxy := Finished, member := CloseUpstream(l.srv.member)));
      g' := Moves(g, g, s, Proxy(CloseSelf), l');
    }
    LeadsOn(g, g', Crash, g'.(crashed := true));
    g' := g'.(crashed := true);
  }

  /** The inbound pump offers a message on a channel that has been closed. */
  predicate Doomed(g: State) {
    g.sh.inbound.InDelivering? && g.sh.inbound.m.session < |g.nodes| &&
    g.nodes[g.sh.inbound.m.session].srv.member.isClosed
  }

  lemma OnlyInboundMoves(s: SessionId, a: Action, l: Local, l': Local)
    requires Step(s, a, l, l') && l.sh.inbound.InDelivering?
    requires l.sh.inbound.m.session == s ==> l.srv.member.isClosed
    ensures l'.sh.inbound == l.sh.inbound
  {
    hide ReadStep, ConnStep, AgentHubStep, DataStep, TaskStep, StreamStep;
    match a
    case Proxy(p) =>
    case Writer(w) =>
    case UpReader(r) =>
    case Pump(u) =>
    case Hub(h) =>
    case Inbound(n) =>
    case _ => AgentSideFrame(s, a, l, l');
  }

  lemma DoomedEvent(g: State, e: Event, g': State)
    requires Happens(g, e, g') && Doomed(g)
    ensures Doomed(g') && g'.sh.inbound == g.sh.inbound
  {
    EventGrows(g, e, g', g.sh.inbound.m.session);
    if e.Move? {
      OnlyInboundMoves(e.s, e.a, At(g, e.s), At(g', e.s));
    }
  }

  /** Only the panic can end that. */
  lemma {:induction false} DoomedForGood(run: seq<State>, events: seq<Event>, i: nat, j: nat)
    requires IsRun(run, events) && i <= j < |run| && Doomed(run[i])
    ensures Doomed(run[j]) && run[j].sh.inbound == run[i].sh.inbound
    decreases j - i
  {
    hide Happens, Init, Doomed;
    if i < j {
      DoomedForGood(run, events, i, j - 1);
      DoomedEvent(run[j - 1], events[j - 1], run[j]);
    }
  }

  /** A close that has found its session stays on its way to closing it. */
  lemma {:induction false} SeizedForGood(run: seq<State>, events: seq<Event>, i: nat, j: nat, s: SessionId, c: nat)
    requires IsRun(run, events) && i <= j < |run| && s < |run[i].nodes|
    requires c < |run[i].nodes[s].agt.closers| && Duties.Seized(run[i].nodes[s].agt.closers[c])
    ensures s < |run[j].nodes| && c < |run[j].nodes[s].agt.closers| && Duties.Seized(run[j].nodes[s].agt.closers[c])
    decreases j - i
  {
    hide Init, Step, Duties.Seized;
    if i < j {
      SeizedForGood(run, events, i, j - 1, s, c);
      var g, e, g' := run[j - 1], events[j - 1], run[j];
      assert Happens(g, e, g');
      if e.Move? && e.s == s {
        Duties.StaysSeized(s, e.a, At(g, s), At(g', s), c);
      }
    }
  }
}
