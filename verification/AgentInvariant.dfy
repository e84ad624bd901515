/**
 The agent's side of one session and the causal chain that ties it to the server's: connect request, agent store,
 acknowledgement, Connected, forwarding, data.
 */
module AgentInvariant {
  import opened Protocol
  import opened Machine
  import opened Projection
  import opened Queues
  import Srv = ServerInvariant

  /** The agent's acknowledgement of a session: a ConnectMessage that is not an HTTP reply. */
  predicate IsAck(m: TunnelMessage) {
    m.action == CONNECT_MESSAGE && !m.protocol.Http?
  }

  /** What the agent's hub has said so far and where the session is in its life. */
  predicate LifeInv(h: AgentHubPc, life: Life) {
    && life.removes + Weight(life.stored) == life.stores <= 1
    && life.withdrawals == Weight(life.conn.Over?)
    && (life.conn.Absent? || life.conn.Opening? || life.conn.Enrolling? ==>
          life.stores == 0 && |life.control| == 0 && h.AgentIdle?)
    && (h.AgentStoring? ==> life.stores == 0)
    && (h.AgentAcking? ==> life.stores == 1)
    && (h.AgentStoring? || h.AgentAcking? ==>
          (life.conn.Serving? || life.conn.Failing? || life.conn.Withdrawing?) && |life.control| == 0)
    && (h.AgentIdle? && (life.conn.Serving? || life.conn.Failing?) ==> life.stores == 1 && Acked(life.control))
    && (h.AgentIdle? && life.conn.Withdrawing? ==> |life.control| == 0 || Acked(life.control))
    && (h.AgentRemoving? || h.AgentShutting? || h.AgentDeciding? || h.AgentNoticing? ==>
          life.conn.Over? && (|life.control| == 0 || Acked(life.control)))
    && (life.conn.Over? && !h.AgentRemoving? ==> !life.stored)
    && (h.AgentShutting? ==> life.stores == 1)
    && (h.AgentIdle? && life.conn.Over? ==> ControlLanguage(life.control))
  }

  predicate Acked(control: seq<int>) {
    |control| == 1 && control[0] == CONNECT_MESSAGE
  }

  /** Everything the agent's hub can ever say about one session: nothing, Connect, Connect then Close, or Close. */
  predicate ControlLanguage(control: seq<int>) {
    && |control| <= 2
    && (|control| == 1 ==> control[0] == CONNECT_MESSAGE || control[0] == CLOSE_MESSAGE)
    && (|control| == 2 ==> control[0] == CONNECT_MESSAGE && control[1] == CLOSE_MESSAGE)
  }

  /** Before the goroutines of a session are started nothing flows, and only a stored session is closed by a message. */
  ghost predicate EarlyInv(agt: AgentSession) {
    && (agt.life.conn.Absent? || agt.life.conn.Opening? ==>
          agt.inflow.offer.None? && agt.outflow.offer.None? && |agt.outflow.produced| == 0 && |agt.outflow.chunks| == 0)
    && (agt.outflow.offer.Some? || agt.outflow.hand.Some? || agt.outflow.sending || agt.outflow.chunking ||
        agt.inflow.receiving ==>
          !agt.life.conn.Absent? && !agt.life.conn.Opening?)
    && (forall c :: c in agt.closers && (c.Marking? || c.Shutting?) ==> agt.life.stores >= 1)
    && (agt.life.closed ==> agt.life.stores >= 1)
  }

  /** HTTP sessions exchange HTTP messages only and the others none. */
  ghost predicate KindInv(l: Local) {
    var http := l.srv.protocol.Http?;
    && (forall m :: m in l.sh.down ==> m.protocol.Http? == http)
    && (forall m :: m in l.sh.up ==> m.protocol.Http? == http)
    && (l.sh.pump.PumpWriting? ==> l.sh.pump.message.protocol.Http? == http)
    && (!l.sh.inbound.InReading? ==> l.sh.inbound.m.protocol.Http? == http)
    && (l.srv.proxy.Holding? ==> !l.srv.proxy.held.protocol.Http?)
    && (!http ==> |l.agt.https| == 0)
    && (http ==> l.agt.life.conn.Absent? && |l.agt.data| == 0 && |l.agt.closers| == 0 && l.sh.agentHub.AgentIdle?)
  }

  /** The kinds of the frames under way from the upstream to the agent. */
  predicate FrameInv(l: Local) {
    && (l.srv.reader.Got? || l.srv.reader.Forwarding? ==>
          l.srv.reader.kind == TEXT_MESSAGE || l.srv.reader.kind == BINARY_MESSAGE)
    && (l.sh.pump.PumpWriting? && !l.srv.protocol.Http? ==> IsData(l.sh.pump.message))
    && (l.sh.inbound.InBouncing? ==> l.sh.inbound.m.action == CLOSE_MESSAGE)
  }

  /** The connect request of a session is written once and opened once. */
  predicate RequestInv(l: Local) {
    !l.srv.protocol.Http? ==>
      && Count(l.sh.down, CONNECT_MESSAGE) + Weight(!l.agt.life.conn.Absent?) <= 1
      && (l.srv.proxy.Start? || l.srv.proxy.Preparing? ==>
            Count(l.sh.down, CONNECT_MESSAGE) == 0 && l.agt.life.conn.Absent?)
  }

  /** No data before the agent's hub has stored the session. */
  ghost predicate CausalInv(l: Local) {
    var known := l.agt.life.stores >= 1;
    && (forall m :: m in l.sh.up && IsAck(m) ==> known)
    && ((l.sh.inbound.InLooking? || l.sh.inbound.InDelivering?) && IsAck(l.sh.inbound.m) ==> known)
    && (l.srv.proxy.Holding? && IsAck(l.srv.proxy.held) ==> known)
    && (l.srv.proxy.Promoting? || l.srv.proxy.Confirming? || Srv.WasConnected(l.srv.cell.log) ==> known)
    && (l.srv.reader.Forwarding? ==> known)
    && (l.sh.pump.PumpWriting? && IsData(l.sh.pump.message) ==> known)
    && (forall m :: m in l.sh.down && IsData(m) ==> known)
    && (|l.agt.data| > 0 ==> known)
  }

  ghost predicate Inv(l: Local) {
    && LifeInv(l.sh.agentHub, l.agt.life)
    && EarlyInv(l.agt)
    && KindInv(l)
    && FrameInv(l)
    && RequestInv(l)
    && CausalInv(l)
  }

  lemma Initially(l: Local, protocol: Protocol)
    requires IsNew(l, protocol)
    ensures Inv(l)
  {
  }

  lemma Undisturbed(l: Local, sh': Shared)
    requires Inv(l) && Quiet(l.sh, sh')
    ensures Inv(l.(sh := sh'))
  {
  }

  /** What the server's side contributes. */
  ghost predicate Known(s: SessionId, l: Local) {
    && Own(s, l.sh)
    && Srv.StatusInv(l.srv)
    && Srv.ControlInv(l.srv)
    && Srv.MapInv(l.sh.hub, l.sh.pump, l.srv)
  }

  lemma ProxyKeepsKinds(s: SessionId, a: ProxyAction, l: Local, l': Local)
    requires Known(s, l) && KindInv(l) && FrameInv(l) && ProxyStep(s, a, l, l')
    ensures KindInv(l') && FrameInv(l')
  {
  }

  lemma ProxyKeepsRequests(s: SessionId, a: ProxyAction, l: Local, l': Local)
    requires Known(s, l) && KindInv(l) && FrameInv(l) && RequestInv(l) && ProxyStep(s, a, l, l')
    ensures RequestInv(l')
  {
    hide KindInv, FrameInv, Known, Count;
    CountAppend(l.sh.down, TunnelMessage(s, l.srv.protocol, CONNECT_MESSAGE, []), CONNECT_MESSAGE);
  }

  lemma ProxyKeepsCauses(s: SessionId, a: ProxyAction, l: Local, l': Local)
    requires Known(s, l) && KindInv(l) && FrameInv(l) && CausalInv(l) && ProxyStep(s, a, l, l')
    ensures CausalInv(l')
  {
  }

  lemma ProxyPreserves(s: SessionId, a: ProxyAction, l: Local, l': Local)
    requires Known(s, l) && Inv(l) && ProxyStep(s, a, l, l')
    ensures Inv(l')
  {
    hide LifeInv, EarlyInv, KindInv, FrameInv, RequestInv, CausalInv, Known;
    ProxyKeepsKinds(s, a, l, l');
    ProxyKeepsRequests(s, a, l, l');
    ProxyKeepsCauses(s, a, l, l');
    assert l'.agt == l.agt && l'.sh.agentHub == l.sh.agentHub;
  }

  lemma WriterPreserves(s: SessionId, a: WriterAction, l: Local, l': Local)
    requires Known(s, l) && Inv(l) && WriterStep(a, l, l')
    ensures Inv(l')
  {
    hide LifeInv, EarlyInv;
  }

  lemma UpReaderPreserves(s: SessionId, a: UpReaderAction, l: Local, l': Local)
    requires Known(s, l) && Inv(l) && UpReaderStep(a, l, l')
    ensures Inv(l')
  {
    hide LifeInv, EarlyInv;
  }

  lemma PumpKeepsKinds(s: SessionId, a: PumpAction, l: Local, l': Local)
    requires Known(s, l) && KindInv(l) && FrameInv(l) && PumpStep(s, a, l, l')
    ensures KindInv(l') && FrameInv(l')
  {
  }

  lemma PumpKeepsRequests(s: SessionId, a: PumpAction, l: Local, l': Local)
    requires Known(s, l) && KindInv(l) && FrameInv(l) && RequestInv(l) && PumpStep(s, a, l, l')
    ensures RequestInv(l')
  {
    hide KindInv, Count;
    if l.sh.pump.PumpWriting? {
      CountAppend(l.sh.down, l.sh.pump.message, CONNECT_MESSAGE);
    }
  }

  lemma PumpKeepsCauses(s: SessionId, a: PumpAction, l: Local, l': Local)
    requires Known(s, l) && KindInv(l) && FrameInv(l) && CausalInv(l) && PumpStep(s, a, l, l')
    ensures CausalInv(l')
  {
  }

  lemma PumpPreserves(s: SessionId, a: PumpAction, l: Local, l': Local)
    requires Known(s, l) && Inv(l) && PumpStep(s, a, l, l')
    ensures Inv(l')
  {
    hide LifeInv, EarlyInv, KindInv, FrameInv, RequestInv, CausalInv, Known;
    PumpKeepsKinds(s, a, l, l');
    PumpKeepsRequests(s, a, l, l');
    PumpKeepsCauses(s, a, l, l');
    assert l'.agt == l.agt && l'.sh.agentHub == l.sh.agentHub;
  }

  lemma HubKeepsKinds(s: SessionId, a: HubAction, l: Local, l': Local)
    requires Known(s, l) && KindInv(l) && FrameInv(l) && HubStep(s, a, l, l')
    ensures KindInv(l') && FrameInv(l')
  {
  }

  lemma HubKeepsRequests(s: SessionId, a: HubAction, l: Local, l': Local)
    requires Known(s, l) && KindInv(l) && FrameInv(l) && RequestInv(l) && HubStep(s, a, l, l')
    ensures RequestInv(l')
  {
    hide KindInv, Count;
    CountAppend(l.sh.down, CloseFor(s, UPSTREAM_CLOSED_TEXT), CONNECT_MESSAGE);
  }

  lemma HubKeepsCauses(s: SessionId, a: HubAction, l: Local, l': Local)
    requires Known(s, l) && KindInv(l) && FrameInv(l) && CausalInv(l) && HubStep(s, a, l, l')
    ensures CausalInv(l')
  {
  }

  lemma HubPreserves(s: SessionId, a: HubAction, l: Local, l': Local)
    requires Known(s, l) && Inv(l) && HubStep(s, a, l, l')
    ensures Inv(l')
  {
    hide LifeInv, EarlyInv, KindInv, FrameInv, RequestInv, CausalInv, Known;
    HubKeepsKinds(s, a, l, l');
    HubKeepsRequests(s, a, l, l');
    HubKeepsCauses(s, a, l, l');
    assert l'.agt == l.agt && l'.sh.agentHub == l.sh.agentHub;
  }

  lemma InboundKeepsKinds(s: SessionId, a: InboundAction, l: Local, l': Local)
    requires Known(s, l) && KindInv(l) && FrameInv(l) && InboundStep(s, a, l, l')
    ensures KindInv(l') && FrameInv(l')
  {
  }

  lemma InboundKeepsRequests(s: SessionId, a: InboundAction, l: Local, l': Local)
    requires Known(s, l) && KindInv(l) && FrameInv(l) && RequestInv(l) && InboundStep(s, a, l, l')
    ensures RequestInv(l')
  {
    hide KindInv, Count;
    if !l.sh.inbound.InReading? {
      CountAppend(l.sh.down, l.sh.inbound.m, CONNECT_MESSAGE);
    }
  }

  lemma InboundKeepsCauses(s: SessionId, a: InboundAction, l: Local, l': Local)
    requires Known(s, l) && KindInv(l) && FrameInv(l) && CausalInv(l) && InboundStep(s, a, l, l')
    ensures CausalInv(l')
  {
  }

  lemma InboundPreserves(s: SessionId, a: InboundAction, l: Local, l': Local)
    requires Known(s, l) && Inv(l) && InboundStep(s, a, l, l')
    ensures Inv(l')
  {
    hide LifeInv, EarlyInv, KindInv, FrameInv, RequestInv, CausalInv, Known;
    InboundKeepsKinds(s, a, l, l');
    InboundKeepsRequests(s, a, l, l');
    InboundKeepsCauses(s, a, l, l');
    assert l'.agt == l.agt && l'.sh.agentHub == l.sh.agentHub;
  }

  lemma ReadKeepsLife(s: SessionId, l: Local, l': Local)
    requires Known(s, l) && LifeInv(l.sh.agentHub, l.agt.life) && EarlyInv(l.agt) && KindInv(l) && RequestInv(l)
    requires ReadStep(s, l, l')
    ensures LifeInv(l'.sh.agentHub, l'.agt.life) && EarlyInv(l'.agt) && RequestInv(l')
    ensures l'.agt.life.stores == l.agt.life.stores
  {
    CountPop(l.sh.down, CONNECT_MESSAGE);
  }

  lemma ReadKeepsKinds(s: SessionId, l: Local, l': Local)
    requires Known(s, l) && KindInv(l) && FrameInv(l) && ReadStep(s, l, l')
    ensures KindInv(l') && FrameInv(l')
  {
  }

  lemma ReadKeepsCauses(s: SessionId, l: Local, l': Local)
    requires CausalInv(l) && ReadStep(s, l, l') && l'.agt.life.stores == l.agt.life.stores
    ensures CausalInv(l')
  {
    assert l.sh.down[0] in l.sh.down;
    assert forall m :: m in l'.sh.down ==> m in l.sh.down;
  }

  lemma ReadPreserves(s: SessionId, l: Local, l': Local)
    requires Known(s, l) && Inv(l) && ReadStep(s, l, l')
    ensures Inv(l')
  {
    hide LifeInv, EarlyInv, KindInv, FrameInv, RequestInv, CausalInv, Known, ReadStep;
    ReadKeepsLife(s, l, l');
    ReadKeepsKinds(s, l, l');
    ReadKeepsCauses(s, l, l');
  }

  lemma ConnPreserves(s: SessionId, a: ConnAction, l: Local, l': Local)
    requires Known(s, l) && Inv(l) && ConnStep(a, l, l')
    ensures Inv(l')
  {
  }

  lemma AgentHubKeepsLife(s: SessionId, a: AgentHubAction, l: Local, l': Local)
    requires LifeInv(l.sh.agentHub, l.agt.life) && EarlyInv(l.agt) && AgentHubStep(s, a, l, l')
    ensures LifeInv(l'.sh.agentHub, l'.agt.life) && EarlyInv(l'.agt)
    ensures l.agt.life.stores <= l'.agt.life.stores
  {
  }

  lemma AgentHubKeepsRest(s: SessionId, a: AgentHubAction, l: Local, l': Local)
    requires Known(s, l) && KindInv(l) && FrameInv(l) && RequestInv(l) && LifeInv(l.sh.agentHub, l.agt.life)
    requires AgentHubStep(s, a, l, l')
    ensures KindInv(l') && FrameInv(l') && RequestInv(l')
  {
  }

  lemma AgentHubKeepsCauses(s: SessionId, a: AgentHubAction, l: Local, l': Local)
    requires LifeInv(l.sh.agentHub, l.agt.life) && CausalInv(l) && AgentHubStep(s, a, l, l')
    ensures CausalInv(l')
  {
  }

  lemma AgentHubPreserves(s: SessionId, a: AgentHubAction, l: Local, l': Local)
    requires Known(s, l) && Inv(l) && AgentHubStep(s, a, l, l')
    ensures Inv(l')
  {
    hide LifeInv, EarlyInv, KindInv, FrameInv, RequestInv, CausalInv, Known, AgentHubStep;
    AgentHubKeepsLife(s, a, l, l');
    AgentHubKeepsRest(s, a, l, l');
    AgentHubKeepsCauses(s, a, l, l');
  }

  lemma DataPreserves(s: SessionId, i: nat, a: DataAction, l: Local, l': Local)
    requires Known(s, l) && Inv(l) && DataStep(s, i, a, l, l')
    ensures Inv(l')
  {
  }

  lemma TaskPreserves(s: SessionId, a: TaskAction, l: Local, l': Local)
    requires Known(s, l) && Inv(l) && TaskStep(s, a, l, l')
    ensures Inv(l')
  {
  }

  lemma StreamPreserves(s: SessionId, a: StreamAction, l: Local, l': Local)
    requires Known(s, l) && Inv(l) && StreamStep(s, a, l, l')
    ensures Inv(l')
  {
  }

  lemma Preserved(s: SessionId, a: Action, l: Local, l': Local)
    requires Own(s, l.sh) && Srv.Inv(s, l) && Inv(l) && Step(s, a, l, l')
    ensures Inv(l')
  {
    match a
    case Proxy(p) => ProxyPreserves(s, p, l, l');
    case Writer(w) => WriterPreserves(s, w, l, l');
    case UpReader(r) => UpReaderPreserves(s, r, l, l');
    case Pump(u) => PumpPreserves(s, u, l, l');
    case Hub(h) => HubPreserves(s, h, l, l');
    case Inbound(n) => InboundPreserves(s, n, l, l');
    case Read => ReadPreserves(s, l, l');
    case Conn(c) => ConnPreserves(s, c, l, l');
    case AgentHub(g) => AgentHubPreserves(s, g, l, l');
    case Data(i, d) => DataPreserves(s, i, d, l, l');
    case Task(k) => TaskPreserves(s, k, l, l');
    case Stream(x) => StreamPreserves(s, x, l, l');
  }
}
