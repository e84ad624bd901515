/** Who ended a session, and how the reason travels: from the agent's close to the text the upstream gets. */
module Endings {
  import opened Protocol
  import opened Machine
  import opened Projection
  import Srv = ServerInvariant
  import Agt = AgentInvariant

  /** The status says which end has failed, and a failed end shows in the status. */
  predicate BlameInv(pump: PumpPc, srv: ServerSession) {
    && (srv.cell.status.UpstreamClosed? ==> srv.ends.broken && srv.reader.Stopped?)
    && (srv.cell.status.DownstreamClosed? ==>
          srv.ends.ended.Some? || pump.PumpReporting? || srv.member.pumpRequests >= 1)
    && (srv.ends.ended.Some? || pump.PumpReporting? || srv.member.pumpRequests >= 1 ==> Absorbing(srv.cell.status))
    && (srv.reader.ReadFailed? ==> srv.ends.broken)
    && (srv.ends.broken ==> srv.reader.ReadFailed? || (srv.reader.Stopped? && Absorbing(srv.cell.status)))
  }

  /** The handler has left the relay. */
  predicate Left(x: ProxyPc) {
    x.Leaving? || x.Unregistering? || x.Closing? || x.Finished?
  }

  /** The annotation is the payload of the close that ended the relay, and no other text is ever written. */
  ghost predicate NoteInv(srv: ServerSession) {
    && (srv.ends.ended.None? ==> srv.annotation == [] && !srv.proxy.Annotating?)
    && (srv.ends.ended.Some? ==>
          if srv.proxy.Annotating? then srv.annotation == [] && srv.proxy.note == srv.ends.ended.value
          else Left(srv.proxy) && srv.annotation == srv.ends.ended.value)
    && (forall n :: n in srv.told.notes ==> n == [] || n == srv.annotation)
  }

  /** The hub has dealt with the session's own request as far as the notice. */
  predicate OwnNoticed(h: HubPc, srv: ServerSession) {
    srv.member.ownRequest && !((h.HubRemoving? || h.HubUncalling? || h.HubNotifying?) && h.own)
  }

  /** The hub has dealt with the session's own request as far as the removal. */
  predicate OwnHandled(h: HubPc, srv: ServerSession) {
    srv.member.ownRequest && !(h.HubRemoving? && h.own)
  }

  /** As long as the write pump has not asked, only the session's own request removes it, with one notice. */
  predicate OwnInv(h: HubPc, srv: ServerSession) {
    && (Srv.Removed(h) && !h.own ==> srv.member.pumpRequests >= 1)
    && (srv.member.pumpRequests == 0 && srv.member.everStored && !OwnHandled(h, srv) ==> srv.member.stored)
    && (srv.member.pumpRequests == 0 && !OwnNoticed(h, srv) ==> srv.told.notes == [] && srv.told.closes == 0)
    && (srv.member.pumpRequests == 0 && OwnNoticed(h, srv) && !srv.protocol.Http? ==>
          if srv.told.closes == 0 then srv.told.notes == [srv.annotation]
          else srv.told.closes == 1 && srv.told.notes == [])
  }

  /** Every close on its way to the relay has been sent by the agent. */
  ghost predicate ReasonInv(l: Local) {
    var sent := l.agt.life.reasons;
    !l.srv.protocol.Http? ==>
      && (forall m :: m in l.sh.up && m.action == CLOSE_MESSAGE ==> m.payload in sent)
      && ((l.sh.inbound.InLooking? || l.sh.inbound.InDelivering?) && l.sh.inbound.m.action == CLOSE_MESSAGE ==>
            l.sh.inbound.m.payload in sent)
      && (l.srv.proxy.Holding? && l.srv.proxy.held.action == CLOSE_MESSAGE ==> l.srv.proxy.held.payload in sent)
      && (l.srv.ends.ended.Some? ==> l.srv.ends.ended.value in sent)
  }

  /** A connect request names the protocol of its session. */
  ghost predicate ProtocolInv(l: Local) {
    && (forall m :: m in l.sh.down && m.action == CONNECT_MESSAGE ==> m.protocol == l.srv.protocol)
    && (l.sh.pump.PumpWriting? && l.sh.pump.message.action == CONNECT_MESSAGE ==>
          l.sh.pump.message.protocol == l.srv.protocol)
  }

  ghost predicate Inv(l: Local) {
    && BlameInv(l.sh.pump, l.srv)
    && NoteInv(l.srv)
    && OwnInv(l.sh.hub, l.srv)
    && ReasonInv(l)
    && ProtocolInv(l)
  }

  lemma Initially(l: Local, protocol: Protocol)
    requires IsNew(l, protocol)
    ensures Inv(l)
  {
  }

  lemma Undisturbed(l: Local, sh': Shared)
    requires Inv(l) && Quiet(l.sh, sh')
    ensures Inv(l.(sh := sh'))
  {
  }

  /** What the other invariants contribute. */
  ghost predicate Known(s: SessionId, l: Local) {
    && Own(s, l.sh)
    && Srv.StatusInv(l.srv)
    && Srv.ControlInv(l.srv)
    && Srv.MapInv(l.sh.hub, l.sh.pump, l.srv)
    && Agt.KindInv(l)
    && Agt.FrameInv(l)
  }

  lemma ProxyPreserves(s: SessionId, a: ProxyAction, l: Local, l': Local)
    requires Known(s, l) && Inv(l) && ProxyStep(s, a, l, l')
    ensures Inv(l')
  {
  }

  lemma WriterPreserves(s: SessionId, a: WriterAction, l: Local, l': Local)
    requires Known(s, l) && Inv(l) && WriterStep(a, l, l')
    ensures Inv(l')
  {
  }

  lemma UpReaderPreserves(s: SessionId, a: UpReaderAction, l: Local, l': Local)
    requires Known(s, l) && Inv(l) && UpReaderStep(a, l, l')
    ensures Inv(l')
  {
  }

  lemma PumpPreserves(s: SessionId, a: PumpAction, l: Local, l': Local)
    requires Known(s, l) && Inv(l) && PumpStep(s, a, l, l')
    ensures Inv(l')
  {
  }

  lemma HubKeepsNotes(s: SessionId, a: HubAction, l: Local, l': Local)
    requires Known(s, l) && NoteInv(l.srv) && OwnInv(l.sh.hub, l.srv) && HubStep(s, a, l, l')
    ensures NoteInv(l'.srv) && OwnInv(l'.sh.hub, l'.srv)
  {
  }

  lemma HubKeepsRest(s: SessionId, a: HubAction, l: Local, l': Local)
    requires Known(s, l) && BlameInv(l.sh.pump, l.srv) && ReasonInv(l) && ProtocolInv(l) && HubStep(s, a, l, l')
    ensures BlameInv(l'.sh.pump, l'.srv) && ReasonInv(l') && ProtocolInv(l')
  {
  }

  lemma InboundPreserves(s: SessionId, a: InboundAction, l: Local, l': Local)
    requires Known(s, l) && Inv(l) && InboundStep(s, a, l, l')
    ensures Inv(l')
  {
  }

  lemma ReadKeepsReasons(s: SessionId, l: Local, l': Local)
    requires ReasonInv(l) && ProtocolInv(l) && ReadStep(s, l, l')
    ensures ReasonInv(l') && ProtocolInv(l')
  {
    assert forall m :: m in l'.sh.down ==> m in l.sh.down;
  }

  lemma ConnKeepsReasons(a: ConnAction, l: Local, l': Local)
    requires ReasonInv(l) && ProtocolInv(l) && ConnStep(a, l, l')
    ensures ReasonInv(l') && ProtocolInv(l')
  {
  }

  lemma AgentHubKeepsReasons(s: SessionId, a: AgentHubAction, l: Local, l': Local)
    requires ReasonInv(l) && ProtocolInv(l) && AgentHubStep(s, a, l, l')
    ensures ReasonInv(l') && ProtocolInv(l')
  {
  }

  lemma DataKeepsReasons(s: SessionId, i: nat, a: DataAction, l: Local, l': Local)
    requires ReasonInv(l) && ProtocolInv(l) && DataStep(s, i, a, l, l')
    ensures ReasonInv(l') && ProtocolInv(l')
  {
  }

  lemma TaskKeepsReasons(s: SessionId, a: TaskAction, l: Local, l': Local)
    requires Agt.KindInv(l) && ReasonInv(l) && ProtocolInv(l) && TaskStep(s, a, l, l')
    ensures ReasonInv(l') && ProtocolInv(l')
  {
  }

  lemma StreamKeepsReasons(s: SessionId, a: StreamAction, l: Local, l': Local)
    requires ReasonInv(l) && ProtocolInv(l) && StreamStep(s, a, l, l')
    ensures ReasonInv(l') && ProtocolInv(l')
  {
  }

  /** The agent's side only sends: what it sends as a close is recorded. */
  lemma AgentPreserves(s: SessionId, a: Action, l: Local, l': Local)
    requires Agt.KindInv(l) && Inv(l) && Step(s, a, l, l') && !ServerSide(a)
    ensures Inv(l')
  {
    AgentSideFrame(s, a, l, l');
    hide ReadStep, ConnStep, AgentHubStep, DataStep, TaskStep, StreamStep, ReasonInv, ProtocolInv, Agt.KindInv;
    match a
    case Read => ReadKeepsReasons(s, l, l');
    case Conn(c) => ConnKeepsReasons(c, l, l');
    case AgentHub(g) => AgentHubKeepsReasons(s, g, l, l');
    case Data(i, d) => DataKeepsReasons(s, i, d, l, l');
    case Task(k) => TaskKeepsReasons(s, k, l, l');
    case Stream(x) => StreamKeepsReasons(s, x, l, l');
  }

  lemma HubPreserves(s: SessionId, a: HubAction, l: Local, l': Local)
    requires Known(s, l) && Inv(l) && HubStep(s, a, l, l')
    ensures Inv(l')
  {
    hide BlameInv, NoteInv, OwnInv, ReasonInv, ProtocolInv, Known, HubStep;
    HubKeepsNotes(s, a, l, l');
    HubKeepsRest(s, a, l, l');
  }

  lemma Preserved(s: SessionId, a: Action, l: Local, l': Local)
    requires Own(s, l.sh) && Srv.Inv(s, l) && Agt.Inv(l) && Inv(l) && Step(s, a, l, l')
    ensures Inv(l')
  {
    hide ProxyStep, WriterStep, UpReaderStep, PumpStep, HubStep, InboundStep,
         ReadStep, ConnStep, AgentHubStep, DataStep, TaskStep, StreamStep, Inv;
    match a
    case Proxy(p) => ProxyPreserves(s, p, l, l');
    case Writer(w) => WriterPreserves(s, w, l, l');
    case UpReader(r) => UpReaderPreserves(s, r, l, l');
    case Pump(u) => PumpPreserves(s, u, l, l');
    case Hub(h) => HubPreserves(s, h, l, l');
    case Inbound(n) => InboundPreserves(s, n, l, l');
    case _ => AgentPreserves(s, a, l, l');
  }
}
