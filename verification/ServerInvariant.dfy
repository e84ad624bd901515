/** What the server keeps for one session, however its goroutines, the hub and the agent's pumps interleave. */
module ServerInvariant {
  import opened Protocol
  import opened Machine
  import opened Projection

  /** Connecting, then perhaps Connected, then perhaps one of the two closed states, for good. */
  predicate StatusHistory(log: seq<SessionStatus>) {
    && 1 <= |log| <= 3
    && log[0].Connecting?
    && (|log| == 2 ==> log[1].Connected? || SideClosed(log[1]))
    && (|log| == 3 ==> log[1].Connected? && SideClosed(log[2]))
  }

  predicate SideClosed(status: SessionStatus) {
    status.UpstreamClosed? || status.DownstreamClosed?
  }

  predicate WasConnected(log: seq<SessionStatus>) {
    |log| >= 2 && log[1].Connected?
  }

  predicate StatusInv(srv: ServerSession) {
    && StatusHistory(srv.cell.log)
    && srv.cell.status == srv.cell.log[|srv.cell.log| - 1]
    && (srv.proxy.Promoting? ==> !srv.cell.status.Connected?)
    && (srv.member.registers == 2 || srv.proxy.Confirming? ==> !srv.cell.status.Connecting?)
    && (srv.protocol.Http? ==> !srv.cell.status.Connected?)
    && (srv.reader.Forwarding? ==> WasConnected(srv.cell.log))
  }

  /** The program counters that belong to the two kinds of session, and what each implies. */
  predicate ControlInv(srv: ServerSession) {
    && (srv.proxy.Start? || srv.proxy.Preparing? || srv.proxy.Announcing? ==>
          srv.member.registers == 0 && srv.reader.NotStarted?)
    && (srv.proxy.Requesting? || srv.proxy.Awaiting? ==> srv.protocol.Http? && srv.member.registers == 1)
    && (srv.proxy.Promoting? || srv.proxy.Confirming? ==> !srv.protocol.Http? && srv.member.registers == 1)
    && (srv.proxy.Preparing? || srv.proxy.Relaying? || srv.proxy.Holding? || srv.proxy.Annotating? ==>
          !srv.protocol.Http?)
    && (srv.proxy.Relaying? || srv.proxy.Holding? ==> srv.member.registers >= 1)
    && srv.member.registers <= 2
    && (srv.protocol.Http? ==> srv.member.registers <= 1 && srv.reader.NotStarted?)
    && (!srv.proxy.Start? && srv.member.registers >= 1 ==> srv.agentSet)
    && (srv.proxy.Preparing? || srv.proxy.Announcing? ==> srv.agentSet)
  }

  /** The hub is between taking the session off the map and closing its upstream. */
  predicate Removed(h: HubPc) {
    h.HubUncalling? || h.HubNotifying? || h.HubClosing?
  }

  /** The hub is handling a register request. */
  predicate Registering(h: HubPc) {
    h.HubStoring? || h.HubChecking? || h.HubCalling?
  }

  /** Membership of Hub.Sessions, and the closing of the upstream channel. */
  predicate MapInv(h: HubPc, pump: PumpPc, srv: ServerSession) {
    && srv.member.closes == Weight(srv.member.isClosed)
    && (srv.member.everStored && !srv.member.stored && !Removed(h) && !srv.protocol.Http? ==> srv.member.isClosed)
    && (Removed(h) ==> !srv.member.stored && srv.member.everStored && !srv.protocol.Http?)
    && (srv.member.stored ==> srv.member.everStored)
    && (srv.member.everStored || Registering(h) ==> srv.member.registers >= 1)
    && (srv.member.registers >= 1 && !srv.member.everStored ==> h.HubStoring?)
    && (h.HubChecking? || h.HubCalling? ==> srv.member.stored)
    && (srv.proxy.Unregistering? || srv.member.ownRequest ==> srv.member.everStored)
    && (srv.member.ownRequest ==> !Registering(h))
    && (srv.member.ownRequest ==> srv.proxy.Finished?)
    && (h.HubRemoving? && h.own ==> srv.member.ownRequest)
    && (Removed(h) && h.own ==> srv.member.ownRequest)
    && (h.HubRemoving? ==> srv.member.everStored)
    && (srv.member.ownRequest && !(h.HubRemoving? && h.own) ==> !srv.member.stored)
    && (srv.proxy.Finished? && !srv.member.ownRequest ==> srv.member.isClosed)
    && (srv.protocol.Http? && srv.member.isClosed ==> srv.proxy.Finished? && !srv.member.ownRequest)
    && (pump.PumpMarking? || pump.PumpReporting? ==> srv.member.everStored)
    && srv.member.pumpRequests <= 1
    && (srv.member.pumpRequests == 1 ==> pump.PumpExited?)
    && (h.HubRemoving? && !h.own ==> srv.member.pumpRequests == 1)
  }

  /** The deferred lookup that comes too early leaves the session behind, and nothing else does. */
  predicate LeakInv(h: HubPc, srv: ServerSession) {
    && (srv.member.missPending ==> (srv.proxy.Closing? || srv.proxy.Finished?) && !srv.member.ownRequest)
    && (srv.member.lateRemoval ==> srv.member.missPending)
    && ((srv.proxy.Closing? || srv.proxy.Finished?) && !srv.member.ownRequest && !srv.member.missPending ==>
          !srv.member.stored && !Registering(h))
    && (srv.member.missPending && !srv.member.lateRemoval ==> srv.member.stored || h.HubStoring?)
    && (srv.member.lateRemoval ==> !srv.member.stored && !Registering(h))
  }

  ghost predicate Quietened(calls: seq<Callback>) {
    forall i, j :: 0 <= i < j < |calls| && calls[i].Unregistered? ==> calls[j].Unregistered?
  }

  ghost predicate CallInv(s: SessionId, h: HubPc, pump: PumpPc, srv: ServerSession) {
    && Quietened(srv.told.calls)
    && (forall c :: c in srv.told.calls ==> c.id == s)
    && (srv.protocol.Http? ==> |srv.told.calls| == 0)
    && (h.HubCalling? || Registered(s) in srv.told.calls ==> WasConnected(srv.cell.log))
    && (h.HubCalling? ==> Unregistered(s) !in srv.told.calls && !srv.protocol.Http?)
    && (pump.PumpReporting? ==> Absorbing(srv.cell.status))
    && ((h.HubRemoving? || Removed(h)) && !h.own ==> Absorbing(srv.cell.status))
    && (Unregistered(s) in srv.told.calls ==> Absorbing(srv.cell.status) || srv.member.ownRequest)
  }

  /** The hub has told one side, and which. */
  predicate TeardownInv(h: HubPc, srv: ServerSession) {
    && (srv.told.notes == [] || srv.told.closes == 0)
    && (srv.member.everStored && !srv.member.stored && !h.HubUncalling? && !h.HubNotifying? && !srv.protocol.Http? ==>
          srv.told.notes != [] || srv.told.closes > 0)
    && (srv.told.closes > 0 ==> srv.cell.status.UpstreamClosed? && !srv.protocol.Http?)
    && (|srv.told.notes| > 0 ==>
          srv.cell.status.DownstreamClosed? ||
          (srv.member.ownRequest && !(h.HubRemoving? && h.own) && !h.HubUncalling? && !h.HubNotifying?))
  }

  ghost predicate Inv(s: SessionId, l: Local) {
    && StatusInv(l.srv)
    && ControlInv(l.srv)
    && MapInv(l.sh.hub, l.sh.pump, l.srv)
    && LeakInv(l.sh.hub, l.srv)
    && CallInv(s, l.sh.hub, l.sh.pump, l.srv)
    && TeardownInv(l.sh.hub, l.srv)
  }

  lemma Initially(s: SessionId, l: Local, protocol: Protocol)
    requires IsNew(l, protocol)
    ensures Inv(s, l)
  {
  }

  lemma Undisturbed(s: SessionId, l: Local, sh': Shared)
    requires Inv(s, l) && Quiet(l.sh, sh')
    ensures Inv(s, l.(sh := sh'))
  {
  }

  lemma HubKeepsControl(s: SessionId, a: HubAction, l: Local, l': Local)
    requires Own(s, l.sh) && Inv(s, l) && HubStep(s, a, l, l')
    ensures ControlInv(l'.srv)
  {
  }

  lemma HubKeepsStatus(s: SessionId, a: HubAction, l: Local, l': Local)
    requires Own(s, l.sh) && Inv(s, l) && HubStep(s, a, l, l')
    ensures StatusInv(l'.srv)
  {
  }

  lemma HubKeepsMap(s: SessionId, a: HubAction, l: Local, l': Local)
    requires Own(s, l.sh) && Inv(s, l) && HubStep(s, a, l, l')
    ensures MapInv(l'.sh.hub, l'.sh.pump, l'.srv) && LeakInv(l'.sh.hub, l'.srv)
  {
  }

  lemma HubKeepsCall(s: SessionId, a: HubAction, l: Local, l': Local)
    requires Own(s, l.sh) && Inv(s, l) && HubStep(s, a, l, l')
    ensures CallInv(s, l'.sh.hub, l'.sh.pump, l'.srv) && TeardownInv(l'.sh.hub, l'.srv)
  {
  }

  lemma ProxyPreserves(s: SessionId, a: ProxyAction, l: Local, l': Local)
    requires Own(s, l.sh) && Inv(s, l) && ProxyStep(s, a, l, l')
    ensures Inv(s, l')
  {
  }

  lemma WriterKeepsStatus(a: WriterAction, l: Local, l': Local)
    requires StatusInv(l.srv) && ControlInv(l.srv) && WriterStep(a, l, l')
    ensures StatusInv(l'.srv) && ControlInv(l'.srv)
  {
  }

  lemma WriterKeepsMap(s: SessionId, a: WriterAction, l: Local, l': Local)
    requires Own(s, l.sh) && Inv(s, l) && WriterStep(a, l, l')
    ensures MapInv(l'.sh.hub, l'.sh.pump, l'.srv) && LeakInv(l'.sh.hub, l'.srv)
    ensures CallInv(s, l'.sh.hub, l'.sh.pump, l'.srv) && TeardownInv(l'.sh.hub, l'.srv)
  {
  }

  lemma UpReaderPreserves(s: SessionId, a: UpReaderAction, l: Local, l': Local)
    requires Own(s, l.sh) && Inv(s, l) && UpReaderStep(a, l, l')
    ensures Inv(s, l')
  {
  }

  lemma PumpPreserves(s: SessionId, a: PumpAction, l: Local, l': Local)
    requires Own(s, l.sh) && Inv(s, l) && PumpStep(s, a, l, l')
    ensures Inv(s, l')
  {
  }

  lemma InboundKeepsRest(s: SessionId, a: InboundAction, l: Local, l': Local)
    requires InboundStep(s, a, l, l')
    ensures l'.sh.hub == l.sh.hub && l'.sh.pump == l.sh.pump
    ensures l'.srv.member == l.srv.member && l'.srv.told == l.srv.told && l'.srv.cell == l.srv.cell
    ensures l'.srv.reader == l.srv.reader && l'.srv.protocol == l.srv.protocol && l'.srv.agentSet == l.srv.agentSet
    ensures l'.srv.proxy == l.srv.proxy || (l.srv.proxy.Relaying? && l'.srv.proxy.Holding?) ||
            (l.srv.proxy.Awaiting? && l'.srv.proxy.Leaving?)
  {
  }

  lemma InboundPreserves(s: SessionId, a: InboundAction, l: Local, l': Local)
    requires Own(s, l.sh) && Inv(s, l) && InboundStep(s, a, l, l')
    ensures Inv(s, l')
  {
    hide InboundStep, Quietened;
    InboundKeepsRest(s, a, l, l');
  }

  lemma Preserved(s: SessionId, a: Action, l: Local, l': Local)
    requires Own(s, l.sh) && Inv(s, l) && Step(s, a, l, l')
    ensures Inv(s, l')
  {
    match a
    case Proxy(p) => ProxyPreserves(s, p, l, l');
    case Writer(w) =>
      WriterKeepsStatus(w, l, l');
      WriterKeepsMap(s, w, l, l');
    case UpReader(r) => UpReaderPreserves(s, r, l, l');
    case Pump(u) => PumpPreserves(s, u, l, l');
    case Hub(h) =>
      HubKeepsControl(s, h, l, l');
      HubKeepsStatus(s, h, l, l');
      HubKeepsMap(s, h, l, l');
      HubKeepsCall(s, h, l, l');
    case Inbound(n) => InboundPreserves(s, n, l, l');
    case _ => AgentSideFrame(s, a, l, l');
  }
}
