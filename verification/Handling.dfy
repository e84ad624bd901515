/**
 What a hub does for one request, and an upstream pump for one message, when it is not interrupted: the effect the
 methods are proved against, and the proof that the fine-grained steps of the machine amount to it.
 */
module Handling {
  import opened Protocol
  import opened Machine
  import Wires

  /** The callbacks to fire, the texts for the upstream, the messages for the agent, the end of the upstream channel. */
  datatype Effect = Effect(calls: seq<Callback>, notes: seq<Bytes>, closes: seq<TunnelMessage>, closesUpstream: bool)

  const NOTHING := Effect([], [], [], false)

  function RegisterEffect(id: SessionId, status: SessionStatus): Effect {
    NOTHING.(calls := if status.Connected? then [Registered(id)] else [])
  }

  function UnregisterEffect(id: SessionId, present: bool, protocol: Protocol, status: SessionStatus, annotation: Bytes)
    : Effect
  {
    if !present || protocol.Http? then NOTHING
    else if status.UpstreamClosed?
    then Effect([Unregistered(id)], [], [CloseFor(id, UPSTREAM_CLOSED_TEXT)], true)
    else Effect([Unregistered(id)], [annotation], [], true)
  }

  /** The effect on the session; `ok` says whether the write to the agent succeeds. */
  function Apply(e: Effect, srv: ServerSession, ok: bool): ServerSession {
    srv.(told := Told(srv.told.calls + e.calls, srv.told.notes + e.notes, srv.told.closes + |e.closes|),
         member := if e.closesUpstream then CloseUpstream(srv.member) else srv.member,
         traffic := srv.traffic.(lost := srv.traffic.lost + if ok then 0 else |e.closes|))
  }

  /** How many steps the hub is from idle, at most. */
  function Stage(h: HubPc): nat {
    match h
    case HubIdle => 0
    case HubStoring(_) => 3
    case HubChecking(_) => 2
    case HubCalling(_) => 1
    case HubRemoving(_, _) => 4
    case HubUncalling(_, _) => 3
    case HubNotifying(_, _) => 2
    case HubClosing(_, _) => 1
  }

  /** The hub goes from `l` until it is idle, and nothing else happens; a write to the agent succeeds if `ok`. */
  ghost predicate Handles(s: SessionId, ok: bool, l: Local, l': Local)
    decreases Stage(l.sh.hub)
  {
    if l.sh.hub.HubIdle? then l' == l
    else exists a, mid :: HubStep(s, a, l, mid) && (a.NotifyTeardown? ==> a.ok == ok) &&
                          Stage(mid.sh.hub) < Stage(l.sh.hub) && Handles(s, ok, mid, l')
  }

  lemma FirstStep(s: SessionId, ok: bool, l: Local, l': Local) returns (a: HubAction, mid: Local)
    requires Handles(s, ok, l, l') && !l.sh.hub.HubIdle?
    ensures HubStep(s, a, l, mid) && Handles(s, ok, mid, l') && (a.NotifyTeardown? ==> a.ok == ok)
  {
    a, mid :| HubStep(s, a, l, mid) && (a.NotifyTeardown? ==> a.ok == ok) &&
              Stage(mid.sh.hub) < Stage(l.sh.hub) && Handles(s, ok, mid, l');
  }

  function Stored(srv: ServerSession): ServerSession {
    srv.(member := srv.member.(stored := true, everStored := true))
  }

  function Removed(srv: ServerSession): ServerSession {
    srv.(member := srv.member.(stored := false, lateRemoval := srv.member.lateRemoval || srv.member.missPending))
  }

  lemma CallUninterrupted(s: SessionId, ok: bool, l: Local, l': Local)
    requires l.sh.hub == HubChecking(s) && Handles(s, ok, l, l')
    ensures l' == l.(sh := l.sh.(hub := HubIdle), srv := Apply(RegisterEffect(s, l.srv.cell.status), l.srv, ok))
  {
    var a, mid := FirstStep(s, ok, l, l');
    if !mid.sh.hub.HubIdle? {
      var b, done := FirstStep(s, ok, mid, l');
    }
  }

  /** A register request the hub handles in one go: store, then the callback if the session is connected. */
  lemma RegisterUninterrupted(s: SessionId, ok: bool, l: Local, l': Local)
    requires l.sh.hub == HubStoring(s) && Handles(s, ok, l, l')
    ensures l' == l.(sh := l.sh.(hub := HubIdle), srv := Apply(RegisterEffect(s, l.srv.cell.status), Stored(l.srv), ok))
  {
    hide Handles;
    var a, mid := FirstStep(s, ok, l, l');
    CallUninterrupted(s, ok, mid, l');
  }

  lemma IdleEnds(s: SessionId, ok: bool, l: Local, l': Local)
    requires l.sh.hub.HubIdle? && Handles(s, ok, l, l')
    ensures l' == l
  {
  }

  lemma TeardownUninterrupted(s: SessionId, own: bool, ok: bool, l: Local, l': Local)
    requires l.sh.hub == HubUncalling(s, own) && Handles(s, ok, l, l') && !l.srv.protocol.Http?
    ensures var e := UnregisterEffect(s, true, l.srv.protocol, l.srv.cell.status, l.srv.annotation);
            && l'.srv == Apply(e, l.srv, ok) && l'.agt == l.agt
            && l'.sh == l.sh.(hub := HubIdle, down := l.sh.down + if ok then e.closes else [])
  {
    hide Handles;
    var a, called := FirstStep(s, ok, l, l');
    var b, noticed := FirstStep(s, ok, called, l');
    var c, done := FirstStep(s, ok, noticed, l');
    IdleEnds(s, ok, done, l');
  }

  /** An unregister request: delete, the callback, one of the two notices, the close. */
  lemma UnregisterUninterrupted(s: SessionId, own: bool, ok: bool, l: Local, l': Local)
    requires l.sh.hub == HubRemoving(s, own) && Handles(s, ok, l, l')
    ensures var e := UnregisterEffect(s, l.srv.member.stored, l.srv.protocol, l.srv.cell.status, l.srv.annotation);
            && l'.srv == Apply(e, if l.srv.member.stored then Removed(l.srv) else l.srv, ok) && l'.agt == l.agt
            && l'.sh == l.sh.(hub := HubIdle, down := l.sh.down + if ok then e.closes else [])
  {
    hide Handles;
    var a, mid := FirstStep(s, ok, l, l');
    if mid.sh.hub.HubIdle? {
      IdleEnds(s, ok, mid, l');
    } else {
      TeardownUninterrupted(s, own, ok, mid, l');
    }
  }

  // ---------- the agent's hub ----------

  function EnrolEffect(id: SessionId): seq<TunnelMessage> {
    [TunnelMessage(id, Unset, CONNECT_MESSAGE, [])]
  }

  function WithdrawEffect(id: SessionId, status: SessionStatus, annotation: Bytes): seq<TunnelMessage> {
    if status.UpstreamClosed? then [] else [CloseFor(id, annotation)]
  }

  function AgentStage(h: AgentHubPc): nat {
    match h
    case AgentIdle => 0
    case AgentStoring(_) => 2
    case AgentAcking(_) => 1
    case AgentRemoving(_) => 4
    case AgentShutting(_) => 3
    case AgentDeciding(_) => 2
    case AgentNoticing(_) => 1
  }

  ghost predicate AgentHandles(s: SessionId, l: Local, l': Local)
    decreases AgentStage(l.sh.agentHub)
  {
    if l.sh.agentHub.AgentIdle? then l' == l
    else exists a, mid :: AgentHubStep(s, a, l, mid) && AgentStage(mid.sh.agentHub) < AgentStage(l.sh.agentHub) &&
                          AgentHandles(s, mid, l')
  }

  lemma AgentFirstStep(s: SessionId, l: Local, l': Local) returns (a: AgentHubAction, mid: Local)
    requires AgentHandles(s, l, l') && !l.sh.agentHub.AgentIdle?
    ensures AgentHubStep(s, a, l, mid) && AgentHandles(s, mid, l')
  {
    a, mid :| AgentHubStep(s, a, l, mid) && AgentStage(mid.sh.agentHub) < AgentStage(l.sh.agentHub) &&
              AgentHandles(s, mid, l');
  }

  lemma AgentEnds(s: SessionId, l: Local, l': Local)
    requires l.sh.agentHub.AgentIdle? && AgentHandles(s, l, l')
    ensures l' == l
  {
  }

  /** Store, then acknowledge. */
  lemma EnrolUninterrupted(s: SessionId, l: Local, l': Local)
    requires l.sh.agentHub == AgentStoring(s) && AgentHandles(s, l, l')
    ensures l'.sh == l.sh.(agentHub := AgentIdle, up := l.sh.up + EnrolEffect(s)) && l'.srv == l.srv
    ensures l'.agt == l.agt.(life := l.agt.life.(stored := true, stores := l.agt.life.stores + 1,
                                                 control := l.agt.life.control + [CONNECT_MESSAGE]))
  {
    hide AgentHandles;
    var a, mid := AgentFirstStep(s, l, l');
    var b, done := AgentFirstStep(s, mid, l');
    AgentEnds(s, done, l');
  }

  /** The record of the notice, if there is one. */
  function Noticed(life: Life): Life {
    if life.status.UpstreamClosed? then life
    else life.(control := life.control + [CLOSE_MESSAGE], reasons := life.reasons + [life.annotation])
  }

  lemma DecideUninterrupted(s: SessionId, l: Local, l': Local)
    requires l.sh.agentHub == AgentDeciding(s) && AgentHandles(s, l, l')
    ensures var life := l.agt.life;
            && l'.sh == l.sh.(agentHub := AgentIdle, up := l.sh.up + WithdrawEffect(s, life.status, life.annotation))
            && l'.srv == l.srv && l'.agt == l.agt.(life := Noticed(life))
  {
    hide AgentHandles;
    var a, decided := AgentFirstStep(s, l, l');
    if decided.sh.agentHub.AgentIdle? {
      AgentEnds(s, decided, l');
    } else {
      var b, done := AgentFirstStep(s, decided, l');
      AgentEnds(s, done, l');
    }
  }

  /** Delete and close, then notify unless it was the upstream that closed. */
  lemma WithdrawUninterrupted(s: SessionId, l: Local, l': Local)
    requires l.sh.agentHub == AgentRemoving(s) && AgentHandles(s, l, l')
    ensures var life := l.agt.life;
            && l'.sh == l.sh.(agentHub := AgentIdle, up := l.sh.up + WithdrawEffect(s, life.status, life.annotation))
            && l'.srv == l.srv
            && l'.agt == l.agt.(life := Noticed(life.(stored := false, removes := life.removes + Weight(life.stored),
                                                      closed := life.closed || life.stored)))
  {
    hide AgentHandles;
    var a, mid := AgentFirstStep(s, l, l');
    if l.agt.life.stored {
      var b, shut := AgentFirstStep(s, mid, l');
      DecideUninterrupted(s, shut, l');
    } else {
      DecideUninterrupted(s, mid, l');
    }
  }

  /** A downstream that cannot be opened is reported with the reason, and only that. */
  lemma FailedOpenIsReported(s: SessionId, error: Bytes, l: Local, failed: Local, taken: Local, l': Local)
    requires ConnStep(OpenDownstream(false, error), l, failed) && !l.agt.life.status.UpstreamClosed?
    requires AgentHubStep(s, AgentTakeUnregister, failed, taken) && AgentHandles(s, taken, l')
    ensures l'.sh == l.sh.(up := l.sh.up + [TunnelMessage(s, Unset, CLOSE_MESSAGE, error)])
  {
    hide AgentHandles;
    WithdrawUninterrupted(s, taken, l');
  }

  /** A downstream that ends is reported with its last error, unless the upstream has closed. */
  lemma EndIsReported(s: SessionId, cause: Bytes, l: Local, stopped: Local, failed: Local, taken: Local, l': Local)
    requires ConnStep(StopServing(Some(cause)), l, stopped) && ConnStep(SetFailed, stopped, failed)
    requires !l.agt.life.status.SessionClosed?
    requires AgentHubStep(s, AgentTakeUnregister, failed, taken) && AgentHandles(s, taken, l')
    ensures l'.sh == l.sh.(up := l.sh.up + if l.agt.life.status.UpstreamClosed? then []
                                           else [TunnelMessage(s, Unset, CLOSE_MESSAGE, cause)])
  {
    hide AgentHandles;
    WithdrawUninterrupted(s, taken, l');
  }

  // ---------- the upstream pumps ----------

  /** How many steps the write pump of the upstream is from its next message, at most. */
  function Digesting(p: ProxyPc): nat {
    if p.Holding? then 2 else if p.Promoting? || p.Annotating? then 1 else 0
  }

  /** The pump deals with the message it holds, and nothing else happens; a write to the upstream succeeds if `ok`. */
  ghost predicate Digests(ok: bool, l: Local, l': Local)
    decreases Digesting(l.srv.proxy)
  {
    if Digesting(l.srv.proxy) == 0 then l' == l
    else exists a, mid :: WriterStep(a, l, mid) && (a.WriteFrame? ==> a.ok == ok) &&
                          Digesting(mid.srv.proxy) < Digesting(l.srv.proxy) && Digests(ok, mid, l')
  }

  lemma FirstBite(ok: bool, l: Local, l': Local) returns (a: WriterAction, mid: Local)
    requires Digests(ok, l, l') && Digesting(l.srv.proxy) > 0
    ensures WriterStep(a, l, mid) && Digests(ok, mid, l') && (a.WriteFrame? ==> a.ok == ok)
    ensures Digesting(mid.srv.proxy) < Digesting(l.srv.proxy)
  {
    a, mid :| WriterStep(a, l, mid) && (a.WriteFrame? ==> a.ok == ok) &&
              Digesting(mid.srv.proxy) < Digesting(l.srv.proxy) && Digests(ok, mid, l');
  }

  lemma NothingToDigest(ok: bool, l: Local, l': Local)
    requires Digesting(l.srv.proxy) == 0 && Digests(ok, l, l')
    ensures l' == l
  {
  }

  /** Where the write pump is after one message: it leaves, asks the hub to register, or waits for the next. */
  function Onward(q: Wires.Progress): ProxyPc {
    if !q.goesOn then Leaving else if q.registers == 1 then Confirming else Relaying
  }

  /** What the steps for one message from the agent make of status, annotation and upstream. */
  lemma MessageUninterrupted(ok: bool, l: Local, l': Local)
    requires l.srv.proxy.Holding? && Digests(ok, l, l')
    ensures var srv, srv' := l.srv, l'.srv;
            var wire := Wires.Wire(Wires.Binaries(srv.relay.frames), if ok then 1 else 0);
            var q := Wires.Once(Wires.Progress(srv.cell, srv.annotation, wire, true, 0), srv.proxy.held);
            && srv'.cell == q.cell && srv'.annotation == q.annotation && srv'.proxy == Onward(q)
            && Wires.Binaries(srv'.relay.frames) == q.wire.frames
            && srv'.member == srv.member && l'.sh == l.sh && l'.agt == l.agt
  {
    hide Digests;
    var a, mid := FirstBite(ok, l, l');
    if Digesting(mid.srv.proxy) > 0 {
      var b, done := FirstBite(ok, mid, l');
      NothingToDigest(ok, done, l');
    } else {
      NothingToDigest(ok, mid, l');
      Wires.BinariesAppend(l.srv.relay.frames, [l.srv.proxy.held.payload]);
    }
  }

  /** A frame of the upstream is handed on as the object's read pump forwards it, or not at all. */
  lemma FrameUninterrupted(s: SessionId, l: Local, checked: Local, taken: Local)
    requires l.srv.reader.Got? && UpReaderStep(CheckStatus, l, checked)
    ensures var frame := Wires.Input(l.srv.reader.kind, l.srv.reader.frame);
            var out := Wires.Forwarded(s, l.srv.cell, [Wires.Takes(frame)]);
            && (out == [] ==> checked.srv.reader.Reading?)
            && (PumpStep(s, TakeFrame, checked, taken) ==> out == [taken.sh.pump.message])
  {
    Wires.OneRead(s, l.srv.cell, Wires.Takes(Wires.Input(l.srv.reader.kind, l.srv.reader.frame)));
  }
}
