/**
 What one session sees of the shared part: the goroutines that work for it and its own messages on the wires.
 A step for a session is a step on what that session sees; every other session sees nothing, or sees the agent's
 write pump go away.
 */
module Projection {
  import opened Protocol
  import opened Machine

  /** The messages of session `s`, in order. */
  function Only(q: seq<TunnelMessage>, s: SessionId): seq<TunnelMessage> {
    if q == [] then []
    else Only(q[..|q| - 1], s) + if q[|q| - 1].session == s then [q[|q| - 1]] else []
  }

  lemma OnlyAppend(q: seq<TunnelMessage>, m: TunnelMessage, s: SessionId)
    ensures Only(q + [m], s) == Only(q, s) + if m.session == s then [m] else []
  {
    assert (q + [m])[..|q|] == q;
  }

  lemma {:induction false} OnlyPop(q: seq<TunnelMessage>, s: SessionId)
    requires |q| > 0
    ensures Only(q, s) == (if q[0].session == s then [q[0]] else []) + Only(q[1..], s)
  {
    var init := q[..|q| - 1];
    if |q| == 1 {
      assert init == [] && q[1..] == [];
    } else {
      OnlyPop(init, s);
      assert q[1..][..|q| - 2] == init[1..];
    }
  }

  lemma {:induction false} OnlyMembers(q: seq<TunnelMessage>, s: SessionId)
    ensures forall m :: m in Only(q, s) <==> m in q && m.session == s
  {
    if q != [] {
      OnlyMembers(q[..|q| - 1], s);
      assert q == q[..|q| - 1] + [q[|q| - 1]];
    }
  }

  function SeeHub(h: HubPc, s: SessionId): HubPc {
    if h.HubIdle? || h.of == s then h else HubIdle
  }

  function SeePump(p: PumpPc, s: SessionId): PumpPc {
    match p
    case PumpWriting(m) => if m.session == s then p else PumpWaiting
    case PumpLooking(id) => if id == s then p else PumpWaiting
    case PumpMarking(id) => if id == s then p else PumpWaiting
    case PumpReporting(id) => if id == s then p else PumpWaiting
    case _ => p
  }

  function SeeInbound(i: InboundPc, s: SessionId): InboundPc {
    if i.InReading? || i.m.session == s then i else InReading
  }

  function SeeAgentHub(h: AgentHubPc, s: SessionId): AgentHubPc {
    if h.AgentIdle? || h.sid == s then h else AgentIdle
  }

  function See(sh: Shared, s: SessionId): Shared {
    Shared(SeeHub(sh.hub, s), SeePump(sh.pump, s), SeeInbound(sh.inbound, s), SeeAgentHub(sh.agentHub, s),
           Only(sh.down, s), Only(sh.up, s))
  }

  function Project(l: Local, s: SessionId): Local {
    l.(sh := See(l.sh, s))
  }

  /** All that a session can notice of a step made for another session. */
  predicate Quiet(before: Shared, after: Shared) {
    after == before || (before.pump.PumpWaiting? && after == before.(pump := PumpExited))
  }

  /** Appending to or popping from a wire, as seen by two sessions. */
  lemma Append(q: seq<TunnelMessage>, m: TunnelMessage, s: SessionId, t: SessionId)
    ensures Only(q + [m], s) == Only(q, s) + if m.session == s then [m] else []
    ensures Only(q + [m], t) == Only(q, t) + if m.session == t then [m] else []
  {
    OnlyAppend(q, m, s);
    OnlyAppend(q, m, t);
  }

  lemma Pop(q: seq<TunnelMessage>, s: SessionId, t: SessionId)
    requires |q| > 0 && q[0].session == s
    ensures |Only(q, s)| > 0 && Only(q, s)[0] == q[0] && Only(q, s)[1..] == Only(q[1..], s)
    ensures t != s ==> Only(q, t) == Only(q[1..], t)
  {
    OnlyPop(q, s);
    OnlyPop(q, t);
  }

  lemma ProxyProjects(s: SessionId, a: ProxyAction, l: Local, l': Local, t: SessionId)
    requires ProxyStep(s, a, l, l')
    ensures ProxyStep(s, a, Project(l, s), Project(l', s))
    ensures t != s ==> Quiet(See(l.sh, t), See(l'.sh, t))
  {
    match a
    case WriteConnect =>
      Append(l.sh.down, TunnelMessage(s, l.srv.protocol, CONNECT_MESSAGE, []), s, t);
    case _ =>
  }

  lemma PumpProjects(s: SessionId, a: PumpAction, l: Local, l': Local, t: SessionId)
    requires PumpStep(s, a, l, l')
    ensures PumpStep(s, a, Project(l, s), Project(l', s))
    ensures t != s ==> Quiet(See(l.sh, t), See(l'.sh, t))
  {
    hide Only;
    match a
    case TakeFrame =>
    case TakeRequest =>
    case WriteMessage(ok) =>
      Append(l.sh.down, l.sh.pump.message, s, t);
    case PumpLookUp =>
    case PumpMark =>
    case PumpQuit =>
  }

  lemma HubProjects(s: SessionId, a: HubAction, l: Local, l': Local, t: SessionId)
    requires HubStep(s, a, l, l')
    ensures HubStep(s, a, Project(l, s), Project(l', s))
    ensures t != s ==> Quiet(See(l.sh, t), See(l'.sh, t))
  {
    match a
    case NotifyTeardown(ok) =>
      Append(l.sh.down, CloseFor(s, UPSTREAM_CLOSED_TEXT), s, t);
    case TakeRegister =>
    case TakeOwnUnregister =>
    case TakePumpUnregister =>
    case _ =>
  }

  lemma InboundProjects(s: SessionId, a: InboundAction, l: Local, l': Local, t: SessionId)
    requires InboundStep(s, a, l, l')
    ensures InboundStep(s, a, Project(l, s), Project(l', s))
    ensures t != s ==> Quiet(See(l.sh, t), See(l'.sh, t))
  {
    match a
    case Receive =>
      Pop(l.sh.up, s, t);
    case LookUpTarget =>
    case Deliver =>
    case Bounce(ok) =>
      Append(l.sh.down, l.sh.inbound.m, s, t);
  }

  lemma ReadProjects(s: SessionId, l: Local, l': Local, t: SessionId)
    requires ReadStep(s, l, l')
    ensures ReadStep(s, Project(l, s), Project(l', s))
    ensures t != s ==> Quiet(See(l.sh, t), See(l'.sh, t))
  {
    Pop(l.sh.down, s, t);
  }

  lemma AgentHubProjects(s: SessionId, a: AgentHubAction, l: Local, l': Local, t: SessionId)
    requires AgentHubStep(s, a, l, l')
    ensures AgentHubStep(s, a, Project(l, s), Project(l', s))
    ensures t != s ==> Quiet(See(l.sh, t), See(l'.sh, t))
  {
    match a
    case AgentAck =>
      Append(l.sh.up, TunnelMessage(s, Unset, CONNECT_MESSAGE, []), s, t);
    case AgentNotice =>
      Append(l.sh.up, CloseFor(s, l.agt.life.annotation), s, t);
    case _ =>
  }

  lemma DataProjects(s: SessionId, i: nat, a: DataAction, l: Local, l': Local, t: SessionId)
    requires DataStep(s, i, a, l, l')
    ensures DataStep(s, i, a, Project(l, s), Project(l', s))
    ensures t != s ==> Quiet(See(l.sh, t), See(l'.sh, t))
  {
    Append(l.sh.up, CloseFor(s, []), s, t);
  }

  lemma TaskProjects(s: SessionId, a: TaskAction, l: Local, l': Local, t: SessionId)
    requires TaskStep(s, a, l, l')
    ensures TaskStep(s, a, Project(l, s), Project(l', s))
    ensures t != s ==> Quiet(See(l.sh, t), See(l'.sh, t))
  {
    match a
    case HttpAnswer(i, body) =>
      Append(l.sh.up, TunnelMessage(s, Http, l.agt.https[i].action, body), s, t);
    case _ =>
  }

  lemma StreamProjects(s: SessionId, a: StreamAction, l: Local, l': Local, t: SessionId)
    requires StreamStep(s, a, l, l')
    ensures StreamStep(s, a, Project(l, s), Project(l', s))
    ensures t != s ==> Quiet(See(l.sh, t), See(l'.sh, t))
  {
    match a
    case SendChunk =>
      Append(l.sh.up, TunnelMessage(s, Unset, BINARY_MESSAGE, l.agt.outflow.hand.value), s, t);
    case _ =>
  }

  /** Interleaving is invisible to the session that moves: it makes the same step on its own part. */
  lemma StepProjects(s: SessionId, a: Action, l: Local, l': Local, t: SessionId)
    requires Step(s, a, l, l')
    ensures Step(s, a, Project(l, s), Project(l', s))
    ensures t != s ==> Quiet(See(l.sh, t), See(l'.sh, t))
  {
    match a
    case Proxy(p) => ProxyProjects(s, p, l, l', t);
    case Writer(w) =>
    case UpReader(r) =>
    case Pump(u) => PumpProjects(s, u, l, l', t);
    case Hub(h) => HubProjects(s, h, l, l', t);
    case Inbound(n) => InboundProjects(s, n, l, l', t);
    case Read => ReadProjects(s, l, l', t);
    case Conn(c) =>
    case AgentHub(g) => AgentHubProjects(s, g, l, l', t);
    case Data(i, d) => DataProjects(s, i, d, l, l', t);
    case Task(k) => TaskProjects(s, k, l, l', t);
    case Stream(x) => StreamProjects(s, x, l, l', t);
  }

  /** Everything in the shared part belongs to session `s`. */
  predicate Own(s: SessionId, sh: Shared) {
    && (sh.hub.HubIdle? || sh.hub.of == s)
    && SeePump(sh.pump, s) == sh.pump
    && (sh.inbound.InReading? || sh.inbound.m.session == s)
    && (sh.agentHub.AgentIdle? || sh.agentHub.sid == s)
    && (forall m :: m in sh.down ==> m.session == s)
    && (forall m :: m in sh.up ==> m.session == s)
  }

  lemma SeeOwns(sh: Shared, s: SessionId)
    ensures Own(s, See(sh, s))
  {
    OnlyMembers(sh.down, s);
    OnlyMembers(sh.up, s);
  }
}
