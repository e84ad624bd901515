/**
 HTTP sessions: one request, one answer, and an answer that comes too late is bounced once and absorbed.
 */
module HttpExchange {
  import opened Protocol
  import opened Machine
  import opened Projection
  import opened Queues
  import Srv = ServerInvariant
  import Agt = AgentInvariant

  /** How many of the agent's HTTP goroutines got a request. */
  function Requests(tasks: seq<HttpTask>): nat {
    if tasks == [] then 0
    else Requests(tasks[..|tasks| - 1]) + Weight(tasks[|tasks| - 1].action == CONNECT_MESSAGE)
  }

  /** How many of those have sent their answer. */
  function Answered(tasks: seq<HttpTask>): nat {
    if tasks == [] then 0
    else Answered(tasks[..|tasks| - 1]) +
         Weight(tasks[|tasks| - 1].action == CONNECT_MESSAGE && tasks[|tasks| - 1].answered)
  }

  lemma TasksAppend(tasks: seq<HttpTask>, task: HttpTask)
    ensures Requests(tasks + [task]) == Requests(tasks) + Weight(task.action == CONNECT_MESSAGE)
    ensures Answered(tasks + [task]) == Answered(tasks) + Weight(task.action == CONNECT_MESSAGE && task.answered)
  {
    assert (tasks + [task])[..|tasks|] == tasks;
  }

  lemma {:induction false} TaskAnswers(tasks: seq<HttpTask>, i: nat)
    requires i < |tasks| && !tasks[i].answered && tasks[i].action == CONNECT_MESSAGE
    ensures Requests(tasks[i := tasks[i].(answered := true)]) == Requests(tasks)
    ensures Answered(tasks[i := tasks[i].(answered := true)]) == Answered(tasks) + 1
  {
    var tasks' := tasks[i := tasks[i].(answered := true)];
    if i == |tasks| - 1 {
      assert tasks'[..|tasks| - 1] == tasks[..|tasks| - 1];
    } else {
      assert tasks'[..|tasks| - 1] == tasks[..|tasks| - 1][i := tasks[i].(answered := true)];
      TaskAnswers(tasks[..|tasks| - 1], i);
    }
  }

  lemma {:induction false} AnsweredWithinRequests(tasks: seq<HttpTask>)
    ensures Answered(tasks) <= Requests(tasks) <= |tasks|
  {
    if tasks != [] {
      AnsweredWithinRequests(tasks[..|tasks| - 1]);
    }
  }

  /** The write pump has the request, or has failed to write it and is telling the hub. */
  predicate PumpBusy(pump: PumpPc) {
    pump.PumpWriting? || pump.PumpLooking? || pump.PumpMarking? || pump.PumpReporting?
  }

  /** The request exists at most once, whoever holds it or has lost it. */
  ghost predicate RequestOnce(x: ProxyPc, pump: PumpPc, lost: nat, down: seq<TunnelMessage>, tasks: seq<HttpTask>) {
    && Weight(x.Start? || x.Announcing? || x.Requesting?) + Weight(PumpBusy(pump)) + lost
       + Count(down, CONNECT_MESSAGE) + Requests(tasks) <= 1
    && (pump.PumpWriting? ==> pump.message.action == CONNECT_MESSAGE)
    && (forall m :: m in down ==> m.action == CONNECT_MESSAGE || m.action == CLOSE_MESSAGE)
    && (forall i :: 0 <= i < |tasks| && tasks[i].action != CONNECT_MESSAGE ==> tasks[i].answered)
  }

  /** Every answer is on its way, consumed, or has become one close on its way back or absorbed. */
  predicate AnswerOnce(l: Local) {
    && |l.agt.answers| == Answered(l.agt.https)
    && |l.sh.up| + Weight(!l.sh.inbound.InReading?) + |l.srv.relay.replies|
       + Count(l.sh.down, CLOSE_MESSAGE) + (|l.agt.https| - Requests(l.agt.https)) <= |l.agt.answers|
  }

  /** An answer goes up under the session's id and with the body it was given. */
  lemma AnswerCarriesBody(s: SessionId, i: nat, body: Bytes, l: Local, l': Local)
    requires TaskStep(s, HttpAnswer(i, body), l, l')
    ensures l'.sh.up == l.sh.up + [TunnelMessage(s, Http, l.agt.https[i].action, body)]
    ensures l'.agt.answers == l.agt.answers + [body]
  {
  }

  /** What travels up and what the handler consumes are bodies the agent has answered with. */
  ghost predicate SameBodies(l: Local) {
    && (forall m :: m in l.sh.up ==> m.payload in l.agt.answers)
    && (!l.sh.inbound.InReading? ==> l.sh.inbound.m.payload in l.agt.answers)
    && (forall r :: r in l.srv.relay.replies ==> r in l.agt.answers)
  }

  ghost predicate Inv(l: Local) {
    if l.srv.protocol.Http?
    then
      && RequestOnce(l.srv.proxy, l.sh.pump, l.srv.member.pumpRequests, l.sh.down, l.agt.https)
      && AnswerOnce(l)
      && SameBodies(l)
      && (l.sh.inbound.InDelivering? && !l.srv.member.ownRequest ==> l.srv.member.stored)
    else l.srv.relay.replies == [] && l.agt.answers == []
  }

  /** What the other invariants contribute. */
  ghost predicate Known(s: SessionId, l: Local) {
    && Own(s, l.sh)
    && Srv.ControlInv(l.srv)
    && Srv.MapInv(l.sh.hub, l.sh.pump, l.srv)
    && Agt.KindInv(l)
    && Agt.FrameInv(l)
    && Agt.EarlyInv(l.agt)
  }

  lemma Initially(l: Local, protocol: Protocol)
    requires IsNew(l, protocol)
    ensures Inv(l)
  {
  }

  lemma Undisturbed(l: Local, sh': Shared)
    requires Inv(l) && Quiet(l.sh, sh')
    ensures Inv(l.(sh := sh'))
  {
  }

  lemma ProxyPreserves(s: SessionId, a: ProxyAction, l: Local, l': Local)
    requires Known(s, l) && Inv(l) && ProxyStep(s, a, l, l')
    ensures Inv(l')
  {
  }

  lemma WriterPreserves(s: SessionId, a: WriterAction, l: Local, l': Local)
    requires Known(s, l) && Inv(l) && WriterStep(a, l, l')
    ensures Inv(l')
  {
  }

  lemma UpReaderPreserves(s: SessionId, a: UpReaderAction, l: Local, l': Local)
    requires Known(s, l) && Inv(l) && UpReaderStep(a, l, l')
    ensures Inv(l')
  {
  }

  lemma PumpPreserves(s: SessionId, a: PumpAction, l: Local, l': Local)
    requires Known(s, l) && Inv(l) && PumpStep(s, a, l, l')
    ensures Inv(l')
  {
    if l.sh.pump.PumpWriting? {
      CountAppend(l.sh.down, l.sh.pump.message, CONNECT_MESSAGE);
      CountAppend(l.sh.down, l.sh.pump.message, CLOSE_MESSAGE);
    }
  }

  lemma HubPreserves(s: SessionId, a: HubAction, l: Local, l': Local)
    requires Known(s, l) && Inv(l) && HubStep(s, a, l, l')
    ensures Inv(l')
  {
    AnsweredWithinRequests(l.agt.https);
  }

  lemma InboundPreserves(s: SessionId, a: InboundAction, l: Local, l': Local)
    requires Known(s, l) && Inv(l) && InboundStep(s, a, l, l')
    ensures Inv(l')
  {
    if a.Bounce? {
      CountAppend(l.sh.down, l.sh.inbound.m, CONNECT_MESSAGE);
      CountAppend(l.sh.down, l.sh.inbound.m, CLOSE_MESSAGE);
    }
  }

  lemma ReadPreserves(s: SessionId, l: Local, l': Local)
    requires Known(s, l) && Inv(l) && ReadStep(s, l, l')
    ensures Inv(l')
  {
    var m := l.sh.down[0];
    CountPop(l.sh.down, CONNECT_MESSAGE);
    CountPop(l.sh.down, CLOSE_MESSAGE);
    TasksAppend(l.agt.https, HttpTask(m.action, m.action != CONNECT_MESSAGE));
  }

  lemma ConnPreserves(s: SessionId, a: ConnAction, l: Local, l': Local)
    requires Known(s, l) && Inv(l) && ConnStep(a, l, l')
    ensures Inv(l')
  {
  }

  lemma AgentHubPreserves(s: SessionId, a: AgentHubAction, l: Local, l': Local)
    requires Known(s, l) && Inv(l) && AgentHubStep(s, a, l, l')
    ensures Inv(l')
  {
  }

  lemma DataPreserves(s: SessionId, i: nat, a: DataAction, l: Local, l': Local)
    requires Known(s, l) && Inv(l) && DataStep(s, i, a, l, l')
    ensures Inv(l')
  {
  }

  lemma TaskPreserves(s: SessionId, a: TaskAction, l: Local, l': Local)
    requires Known(s, l) && Inv(l) && TaskStep(s, a, l, l')
    ensures Inv(l')
  {
    if a.HttpAnswer? {
      TaskAnswers(l.agt.https, a.i);
    }
  }

  lemma StreamPreserves(s: SessionId, a: StreamAction, l: Local, l': Local)
    requires Known(s, l) && Inv(l) && StreamStep(s, a, l, l')
    ensures Inv(l')
  {
  }

  lemma Preserved(s: SessionId, a: Action, l: Local, l': Local)
    requires Own(s, l.sh) && Srv.Inv(s, l) && Agt.Inv(l) && Inv(l) && Step(s, a, l, l')
    ensures Inv(l')
  {
    match a
    case Proxy(p) => ProxyPreserves(s, p, l, l');
    case Writer(w) => WriterPreserves(s, w, l, l');
    case UpReader(r) => UpReaderPreserves(s, r, l, l');
    case Pump(u) => PumpPreserves(s, u, l, l');
    case Hub(h) => HubPreserves(s, h, l, l');
    case Inbound(n) => InboundPreserves(s, n, l, l');
    case Read => ReadPreserves(s, l, l');
    case Conn(c) => ConnPreserves(s, c, l, l');
    case AgentHub(g) => AgentHubPreserves(s, g, l, l');
    case Data(i, d) => DataPreserves(s, i, d, l, l');
    case Task(k) => TaskPreserves(s, k, l, l');
    case Stream(x) => StreamPreserves(s, x, l, l');
  }
}
