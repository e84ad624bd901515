/** Conservation: every message the agent sends, and every close the server sends, is in exactly one place. */
module Ledger {
  import opened Protocol
  import opened Machine
  import opened Projection
  import opened Queues
  import Srv = ServerInvariant
  import Agt = AgentInvariant
  import HttpExchange

  /** The data messages that have been answered with a close. */
  function Refusals(data: seq<DataTask>): nat {
    if data == [] then 0 else Refusals(data[..|data| - 1]) + Weight(data[|data| - 1].pc.Refused?)
  }

  lemma RefusalsAppend(data: seq<DataTask>, t: DataTask)
    ensures Refusals(data + [t]) == Refusals(data) + Weight(t.pc.Refused?)
  {
    assert (data + [t])[..|data|] == data;
  }

  lemma {:induction false} RefusalsUpdate(data: seq<DataTask>, i: nat, t: DataTask)
    requires i < |data|
    ensures Refusals(data[i := t]) == Refusals(data) - Weight(data[i].pc.Refused?) + Weight(t.pc.Refused?)
    ensures Refusals(data) >= Weight(data[i].pc.Refused?)
  {
    var front := data[..|data| - 1];
    if i < |front| {
      RefusalsUpdate(front, i, t);
      assert data[i := t][..|data| - 1] == front[i := t];
    } else {
      assert data[i := t][..|data| - 1] == front;
    }
  }

  /** What the agent has sent for the session is on the wire or has been read. */
  predicate UpInv(l: Local) {
    |l.sh.up| + l.srv.traffic.received ==
      |l.agt.life.control| + Refusals(l.agt.data) + |l.agt.outflow.chunks| - Weight(l.agt.outflow.hand.Some?) +
      |l.agt.answers|
  }

  /** What has been read is with the inbound pump, has been handed to the handler, or has been answered with a close. */
  predicate InboundInv(inbound: InboundPc, t: Traffic) {
    t.received == t.delivered + t.bounced + Weight(!inbound.InReading?)
  }

  /** Every close the server has sent is on the wire, has become one task of the agent, or could not be written. */
  predicate DownInv(l: Local) {
    Count(l.sh.down, CLOSE_MESSAGE) + |l.agt.closers| + (|l.agt.https| - HttpExchange.Requests(l.agt.https)) +
    l.srv.traffic.lost == l.srv.traffic.bounced + l.srv.told.closes
  }

  ghost predicate Inv(l: Local) {
    && UpInv(l)
    && InboundInv(l.sh.inbound, l.srv.traffic)
    && DownInv(l)
  }

  /** What the other invariants contribute. */
  ghost predicate Known(s: SessionId, l: Local) {
    && Own(s, l.sh)
    && Srv.ControlInv(l.srv)
    && Srv.MapInv(l.sh.hub, l.sh.pump, l.srv)
    && Agt.KindInv(l)
    && Agt.FrameInv(l)
    && HttpExchange.Inv(l)
  }

  lemma Initially(l: Local, protocol: Protocol)
    requires IsNew(l, protocol)
    ensures Inv(l)
  {
  }

  lemma Undisturbed(l: Local, sh': Shared)
    requires Inv(l) && Quiet(l.sh, sh')
    ensures Inv(l.(sh := sh'))
  {
  }

  lemma ProxyPreserves(s: SessionId, a: ProxyAction, l: Local, l': Local)
    requires Known(s, l) && Inv(l) && ProxyStep(s, a, l, l')
    ensures Inv(l')
  {
    CountAppend(l.sh.down, TunnelMessage(s, l.srv.protocol, CONNECT_MESSAGE, []), CLOSE_MESSAGE);
  }

  lemma WriterPreserves(a: WriterAction, l: Local, l': Local)
    requires Inv(l) && WriterStep(a, l, l')
    ensures Inv(l')
  {
  }

  lemma UpReaderPreserves(a: UpReaderAction, l: Local, l': Local)
    requires Inv(l) && UpReaderStep(a, l, l')
    ensures Inv(l')
  {
  }

  lemma PumpPreserves(s: SessionId, a: PumpAction, l: Local, l': Local)
    requires Known(s, l) && Inv(l) && PumpStep(s, a, l, l')
    ensures Inv(l')
  {
    if l.sh.pump.PumpWriting? {
      CountAppend(l.sh.down, l.sh.pump.message, CLOSE_MESSAGE);
    }
  }

  lemma HubPreserves(s: SessionId, a: HubAction, l: Local, l': Local)
    requires Known(s, l) && Inv(l) && HubStep(s, a, l, l')
    ensures Inv(l')
  {
    CountAppend(l.sh.down, CloseFor(s, UPSTREAM_CLOSED_TEXT), CLOSE_MESSAGE);
  }

  lemma InboundPreserves(s: SessionId, a: InboundAction, l: Local, l': Local)
    requires Known(s, l) && Inv(l) && InboundStep(s, a, l, l')
    ensures Inv(l')
  {
    if a.Bounce? {
      CountAppend(l.sh.down, l.sh.inbound.m, CLOSE_MESSAGE);
    }
  }

  lemma ReadPreserves(s: SessionId, l: Local, l': Local)
    requires Known(s, l) && Inv(l) && ReadStep(s, l, l')
    ensures Inv(l')
  {
    var m := l.sh.down[0];
    CountPop(l.sh.down, CLOSE_MESSAGE);
    HttpExchange.TasksAppend(l.agt.https, HttpTask(m.action, m.action != CONNECT_MESSAGE));
    RefusalsAppend(l.agt.data, DataTask(m.payload, Seeking));
  }

  lemma ConnPreserves(a: ConnAction, l: Local, l': Local)
    requires Inv(l) && ConnStep(a, l, l')
    ensures Inv(l')
  {
  }

  lemma AgentHubPreserves(s: SessionId, a: AgentHubAction, l: Local, l': Local)
    requires Inv(l) && AgentHubStep(s, a, l, l')
    ensures Inv(l')
  {
  }

  lemma DataPreserves(s: SessionId, i: nat, a: DataAction, l: Local, l': Local)
    requires Inv(l) && DataStep(s, i, a, l, l')
    ensures Inv(l')
  {
    RefusalsUpdate(l.agt.data, i, l'.agt.data[i]);
  }

  lemma TaskPreserves(s: SessionId, a: TaskAction, l: Local, l': Local)
    requires Known(s, l) && Inv(l) && TaskStep(s, a, l, l')
    ensures Inv(l')
  {
    if a.HttpAnswer? {
      HttpExchange.TaskAnswers(l.agt.https, a.i);
    }
  }

  lemma StreamPreserves(s: SessionId, a: StreamAction, l: Local, l': Local)
    requires Inv(l) && StreamStep(s, a, l, l')
    ensures Inv(l')
  {
  }

  lemma Preserved(s: SessionId, a: Action, l: Local, l': Local)
    requires Own(s, l.sh) && Srv.Inv(s, l) && Agt.Inv(l) && HttpExchange.Inv(l) && Inv(l) && Step(s, a, l, l')
    ensures Inv(l')
  {
    hide ProxyStep, WriterStep, UpReaderStep, PumpStep, HubStep, InboundStep,
         ReadStep, ConnStep, AgentHubStep, DataStep, TaskStep, StreamStep, Inv, HttpExchange.Inv;
    match a
    case Proxy(p) => ProxyPreserves(s, p, l, l');
    case Writer(w) => WriterPreserves(w, l, l');
    case UpReader(r) => UpReaderPreserves(r, l, l');
    case Pump(u) => PumpPreserves(s, u, l, l');
    case Hub(h) => HubPreserves(s, h, l, l');
    case Inbound(n) => InboundPreserves(s, n, l, l');
    case Read => ReadPreserves(s, l, l');
    case Conn(c) => ConnPreserves(c, l, l');
    case AgentHub(g) => AgentHubPreserves(s, g, l, l');
    case Data(i, d) => DataPreserves(s, i, d, l, l');
    case Task(k) => TaskPreserves(s, k, l, l');
    case Stream(x) => StreamPreserves(s, x, l, l');
  }
}
