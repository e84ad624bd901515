/**
 How many protocol steps one session can still make without new input. Every internal step uses some of it up, whatever
 the interleaving; a message pays in advance for the answer it may draw.
 */
module Rank {
  import opened Protocol
  import opened Pipes
  import opened Machine
  import opened Projection

  /** A message on its way up: read, looked up, and then either delivered and acted on, or bounced and absorbed. */
  const UP: nat := 13

  function DownRank(m: TunnelMessage): nat {
    if m.protocol.Http? then (if m.action == CONNECT_MESSAGE then 15 else 1)
    else if m.action == PING_MESSAGE then 1
    else if m.action == CONNECT_MESSAGE then 41
    else if m.action == CLOSE_MESSAGE then 4
    else |m.payload| + 16
  }

  function WireRank(q: seq<TunnelMessage>): nat {
    if q == [] then 0 else WireRank(q[..|q| - 1]) + DownRank(q[|q| - 1])
  }

  function ProxyRank(x: ProxyPc): nat {
    match x
    case Start => 86
    case Preparing => 85
    case Announcing => 43
    case Requesting => 39
    case Awaiting => 11
    case Relaying => 12
    case Holding(_) => 22
    case Promoting => 21
    case Confirming => 20
    case Annotating(_) => 11
    case Leaving => 10
    case Unregistering => 9
    case Closing => 1
    case Finished => 0
  }

  function ReaderRank(r: UpReaderPc): nat {
    match r
    case NotStarted => 0
    case Reading => 2
    case Got(kind, frame) => DownRank(Forward(0, kind, frame)) + 16
    case Forwarding(kind, frame) => DownRank(Forward(0, kind, frame)) + 15
    case ReadFailed => 1
    case Stopped => 0
  }

  function HubRank(h: HubPc): nat {
    match h
    case HubIdle => 0
    case HubStoring(_) => 3
    case HubChecking(_) => 2
    case HubCalling(_) => 1
    case HubRemoving(_, _) => 8
    case HubUncalling(_, _) => 7
    case HubNotifying(_, _) => 6
    case HubClosing(_, _) => 1
  }

  function PumpRank(p: PumpPc): nat {
    match p
    case PumpWaiting => 0
    case PumpWriting(m) => DownRank(m) + 12
    case PumpLooking(_) => 11
    case PumpMarking(_) => 10
    case PumpReporting(_) => 9
    case PumpExited => 0
  }

  function InboundRank(i: InboundPc): nat {
    match i
    case InReading => 0
    case InLooking(_) => 12
    case InDelivering(_) => 11
    case InBouncing(m) => 1 + DownRank(m)
  }

  function AgentHubRank(h: AgentHubPc): nat {
    match h
    case AgentIdle => 0
    case AgentStoring(_) => 15
    case AgentAcking(_) => 14
    case AgentRemoving(_) => 17
    case AgentShutting(_) => 16
    case AgentDeciding(_) => 15
    case AgentNoticing(_) => 14
  }

  function ConnRank(c: ConnPc): nat {
    match c
    case Absent => 0
    case Opening => 40
    case Enrolling => 36
    case Serving => 20
    case Failing => 19
    case Withdrawing => 18
    case Over => 0
  }

  function TaskRank(t: DataTask): nat {
    match t.pc
    case Seeking => |t.payload| + 15
    case Refusing => 14
    case Writing => |t.payload| + 3
    case Offering => 1
    case Ended => 0
    case Refused => 0
  }

  function CloserRank(c: CloserPc): nat {
    match c
    case Searching => 3
    case Marking => 2
    case Shutting => 1
    case Shut => 0
    case Ignored => 0
  }

  function DataRank(ts: seq<DataTask>): nat {
    if ts == [] then 0 else DataRank(ts[..|ts| - 1]) + TaskRank(ts[|ts| - 1])
  }

  function ClosersRank(cs: seq<CloserPc>): nat {
    if cs == [] then 0 else ClosersRank(cs[..|cs| - 1]) + CloserRank(cs[|cs| - 1])
  }

  function HttpRank(ts: seq<HttpTask>): nat {
    if ts == [] then 0 else HttpRank(ts[..|ts| - 1]) + 14 * Weight(!ts[|ts| - 1].answered)
  }

  /** The reads a write can still serve, at most. */
  function Reads(offer: Option<Offer>): nat {
    if offer.None? then 0
    else (if offer.value.taken <= |offer.value.payload| then |offer.value.payload| - offer.value.taken else 0)
         + Weight(!offer.value.met)
  }

  function SharedRank(sh: Shared): nat {
    HubRank(sh.hub) + PumpRank(sh.pump) + InboundRank(sh.inbound) + AgentHubRank(sh.agentHub)
    + WireRank(sh.down) + UP * |sh.up|
  }

  function OutflowRank(out: Outflow): nat {
    15 * Reads(out.offer) + Weight(out.offer.Some?) + 14 * Weight(out.hand.Some?)
    + Weight(out.sending) + Weight(out.chunking)
  }

  function AgentRank(agt: AgentSession): nat {
    ConnRank(agt.life.conn) + Reads(agt.inflow.offer) + Weight(agt.inflow.receiving) + OutflowRank(agt.outflow)
    + DataRank(agt.data) + ClosersRank(agt.closers) + HttpRank(agt.https)
  }

  function SessionRank(l: Local): nat {
    SharedRank(l.sh) + ProxyRank(l.srv.proxy) + ReaderRank(l.srv.reader) + AgentRank(l.agt)
  }

  /** What only the system as a whole can use up. */
  function Alive(sh: Shared): nat {
    Weight(!sh.pump.PumpExited?)
  }

  /** Steps that bring something in from outside: an upstream frame, a downstream message. */
  function Cost(a: Action): nat {
    match a
    case UpReader(ReadFrame(_, frame)) => |frame| + 30
    case Stream(Produce(message)) => 15 * |message| + 16
    case _ => 0
  }

  predicate Internal(a: Action) {
    Cost(a) == 0
  }

  lemma WireAppend(q: seq<TunnelMessage>, m: TunnelMessage)
    ensures WireRank(q + [m]) == WireRank(q) + DownRank(m)
  {
    assert (q + [m])[..|q|] == q;
  }

  lemma {:induction false} WirePop(q: seq<TunnelMessage>)
    requires |q| > 0
    ensures WireRank(q) == DownRank(q[0]) + WireRank(q[1..])
  {
    if |q| == 1 {
      assert q[..0] == [] && q[1..] == [];
    } else {
      WirePop(q[..|q| - 1]);
      assert q[1..][..|q| - 2] == q[..|q| - 1][1..];
    }
  }

  /** A new goroutine costs less than the message that starts it. */
  lemma SpawnUses(agt: AgentSession, m: TunnelMessage)
    ensures AgentRank(Spawn(agt, m)) < AgentRank(agt) + DownRank(m)
  {
    if m.protocol.Http? {
      var h := HttpTask(m.action, m.action != CONNECT_MESSAGE);
      assert (agt.https + [h])[..|agt.https|] == agt.https;
    } else if m.action == CLOSE_MESSAGE {
      assert (agt.closers + [Searching])[..|agt.closers|] == agt.closers;
    } else if IsData(m) {
      assert (agt.data + [DataTask(m.payload, Seeking)])[..|agt.data|] == agt.data;
    }
  }

  lemma {:induction false} DataUpdate(ts: seq<DataTask>, i: nat, t: DataTask)
    requires i < |ts|
    ensures DataRank(ts[i := t]) == DataRank(ts) - TaskRank(ts[i]) + TaskRank(t)
  {
    if i == |ts| - 1 {
      assert ts[i := t][..|ts| - 1] == ts[..|ts| - 1];
    } else {
      assert ts[i := t][..|ts| - 1] == ts[..|ts| - 1][i := t];
      DataUpdate(ts[..|ts| - 1], i, t);
    }
  }

  lemma {:induction false} ClosersUpdate(cs: seq<CloserPc>, i: nat, c: CloserPc)
    requires i < |cs|
    ensures ClosersRank(cs[i := c]) == ClosersRank(cs) - CloserRank(cs[i]) + CloserRank(c)
  {
    if i == |cs| - 1 {
      assert cs[i := c][..|cs| - 1] == cs[..|cs| - 1];
    } else {
      assert cs[i := c][..|cs| - 1] == cs[..|cs| - 1][i := c];
      ClosersUpdate(cs[..|cs| - 1], i, c);
    }
  }

  lemma {:induction false} HttpUpdate(ts: seq<HttpTask>, i: nat, t: HttpTask)
    requires i < |ts|
    ensures HttpRank(ts[i := t]) == HttpRank(ts) - 14 * Weight(!ts[i].answered) + 14 * Weight(!t.answered)
  {
    if i == |ts| - 1 {
      assert ts[i := t][..|ts| - 1] == ts[..|ts| - 1];
    } else {
      assert ts[i := t][..|ts| - 1] == ts[..|ts| - 1][i := t];
      HttpUpdate(ts[..|ts| - 1], i, t);
    }
  }

  lemma ProxyUses(s: SessionId, a: ProxyAction, l: Local, l': Local)
    requires ProxyStep(s, a, l, l')
    ensures SessionRank(l') < SessionRank(l)
    ensures Alive(l'.sh) <= Alive(l.sh)
  {
    hide WireRank, AgentRank, HubRank, PumpRank, InboundRank, AgentHubRank, ReaderRank;
    WireAppend(l.sh.down, TunnelMessage(s, l.srv.protocol, CONNECT_MESSAGE, []));
  }

  lemma WriterUses(s: SessionId, a: WriterAction, l: Local, l': Local)
    requires WriterStep(a, l, l')
    ensures SessionRank(l') < SessionRank(l)
    ensures Alive(l'.sh) <= Alive(l.sh)
  {
    hide SharedRank, AgentRank, ReaderRank;
  }

  lemma UpReaderUses(s: SessionId, a: UpReaderAction, l: Local, l': Local)
    requires UpReaderStep(a, l, l')
    ensures SessionRank(l') <= SessionRank(l) + Cost(UpReader(a))
    ensures Internal(UpReader(a)) ==> SessionRank(l') < SessionRank(l)
    ensures Alive(l'.sh) <= Alive(l.sh)
  {
    hide SharedRank, AgentRank, ProxyRank;
  }

  lemma PumpUses(s: SessionId, a: PumpAction, l: Local, l': Local)
    requires PumpStep(s, a, l, l')
    ensures SessionRank(l') + Alive(l'.sh) < SessionRank(l) + Alive(l.sh)
  {
    hide WireRank, AgentRank, HubRank, InboundRank, AgentHubRank;
    if l.sh.pump.PumpWriting? {
      WireAppend(l.sh.down, l.sh.pump.message);
    }
  }

  lemma HubUses(s: SessionId, a: HubAction, l: Local, l': Local)
    requires HubStep(s, a, l, l')
    ensures SessionRank(l') < SessionRank(l)
    ensures Alive(l'.sh) <= Alive(l.sh)
  {
    hide WireRank, AgentRank, InboundRank, AgentHubRank;
    WireAppend(l.sh.down, CloseFor(s, UPSTREAM_CLOSED_TEXT));
  }

  lemma InboundUses(s: SessionId, a: InboundAction, l: Local, l': Local)
    requires InboundStep(s, a, l, l')
    ensures SessionRank(l') < SessionRank(l)
    ensures Alive(l'.sh) <= Alive(l.sh)
  {
    hide WireRank, AgentRank, HubRank, PumpRank, AgentHubRank, ReaderRank;
    if a.Bounce? {
      WireAppend(l.sh.down, l.sh.inbound.m);
    }
  }

  lemma ReadUses(s: SessionId, l: Local, l': Local)
    requires ReadStep(s, l, l')
    ensures SessionRank(l') < SessionRank(l)
    ensures Alive(l'.sh) <= Alive(l.sh)
  {
    hide AgentRank, HubRank, PumpRank, InboundRank, AgentHubRank, ProxyRank, ReaderRank;
    var m := l.sh.down[0];
    WirePop(l.sh.down);
    SpawnUses(l.agt, m);
  }

  lemma ConnUses(s: SessionId, a: ConnAction, l: Local, l': Local)
    requires ConnStep(a, l, l')
    ensures SessionRank(l') < SessionRank(l)
    ensures Alive(l'.sh) <= Alive(l.sh)
  {
    hide SharedRank, ProxyRank, ReaderRank, DataRank, ClosersRank, HttpRank, Reads;
  }

  lemma AgentHubUses(s: SessionId, a: AgentHubAction, l: Local, l': Local)
    requires AgentHubStep(s, a, l, l')
    ensures SessionRank(l') < SessionRank(l)
    ensures Alive(l'.sh) <= Alive(l.sh)
  {
    hide HubRank, PumpRank, InboundRank, WireRank, ProxyRank, ReaderRank, OutflowRank, Reads, DataRank,
         ClosersRank, HttpRank;
  }

  lemma DataUses(s: SessionId, i: nat, a: DataAction, l: Local, l': Local)
    requires DataStep(s, i, a, l, l')
    ensures SessionRank(l') < SessionRank(l)
    ensures Alive(l'.sh) <= Alive(l.sh)
  {
    hide HubRank, PumpRank, InboundRank, AgentHubRank, WireRank, ProxyRank, ReaderRank, ConnRank,
         OutflowRank, ClosersRank, HttpRank;
    DataUpdate(l.agt.data, i, l'.agt.data[i]);
  }

  lemma TaskUses(s: SessionId, a: TaskAction, l: Local, l': Local)
    requires TaskStep(s, a, l, l')
    ensures SessionRank(l') < SessionRank(l)
    ensures Alive(l'.sh) <= Alive(l.sh)
  {
    hide HubRank, PumpRank, InboundRank, AgentHubRank, WireRank, ProxyRank, ReaderRank, ConnRank,
         OutflowRank, Reads, DataRank;
    match a
    case CloserSeek(i) => ClosersUpdate(l.agt.closers, i, l'.agt.closers[i]);
    case CloserMark(i) => ClosersUpdate(l.agt.closers, i, l'.agt.closers[i]);
    case CloserShut(i) => ClosersUpdate(l.agt.closers, i, l'.agt.closers[i]);
    case HttpAnswer(i, body) => HttpUpdate(l.agt.https, i, l'.agt.https[i]);
  }

  lemma StreamUses(s: SessionId, a: StreamAction, l: Local, l': Local)
    requires StreamStep(s, a, l, l')
    ensures SessionRank(l') <= SessionRank(l) + Cost(Stream(a))
    ensures Internal(Stream(a)) ==> SessionRank(l') < SessionRank(l)
    ensures Alive(l'.sh) <= Alive(l.sh)
  {
    hide HubRank, PumpRank, InboundRank, AgentHubRank, WireRank, ProxyRank, ReaderRank, ConnRank,
         DataRank, ClosersRank, HttpRank;
  }

  /** Every step pays; only input from outside is credited. */
  lemma StepUses(s: SessionId, a: Action, l: Local, l': Local)
    requires Step(s, a, l, l')
    ensures SessionRank(l') + Alive(l'.sh) <= SessionRank(l) + Alive(l.sh) + Cost(a)
    ensures Internal(a) ==> SessionRank(l') + Alive(l'.sh) < SessionRank(l) + Alive(l.sh)
  {
    match a
    case Proxy(p) => ProxyUses(s, p, l, l');
    case Writer(w) => WriterUses(s, w, l, l');
    case UpReader(r) => UpReaderUses(s, r, l, l');
    case Pump(u) => PumpUses(s, u, l, l');
    case Hub(h) => HubUses(s, h, l, l');
    case Inbound(n) => InboundUses(s, n, l, l');
    case Read => ReadUses(s, l, l');
    case Conn(c) => ConnUses(s, c, l, l');
    case AgentHub(g) => AgentHubUses(s, g, l, l');
    case Data(i, d) => DataUses(s, i, d, l, l');
    case Task(k) => TaskUses(s, k, l, l');
    case Stream(x) => StreamUses(s, x, l, l');
  }

  /** What a session does not notice costs it nothing. */
  lemma QuietKeeps(l: Local, sh': Shared)
    requires Quiet(l.sh, sh')
    ensures SessionRank(l.(sh := sh')) == SessionRank(l)
  {
  }
}
