/**
 Upstream to downstream: what downstream.Receive gets is whole payloads of distinct forwarded frames, one after the
 other, and at the very end at most one payload that the closing of the pipe cut short.
 */
module DownwardDelivery {
  import opened Protocol
  import opened Pipes
  import opened Machine
  import opened Projection
  import opened Queues
  import Srv = ServerInvariant
  import Agt = AgentInvariant

  /** The frames handed to the agent's write pump are upstream frames, each at most once and in the order read. */
  predicate AcceptInv(inputs: seq<Bytes>, accepted: seq<int>, reader: UpReaderPc) {
    && (forall j :: 0 <= j < |accepted| ==> 0 <= accepted[j] < |inputs|)
    && (forall j, k :: 0 <= j < k < |accepted| ==> accepted[j] < accepted[k])
    && (reader.Got? || reader.Forwarding? ==>
          && |inputs| > 0
          && inputs[|inputs| - 1] == reader.frame
          && (|accepted| > 0 ==> accepted[|accepted| - 1] < |inputs| - 1))
  }

  /** The write pump is working for the wire: it has not failed. */
  predicate Pumping(pump: PumpPc) {
    pump.PumpWaiting? || pump.PumpWriting?
  }

  predicate PumpsData(pump: PumpPc) {
    pump.PumpWriting? && IsData(pump.message)
  }

  /** The `j`-th accepted frame. */
  predicate IsAccepted(inputs: seq<Bytes>, accepted: seq<int>, j: nat, payload: Bytes) {
    j < |accepted| && 0 <= accepted[j] < |inputs| && payload == inputs[accepted[j]]
  }

  /** Accepted frames reach the agent in order: tasks, then the wire, then the pump; only a failed pump loses any. */
  ghost predicate FlowInv(inputs: seq<Bytes>, accepted: seq<int>, data: seq<DataTask>, wire: seq<Bytes>, pump: PumpPc) {
    var n := |data| + |wire| + Weight(PumpsData(pump));
    && (forall j: nat :: j < |data| ==> IsAccepted(inputs, accepted, j, data[j].payload))
    && (forall k: nat :: k < |wire| ==> IsAccepted(inputs, accepted, |data| + k, wire[k]))
    && (PumpsData(pump) ==> IsAccepted(inputs, accepted, |data| + |wire|, pump.message.payload))
    && n <= |accepted|
    && (Pumping(pump) ==> n == |accepted|)
  }

  /** The payloads of the tasks with these numbers. */
  function Payloads(data: seq<DataTask>, order: seq<nat>): seq<Bytes>
    requires forall k :: 0 <= k < |order| ==> order[k] < |data|
  {
    seq(|order|, k requires 0 <= k < |order| => data[order[k]].payload)
  }

  /** The start of a payload that has been handed over without the rest. */
  function Partial(data: seq<DataTask>, pipe: Inflow): Bytes
    requires pipe.offer.Some? ==> ValidOffer(pipe.offer.value)
    requires pipe.cut.Some? ==>
               pipe.cut.value.owner < |data| && pipe.cut.value.bytes <= |data[pipe.cut.value.owner].payload|
  {
    if pipe.offer.Some? then pipe.offer.value.payload[..pipe.offer.value.taken]
    else if pipe.cut.Some? then data[pipe.cut.value.owner].payload[..pipe.cut.value.bytes]
    else []
  }

  /** One write at a time, each task at most one write, and nothing after a cut. */
  ghost predicate PipeInv(data: seq<DataTask>, pipe: Inflow, closed: bool) {
    && (pipe.offer.Some? ==>
          var o := pipe.offer.value;
          ValidOffer(o) && o.owner < |data| && data[o.owner].pc.Offering? && o.payload == data[o.owner].payload
          && pipe.cut.None?)
    && (forall i :: 0 <= i < |data| && data[i].pc.Offering? ==> pipe.offer.Some? && pipe.offer.value.owner == i)
    && (forall k :: 0 <= k < |pipe.delivered| ==>
          pipe.delivered[k] < |data| && data[pipe.delivered[k]].pc.Ended?)
    && (forall j, k :: 0 <= j < k < |pipe.delivered| ==> pipe.delivered[j] != pipe.delivered[k])
    && (pipe.cut.Some? ==>
          var c := pipe.cut.value;
          closed && c.owner < |data| && data[c.owner].pc.Ended? && c.owner !in pipe.delivered
          && c.bytes <= |data[c.owner].payload|)
  }

  /** The bytes handed to downstream.Receive. */
  ghost predicate BytesInv(data: seq<DataTask>, pipe: Inflow, closed: bool) {
    && PipeInv(data, pipe, closed)
    && pipe.received == Flatten(Payloads(data, pipe.delivered)) + Partial(data, pipe)
  }

  ghost predicate Flows(l: Local) {
    FlowInv(l.srv.relay.inputs, l.srv.relay.accepted, l.agt.data, DataOf(l.sh.down), l.sh.pump)
  }

  ghost predicate Inv(l: Local) {
    && AcceptInv(l.srv.relay.inputs, l.srv.relay.accepted, l.srv.reader)
    && (!l.srv.protocol.Http? ==> Flows(l))
    && BytesInv(l.agt.data, l.agt.inflow, l.agt.life.closed)
  }

  /** What the other invariants contribute. */
  ghost predicate Known(s: SessionId, l: Local) {
    && Own(s, l.sh)
    && Srv.ControlInv(l.srv)
    && Srv.MapInv(l.sh.hub, l.sh.pump, l.srv)
    && Agt.KindInv(l)
    && Agt.FrameInv(l)
    && Agt.EarlyInv(l.agt)
    && Agt.RequestInv(l)
    && Agt.LifeInv(l.sh.agentHub, l.agt.life)
  }

  lemma Initially(l: Local, protocol: Protocol)
    requires IsNew(l, protocol)
    ensures Inv(l)
  {
    assert Payloads(l.agt.data, l.agt.inflow.delivered) == [];
  }

  lemma Undisturbed(l: Local, sh': Shared)
    requires Inv(l) && Quiet(l.sh, sh')
    ensures Inv(l.(sh := sh'))
  {
  }

  /** The write pump takes the frame just read. */
  lemma FlowAccepts(inputs: seq<Bytes>, accepted: seq<int>, data: seq<DataTask>, wire: seq<Bytes>, pump: PumpPc,
                    m: TunnelMessage)
    requires FlowInv(inputs, accepted, data, wire, pump) && pump.PumpWaiting? && IsData(m)
    requires |inputs| > 0 && m.payload == inputs[|inputs| - 1]
    ensures FlowInv(inputs, accepted + [|inputs| - 1], data, wire, PumpWriting(m))
  {
    var accepted' := accepted + [|inputs| - 1];
    forall j: nat, payload | IsAccepted(inputs, accepted, j, payload)
      ensures IsAccepted(inputs, accepted', j, payload) {
    }
  }

  /** The upstream reader reads one more frame. */
  lemma FlowReads(inputs: seq<Bytes>, accepted: seq<int>, data: seq<DataTask>, wire: seq<Bytes>, pump: PumpPc,
                  frame: Bytes)
    requires FlowInv(inputs, accepted, data, wire, pump)
    ensures FlowInv(inputs + [frame], accepted, data, wire, pump)
  {
    forall j: nat, payload | IsAccepted(inputs, accepted, j, payload)
      ensures IsAccepted(inputs + [frame], accepted, j, payload) {
    }
  }

  /** The write pump puts a message on the wire, or drops it for good. */
  lemma FlowWrites(inputs: seq<Bytes>, accepted: seq<int>, data: seq<DataTask>, down: seq<TunnelMessage>, pump: PumpPc,
                   pump': PumpPc)
    requires FlowInv(inputs, accepted, data, DataOf(down), pump) && pump.PumpWriting? && IsData(pump.message)
    ensures pump'.PumpWaiting? ==> FlowInv(inputs, accepted, data, DataOf(down + [pump.message]), pump')
    ensures !Pumping(pump') ==> FlowInv(inputs, accepted, data, DataOf(down), pump')
  {
    DataAppend(down, pump.message);
  }

  /** The agent starts a goroutine for the data message at the front of the wire. */
  lemma FlowSpawns(inputs: seq<Bytes>, accepted: seq<int>, data: seq<DataTask>, wire: seq<Bytes>, pump: PumpPc)
    requires FlowInv(inputs, accepted, data, wire, pump) && |wire| > 0
    ensures FlowInv(inputs, accepted, data + [DataTask(wire[0], Seeking)], wire[1..], pump)
  {
    var data', wire' := data + [DataTask(wire[0], Seeking)], wire[1..];
    assert IsAccepted(inputs, accepted, |data| + 0, wire[0]);
    forall j: nat | j < |data'| ensures IsAccepted(inputs, accepted, j, data'[j].payload) {
    }
    forall k: nat | k < |wire'| ensures IsAccepted(inputs, accepted, |data'| + k, wire'[k]) {
      assert IsAccepted(inputs, accepted, |data| + (k + 1), wire[k + 1]);
    }
  }

  /** A task moves on without touching the pipe. */
  lemma TaskMoves(data: seq<DataTask>, pipe: Inflow, closed: bool, i: nat, pc: DataPc)
    requires BytesInv(data, pipe, closed) && i < |data|
    requires !data[i].pc.Offering? && !data[i].pc.Ended? && !pc.Offering?
    ensures BytesInv(data[i := data[i].(pc := pc)], pipe, closed)
  {
    var data' := data[i := data[i].(pc := pc)];
    assert i !in pipe.delivered;
    assert Payloads(data', pipe.delivered) == Payloads(data, pipe.delivered);
  }

  lemma TaskOffers(data: seq<DataTask>, pipe: Inflow, i: nat)
    requires BytesInv(data, pipe, false) && i < |data| && data[i].pc.Writing? && pipe.offer.None?
    ensures BytesInv(data[i := data[i].(pc := Offering)],
                     pipe.(offer := Some(Offer(i, data[i].payload, 0, false))), false)
  {
    assert Payloads(data[i := data[i].(pc := Offering)], pipe.delivered) == Payloads(data, pipe.delivered);
  }

  lemma PipeFinishes(data: seq<DataTask>, pipe: Inflow, closed: bool, i: nat)
    requires PipeInv(data, pipe, closed) && i < |data| && pipe.offer.Some? && pipe.offer.value.owner == i
    ensures i !in pipe.delivered
    ensures PipeInv(data[i := data[i].(pc := Ended)],
                    pipe.(offer := None, delivered := pipe.delivered + [i]), closed)
  {
  }

  lemma PayloadsFinish(data: seq<DataTask>, order: seq<nat>, i: nat, pc: DataPc)
    requires i < |data| && forall k :: 0 <= k < |order| ==> order[k] < |data|
    ensures Payloads(data[i := data[i].(pc := pc)], order + [i]) == Payloads(data, order) + [data[i].payload]
  {
  }

  lemma FlattenLast(parts: seq<Bytes>, last: Bytes)
    ensures Flatten(parts + [last]) == Flatten(parts) + last
  {
    assert (parts + [last])[..|parts|] == parts;
  }

  /** The write returns: all of its payload has been read. */
  lemma TaskFinishes(data: seq<DataTask>, pipe: Inflow, closed: bool, i: nat)
    requires BytesInv(data, pipe, closed) && i < |data| && pipe.offer.Some? && pipe.offer.value.owner == i
    requires Complete(pipe.offer.value)
    ensures BytesInv(data[i := data[i].(pc := Ended)],
                     pipe.(offer := None, delivered := pipe.delivered + [i]), closed)
  {
    hide Flatten, Payloads;
    PipeFinishes(data, pipe, closed, i);
    PayloadsFinish(data, pipe.delivered, i, Ended);
    FlattenLast(Payloads(data, pipe.delivered), data[i].payload);
    assert pipe.offer.value.payload[..pipe.offer.value.taken] == data[i].payload;
  }

  /** The write returns an error: the pipe was closed before all was read. */
  lemma TaskIsCut(data: seq<DataTask>, pipe: Inflow, i: nat)
    requires BytesInv(data, pipe, true) && i < |data| && pipe.offer.Some? && pipe.offer.value.owner == i
    ensures BytesInv(data[i := data[i].(pc := Ended)],
                     pipe.(offer := None, cut := Some(Cut(i, pipe.offer.value.taken))), true)
  {
    assert i !in pipe.delivered;
    assert Payloads(data[i := data[i].(pc := Ended)], pipe.delivered) == Payloads(data, pipe.delivered);
  }

  lemma ReaderTakes(data: seq<DataTask>, pipe: Inflow, closed: bool)
    requires BytesInv(data, pipe, closed) && pipe.offer.Some?
    ensures BytesInv(data, pipe.(received := pipe.received + NextRead(pipe.offer.value),
                                 offer := Some(AfterRead(pipe.offer.value))), closed)
  {
    var o := pipe.offer.value;
    var before := Flatten(Payloads(data, pipe.delivered));
    assert o.payload[..o.taken] + NextRead(o) == o.payload[..AfterRead(o).taken];
    assert (before + o.payload[..o.taken]) + NextRead(o) == before + (o.payload[..o.taken] + NextRead(o));
  }

  lemma TasksGrow(data: seq<DataTask>, pipe: Inflow, closed: bool, payload: Bytes)
    requires BytesInv(data, pipe, closed)
    ensures BytesInv(data + [DataTask(payload, Seeking)], pipe, closed)
  {
    assert Payloads(data + [DataTask(payload, Seeking)], pipe.delivered) == Payloads(data, pipe.delivered);
  }

  lemma ProxyPreserves(s: SessionId, a: ProxyAction, l: Local, l': Local)
    requires Known(s, l) && Inv(l) && ProxyStep(s, a, l, l')
    ensures Inv(l')
  {
    hide BytesInv, AcceptInv;
    DataAppend(l.sh.down, TunnelMessage(s, l.srv.protocol, CONNECT_MESSAGE, []));
  }

  lemma WriterPreserves(s: SessionId, a: WriterAction, l: Local, l': Local)
    requires Known(s, l) && Inv(l) && WriterStep(a, l, l')
    ensures Inv(l')
  {
    hide BytesInv, AcceptInv;
  }

  lemma UpReaderPreserves(s: SessionId, a: UpReaderAction, l: Local, l': Local)
    requires Known(s, l) && Inv(l) && UpReaderStep(a, l, l')
    ensures Inv(l')
  {
    hide BytesInv;
    match a
    case ReadFrame(kind, frame) =>
      if !l.srv.protocol.Http? {
        FlowReads(l.srv.relay.inputs, l.srv.relay.accepted, l.agt.data, DataOf(l.sh.down), l.sh.pump, frame);
      }
    case _ =>
  }

  lemma PumpKeepsFlow(s: SessionId, a: PumpAction, l: Local, l': Local)
    requires Agt.FrameInv(l) && Inv(l) && !l.srv.protocol.Http? && !l.srv.proxy.Requesting? && PumpStep(s, a, l, l')
    ensures Flows(l')
  {
    var r := l.srv.relay;
    match a
    case TakeFrame =>
      FlowAccepts(r.inputs, r.accepted, l.agt.data, DataOf(l.sh.down), l.sh.pump, l'.sh.pump.message);
    case WriteMessage(ok) =>
      FlowWrites(r.inputs, r.accepted, l.agt.data, l.sh.down, l.sh.pump, l'.sh.pump);
    case _ =>
  }

  lemma Accepts(inputs: seq<Bytes>, accepted: seq<int>, reader: UpReaderPc)
    requires AcceptInv(inputs, accepted, reader) && reader.Forwarding?
    ensures AcceptInv(inputs, accepted + [|inputs| - 1], Reading)
  {
  }

  lemma PumpKeepsAccept(s: SessionId, a: PumpAction, l: Local, l': Local)
    requires Inv(l) && PumpStep(s, a, l, l')
    ensures AcceptInv(l'.srv.relay.inputs, l'.srv.relay.accepted, l'.srv.reader)
  {
    if a.TakeFrame? {
      Accepts(l.srv.relay.inputs, l.srv.relay.accepted, l.srv.reader);
    }
  }

  lemma PumpPreserves(s: SessionId, a: PumpAction, l: Local, l': Local)
    requires Agt.FrameInv(l) && Srv.ControlInv(l.srv) && Inv(l) && PumpStep(s, a, l, l')
    ensures Inv(l')
  {
    hide BytesInv;
    PumpKeepsAccept(s, a, l, l');
    if !l.srv.protocol.Http? {
      PumpKeepsFlow(s, a, l, l');
    }
    assert l'.agt == l.agt;
  }

  lemma HubKeepsFlow(s: SessionId, a: HubAction, l: Local, l': Local)
    requires Flows(l) && HubStep(s, a, l, l')
    ensures Flows(l')
  {
    DataAppend(l.sh.down, CloseFor(s, UPSTREAM_CLOSED_TEXT));
  }

  lemma HubPreserves(s: SessionId, a: HubAction, l: Local, l': Local)
    requires Inv(l) && HubStep(s, a, l, l')
    ensures Inv(l')
  {
    hide BytesInv, Flows;
    if !l.srv.protocol.Http? {
      HubKeepsFlow(s, a, l, l');
    }
    assert l'.agt == l.agt && l'.srv.relay == l.srv.relay && l'.srv.protocol == l.srv.protocol;
  }

  lemma InboundPreserves(s: SessionId, a: InboundAction, l: Local, l': Local)
    requires Agt.FrameInv(l) && Inv(l) && InboundStep(s, a, l, l')
    ensures Inv(l')
  {
    hide BytesInv, AcceptInv;
    if a.Bounce? {
      DataAppend(l.sh.down, l.sh.inbound.m);
    }
  }

  lemma ReadPreserves(s: SessionId, l: Local, l': Local)
    requires Known(s, l) && Inv(l) && ReadStep(s, l, l')
    ensures Inv(l')
  {
    var m := l.sh.down[0];
    DataPop(l.sh.down);
    CountPop(l.sh.down, CONNECT_MESSAGE);
    assert DataOf(l'.sh.down) == if IsData(m) then DataOf(l.sh.down)[1..] else DataOf(l.sh.down);
    if IsData(m) && !l.srv.protocol.Http? {
      FlowSpawns(l.srv.relay.inputs, l.srv.relay.accepted, l.agt.data, DataOf(l.sh.down), l.sh.pump);
      TasksGrow(l.agt.data, l.agt.inflow, l.agt.life.closed, m.payload);
    }
  }

  lemma ConnPreserves(s: SessionId, a: ConnAction, l: Local, l': Local)
    requires Known(s, l) && Inv(l) && ConnStep(a, l, l')
    ensures Inv(l')
  {
  }

  lemma AgentHubPreserves(s: SessionId, a: AgentHubAction, l: Local, l': Local)
    requires Known(s, l) && Inv(l) && AgentHubStep(s, a, l, l')
    ensures Inv(l')
  {
  }

  lemma DataKeepsBytes(s: SessionId, i: nat, a: DataAction, l: Local, l': Local)
    requires BytesInv(l.agt.data, l.agt.inflow, l.agt.life.closed) && DataStep(s, i, a, l, l')
    ensures BytesInv(l'.agt.data, l'.agt.inflow, l'.agt.life.closed)
  {
    var data, pipe, closed := l.agt.data, l.agt.inflow, l.agt.life.closed;
    match a
    case DataAcquire =>
      if closed {
        TaskMoves(data, pipe, closed, i, Ended);
      } else {
        TaskOffers(data, pipe, i);
      }
    case DataSeek => TaskMoves(data, pipe, closed, i, l'.agt.data[i].pc);
    case DataRefuse => TaskMoves(data, pipe, closed, i, Refused);
    case DataFinish => TaskFinishes(data, pipe, closed, i);
    case DataCut => TaskIsCut(data, pipe, i);
  }

  lemma DataPreserves(s: SessionId, i: nat, a: DataAction, l: Local, l': Local)
    requires Inv(l) && DataStep(s, i, a, l, l')
    ensures Inv(l')
  {
    hide BytesInv, AcceptInv;
    DataKeepsBytes(s, i, a, l, l');
    assert l'.sh.down == l.sh.down && l'.sh.pump == l.sh.pump && l'.srv == l.srv;
    assert forall j :: 0 <= j < |l.agt.data| ==> l'.agt.data[j].payload == l.agt.data[j].payload;
  }

  lemma TaskPreserves(s: SessionId, a: TaskAction, l: Local, l': Local)
    requires Known(s, l) && Inv(l) && TaskStep(s, a, l, l')
    ensures Inv(l')
  {
  }

  lemma StreamPreserves(s: SessionId, a: StreamAction, l: Local, l': Local)
    requires Inv(l) && StreamStep(s, a, l, l')
    ensures Inv(l')
  {
    if a.ReceiveBytes? {
      ReaderTakes(l.agt.data, l.agt.inflow, l.agt.life.closed);
    }
  }

  lemma Preserved(s: SessionId, a: Action, l: Local, l': Local)
    requires Own(s, l.sh) && Srv.Inv(s, l) && Agt.Inv(l) && Inv(l) && Step(s, a, l, l')
    ensures Inv(l')
  {
    match a
    case Proxy(p) => ProxyPreserves(s, p, l, l');
    case Writer(w) => WriterPreserves(s, w, l, l');
    case UpReader(r) => UpReaderPreserves(s, r, l, l');
    case Pump(u) => PumpPreserves(s, u, l, l');
    case Hub(h) => HubPreserves(s, h, l, l');
    case Inbound(n) => InboundPreserves(s, n, l, l');
    case Read => ReadPreserves(s, l, l');
    case Conn(c) => ConnPreserves(s, c, l, l');
    case AgentHub(g) => AgentHubPreserves(s, g, l, l');
    case Data(i, d) => DataPreserves(s, i, d, l, l');
    case Task(k) => TaskPreserves(s, k, l, l');
    case Stream(x) => StreamPreserves(s, x, l, l');
  }
}
