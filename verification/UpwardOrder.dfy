/**
 Downstream to upstream: the binary frames of a session are a contiguous, duplicate-free run of the chunks the agent
 cut its downstream messages into.
 */
module UpwardOrder {
  import opened Protocol
  import opened Pipes
  import opened Machine
  import opened Projection
  import opened Queues
  import Srv = ServerInvariant
  import Agt = AgentInvariant

  /** The chunk the agent's session goroutine is offering. */
  function InHand(out: Outflow): seq<Bytes> {
    if out.hand.Some? then [out.hand.value] else []
  }

  /** writeUpStreamPump has received a chunk and not written it yet. */
  predicate HoldsData(x: ProxyPc) {
    x.Holding? && IsData(x.held)
  }

  predicate LookingUpData(i: InboundPc) {
    i.InLooking? && IsData(i.m)
  }

  predicate DeliveringData(i: InboundPc) {
    i.InDelivering? && IsData(i.m)
  }

  /** The session's goroutine can still receive from its channel. */
  predicate Live(x: ProxyPc) {
    x.Start? || x.Preparing? || x.Announcing? || x.Relaying? || x.Holding? || x.Promoting? || x.Confirming?
  }

  /** Nothing is lost, doubled or overtaken on the wire. */
  predicate WireInv(arrived: nat, out: Outflow, up: seq<TunnelMessage>, inbound: InboundPc) {
    && arrived <= |out.chunks|
    && out.chunks[arrived..] == DataOf(up) + InHand(out)
    && (LookingUpData(inbound) || DeliveringData(inbound) ==>
          arrived > 0 && inbound.m.payload == out.chunks[arrived - 1])
  }

  /** Every chunk that arrived is accounted for as long as the session can still write. */
  predicate CountInv(r: Relay, x: ProxyPc, m: Member, hub: HubPc, inbound: InboundPc) {
    var n := |r.frames| + Weight(HoldsData(x));
    var looking, delivering := Weight(LookingUpData(inbound)), Weight(DeliveringData(inbound));
    && r.skipped + n + looking + delivering <= r.arrived
    && (Live(x) && !m.isClosed && !Srv.Removed(hub) ==> r.skipped + n + looking + delivering == r.arrived)
    && (Live(x) && !m.isClosed && delivering == 1 ==> r.skipped + n + 1 == r.arrived)
    && (!m.everStored ==> n == 0 && !inbound.InDelivering?)
  }

  /** Frame `k` is the `k`-th chunk after the skipped ones, and the chunk held comes next. */
  predicate FrameInv(r: Relay, x: ProxyPc, chunks: seq<Bytes>) {
    && r.skipped + |r.frames| + Weight(HoldsData(x)) <= |chunks|
    && (forall k :: 0 <= k < |r.frames| ==> r.frames[k] == chunks[r.skipped + k])
    && (HoldsData(x) ==> x.held.payload == chunks[r.skipped + |r.frames|])
  }

  /** Chunks are what reading the produced messages through the buffer gives. */
  ghost predicate ChunkInv(out: Outflow, closed: bool) {
    && (out.offer.Some? ==> ValidOffer(out.offer.value))
    && (out.offer.Some? ==> out.chunks + Outstanding(out.offer.value) == SplitAll(out.produced))
    && (out.offer.None? && !closed ==> out.chunks == SplitAll(out.produced))
    && out.chunks <= SplitAll(out.produced)
  }

  ghost predicate Inv(l: Local) {
    var r, out := l.srv.relay, l.agt.outflow;
    && (!l.srv.protocol.Http? ==>
          && WireInv(r.arrived, out, l.sh.up, l.sh.inbound)
          && CountInv(r, l.srv.proxy, l.srv.member, l.sh.hub, l.sh.inbound)
          && FrameInv(r, l.srv.proxy, out.chunks))
    && ChunkInv(out, l.agt.life.closed)
  }

  /** What the other invariants contribute. */
  ghost predicate Known(s: SessionId, l: Local) {
    && Own(s, l.sh)
    && Srv.ControlInv(l.srv)
    && Srv.MapInv(l.sh.hub, l.sh.pump, l.srv)
    && Agt.KindInv(l)
    && Agt.EarlyInv(l.agt)
    && Agt.RequestInv(l)
  }

  lemma Initially(l: Local, protocol: Protocol)
    requires IsNew(l, protocol)
    ensures Inv(l)
  {
  }

  lemma Undisturbed(l: Local, sh': Shared)
    requires Inv(l) && Quiet(l.sh, sh')
    ensures Inv(l.(sh := sh'))
  {
  }

  /** A message leaves the wire. */
  lemma WirePops(arrived: nat, out: Outflow, up: seq<TunnelMessage>)
    requires WireInv(arrived, out, up, InReading) && |up| > 0
    ensures WireInv(arrived + Weight(IsData(up[0])), out, up[1..], InLooking(up[0]))
  {
    DataPop(up);
    if IsData(up[0]) {
      assert out.chunks[arrived..][0] == up[0].payload;
      assert out.chunks[arrived + 1..] == out.chunks[arrived..][1..];
    }
  }

  /** A message that carries no data enters the wire. */
  lemma WireGrows(arrived: nat, out: Outflow, up: seq<TunnelMessage>, inbound: InboundPc, m: TunnelMessage)
    requires WireInv(arrived, out, up, inbound) && !IsData(m)
    ensures WireInv(arrived, out, up + [m], inbound)
  {
    DataAppend(up, m);
  }

  /** The chunk in hand enters the wire. */
  lemma WireTakesChunk(s: SessionId, arrived: nat, out: Outflow, up: seq<TunnelMessage>, inbound: InboundPc)
    requires WireInv(arrived, out, up, inbound) && out.hand.Some?
    ensures WireInv(arrived, out.(hand := None), up + [TunnelMessage(s, Unset, BINARY_MESSAGE, out.hand.value)],
                    inbound)
  {
    DataAppend(up, TunnelMessage(s, Unset, BINARY_MESSAGE, out.hand.value));
  }

  /** A chunk is read from the pipe. */
  lemma WireReads(arrived: nat, out: Outflow, out': Outflow, up: seq<TunnelMessage>, inbound: InboundPc, c: Bytes)
    requires WireInv(arrived, out, up, inbound) && out.hand.None?
    requires out'.chunks == out.chunks + [c] && out'.hand == Some(c)
    ensures WireInv(arrived, out', up, inbound)
  {
    assert out'.chunks[arrived..] == out.chunks[arrived..] + [c];
  }

  lemma ProxyPreserves(s: SessionId, a: ProxyAction, l: Local, l': Local)
    requires Known(s, l) && Inv(l) && ProxyStep(s, a, l, l')
    ensures Inv(l')
  {
    hide ChunkInv, WireInv;
  }

  lemma WriterCounts(a: WriterAction, l: Local, l': Local)
    requires WriterStep(a, l, l')
    requires CountInv(l.srv.relay, l.srv.proxy, l.srv.member, l.sh.hub, l.sh.inbound)
    ensures CountInv(l'.srv.relay, l'.srv.proxy, l'.srv.member, l'.sh.hub, l'.sh.inbound)
  {
  }

  lemma WriterWrites(a: WriterAction, l: Local, l': Local)
    requires WriterStep(a, l, l')
    requires FrameInv(l.srv.relay, l.srv.proxy, l.agt.outflow.chunks)
    ensures FrameInv(l'.srv.relay, l'.srv.proxy, l'.agt.outflow.chunks)
  {
  }

  lemma WriterPreserves(a: WriterAction, l: Local, l': Local)
    requires Inv(l) && WriterStep(a, l, l')
    ensures Inv(l')
  {
    hide ChunkInv, WireInv, CountInv, FrameInv;
    if !l.srv.protocol.Http? {
      WriterCounts(a, l, l');
      WriterWrites(a, l, l');
    }
  }

  lemma UpReaderPreserves(s: SessionId, a: UpReaderAction, l: Local, l': Local)
    requires Known(s, l) && Inv(l) && UpReaderStep(a, l, l')
    ensures Inv(l')
  {
    hide ChunkInv, WireInv;
  }

  lemma PumpPreserves(s: SessionId, a: PumpAction, l: Local, l': Local)
    requires Known(s, l) && Inv(l) && PumpStep(s, a, l, l')
    ensures Inv(l')
  {
    hide ChunkInv, WireInv;
  }

  lemma HubPreserves(s: SessionId, a: HubAction, l: Local, l': Local)
    requires Known(s, l) && Inv(l) && HubStep(s, a, l, l')
    ensures Inv(l')
  {
    hide ChunkInv, WireInv;
  }

  lemma InboundCounts(s: SessionId, a: InboundAction, l: Local, l': Local)
    requires Srv.MapInv(l.sh.hub, l.sh.pump, l.srv) && !l.srv.protocol.Http? && InboundStep(s, a, l, l')
    requires CountInv(l.srv.relay, l.srv.proxy, l.srv.member, l.sh.hub, l.sh.inbound)
    ensures CountInv(l'.srv.relay, l'.srv.proxy, l'.srv.member, l'.sh.hub, l'.sh.inbound)
  {
  }

  lemma InboundKeepsFrames(s: SessionId, a: InboundAction, l: Local, l': Local)
    requires Inv(l) && !l.srv.protocol.Http? && InboundStep(s, a, l, l')
    requires Srv.MapInv(l.sh.hub, l.sh.pump, l.srv)
    ensures FrameInv(l'.srv.relay, l'.srv.proxy, l'.agt.outflow.chunks)
  {
    hide ChunkInv;
    var r, x := l.srv.relay, l.srv.proxy;
    match a
    case Receive =>
    case LookUpTarget =>
      if !l.srv.member.stored && !l.srv.member.everStored {
        assert |r.frames| == 0 && !HoldsData(x);
      }
    case Deliver =>
      if DeliveringData(l.sh.inbound) && x.Relaying? {
        assert r.skipped + |r.frames| == r.arrived - 1;
      }
    case Bounce(ok) =>
  }

  lemma InboundKeepsWire(s: SessionId, a: InboundAction, l: Local, l': Local)
    requires Inv(l) && !l.srv.protocol.Http? && InboundStep(s, a, l, l')
    ensures WireInv(l'.srv.relay.arrived, l'.agt.outflow, l'.sh.up, l'.sh.inbound)
  {
    hide ChunkInv, CountInv, FrameInv;
    if a.Receive? {
      WirePops(l.srv.relay.arrived, l.agt.outflow, l.sh.up);
    }
  }

  lemma InboundPreserves(s: SessionId, a: InboundAction, l: Local, l': Local)
    requires Known(s, l) && Inv(l) && InboundStep(s, a, l, l')
    ensures Inv(l')
  {
    hide ChunkInv, CountInv, FrameInv, WireInv;
    if !l.srv.protocol.Http? {
      InboundCounts(s, a, l, l');
      InboundKeepsFrames(s, a, l, l');
      InboundKeepsWire(s, a, l, l');
    }
    assert l'.agt == l.agt && l'.srv.protocol == l.srv.protocol;
  }

  lemma ReadPreserves(s: SessionId, l: Local, l': Local)
    requires Known(s, l) && Inv(l) && ReadStep(s, l, l')
    ensures Inv(l')
  {
    hide WireInv, CountInv, FrameInv;
    CountPop(l.sh.down, CONNECT_MESSAGE);
  }

  lemma ConnPreserves(s: SessionId, a: ConnAction, l: Local, l': Local)
    requires Known(s, l) && Inv(l) && ConnStep(a, l, l')
    ensures Inv(l')
  {
    hide CountInv, FrameInv;
  }

  lemma AgentHubPreserves(s: SessionId, a: AgentHubAction, l: Local, l': Local)
    requires Known(s, l) && Inv(l) && AgentHubStep(s, a, l, l')
    ensures Inv(l')
  {
    hide CountInv;
    var r := l.srv.relay;
    if !l.srv.protocol.Http? {
      WireGrows(r.arrived, l.agt.outflow, l.sh.up, l.sh.inbound, TunnelMessage(s, Unset, CONNECT_MESSAGE, []));
      WireGrows(r.arrived, l.agt.outflow, l.sh.up, l.sh.inbound, CloseFor(s, l.agt.life.annotation));
    }
  }

  lemma DataPreserves(s: SessionId, i: nat, a: DataAction, l: Local, l': Local)
    requires Known(s, l) && Inv(l) && DataStep(s, i, a, l, l')
    ensures Inv(l')
  {
    hide CountInv;
    if !l.srv.protocol.Http? {
      WireGrows(l.srv.relay.arrived, l.agt.outflow, l.sh.up, l.sh.inbound, CloseFor(s, []));
    }
  }

  lemma TaskPreserves(s: SessionId, a: TaskAction, l: Local, l': Local)
    requires Known(s, l) && Inv(l) && TaskStep(s, a, l, l')
    ensures Inv(l')
  {
    hide CountInv;
  }

  lemma StreamKeepsWire(s: SessionId, a: StreamAction, l: Local, l': Local)
    requires StreamStep(s, a, l, l')
    requires WireInv(l.srv.relay.arrived, l.agt.outflow, l.sh.up, l.sh.inbound)
    ensures WireInv(l'.srv.relay.arrived, l'.agt.outflow, l'.sh.up, l'.sh.inbound)
  {
    var out, arrived := l.agt.outflow, l.srv.relay.arrived;
    match a
    case SendChunk => WireTakesChunk(s, arrived, out, l.sh.up, l.sh.inbound);
    case ReadChunk => WireReads(arrived, out, l'.agt.outflow, l.sh.up, l.sh.inbound, NextRead(out.offer.value));
    case _ =>
  }

  lemma StreamKeepsChunks(s: SessionId, a: StreamAction, l: Local, l': Local)
    requires StreamStep(s, a, l, l') && ChunkInv(l.agt.outflow, l.agt.life.closed)
    ensures ChunkInv(l'.agt.outflow, l'.agt.life.closed)
  {
    var out := l.agt.outflow;
    match a
    case Produce(message) =>
      SplitAllAppend(out.produced, message);
      assert message[0..] == message;
    case ReadChunk => ReadServesNextPiece(out.offer.value);
    case _ =>
  }

  lemma StreamPreserves(s: SessionId, a: StreamAction, l: Local, l': Local)
    requires Known(s, l) && Inv(l) && StreamStep(s, a, l, l')
    ensures Inv(l')
  {
    hide WireInv, ChunkInv, CountInv;
    StreamKeepsChunks(s, a, l, l');
    if !l.srv.protocol.Http? {
      StreamKeepsWire(s, a, l, l');
    }
  }

  lemma Preserved(s: SessionId, a: Action, l: Local, l': Local)
    requires Own(s, l.sh) && Srv.Inv(s, l) && Agt.Inv(l) && Inv(l) && Step(s, a, l, l')
    ensures Inv(l')
  {
    match a
    case Proxy(p) => ProxyPreserves(s, p, l, l');
    case Writer(w) => WriterPreserves(w, l, l');
    case UpReader(r) => UpReaderPreserves(s, r, l, l');
    case Pump(u) => PumpPreserves(s, u, l, l');
    case Hub(h) => HubPreserves(s, h, l, l');
    case Inbound(n) => InboundPreserves(s, n, l, l');
    case Read => ReadPreserves(s, l, l');
    case Conn(c) => ConnPreserves(s, c, l, l');
    case AgentHub(g) => AgentHubPreserves(s, g, l, l');
    case Data(i, d) => DataPreserves(s, i, d, l, l');
    case Task(k) => TaskPreserves(s, k, l, l');
    case Stream(x) => StreamPreserves(s, x, l, l');
  }
}
