/**
 The agent's objects and the methods that change them, each call on its own: the pipes with their byte buffers, the
 hub's handling of one request, Processor and httpProcessor.
 */
module AgentObjects {
  import opened Protocol
  import opened Pipes
  import Handling
  import HubHistory
  import Machine

  /** One io.Pipe with the writes that wait on it. A reader that has served them all finds the pipe closed. */
  class Pipe {
    var offer: Option<Offer>
    var writes: seq<Bytes>
    var isClosed: bool

    constructor ()
      ensures Valid() && !isClosed && Rest() == []
    {
      offer, writes, isClosed := None, [], false;
    }

    predicate Valid()
      reads this
    {
      InProgress(offer)
    }

    /** What the reads to come will get, one by one; a closed pipe gives nothing more. */
    function Rest(): seq<Bytes>
      requires Valid()
      reads this
    {
      if isClosed then [] else Pipes.Rest(offer, writes)
    }

    method Write(payload: Bytes) returns (ok: bool)
      requires Valid()
      modifies this
      ensures Valid() && isClosed == old(isClosed) && ok == !isClosed
      ensures Rest() == old(Rest()) + if ok then Split(payload) else []
    {
      ok := !isClosed;
      if ok {
        SplitAllAppend(writes, payload);
        writes := writes + [payload];
      }
    }

    /** The bytes the next read gets: the next piece of the oldest write, never bytes of two writes. */
    method Serve() returns (piece: Bytes, ok: bool)
      requires Valid()
      modifies this
      ensures Valid() && isClosed == old(isClosed) && ok == (old(Rest()) != [])
      ensures if ok then |piece| <= BUFFER && old(Rest()) == [piece] + Rest() else Rest() == old(Rest())
    {
      piece, ok := [], false;
      if isClosed || (offer.None? && writes == []) {
        return;
      }
      hide Pipes.Rest;
      if offer.None? {
        NextWriteBegins(writes);
        offer, writes := Some(Offer(0, writes[0], 0, false)), writes[1..];
      }
      ReadServes(offer.value, writes);
      piece, ok := NextRead(offer.value), true;
      offer := if Complete(AfterRead(offer.value)) then None else Some(AfterRead(offer.value));
    }

    /** One read into the buffer; what is beyond the bytes read stays as it was. */
    method Read(p: array<byte>) returns (n: nat, ok: bool)
      requires Valid() && p.Length == BUFFER
      modifies this, p
      ensures Valid() && isClosed == old(isClosed) && ok == (old(Rest()) != [])
      ensures n <= p.Length && p[n..] == old(p[n..])
      ensures if ok then old(Rest()) == [p[..n]] + Rest() else Rest() == old(Rest())
    {
      hide Rest, Valid;
      var piece: Bytes;
      piece, ok := Serve();
      n := if ok then |piece| else 0;
      for i := 0 to n
        invariant p[..i] == piece[..i] && p[n..] == old(p[n..])
        modifies p
      {
        p[i] := piece[i];
      }
      assert ok ==> p[..n] == piece;
    }

    method Close()
      requires Valid()
      modifies this
      ensures Valid() && isClosed && Rest() == []
    {
      isClosed := true;
    }
  }

  /** The part of a buffer that a queued message refers to; the bytes are not copied. */
  datatype Slice = Slice(buffer: array<byte>, n: nat)

  ghost predicate Sound(q: seq<Slice>) {
    && (forall i :: 0 <= i < |q| ==> q[i].n <= q[i].buffer.Length)
    && (forall i, j :: 0 <= i < j < |q| ==> q[i].buffer != q[j].buffer)
  }

  ghost function Contents(q: seq<Slice>): seq<Bytes>
    requires Sound(q)
    reads set i | 0 <= i < |q| :: q[i].buffer
  {
    seq(|q|, i requires 0 <= i < |q| reads if 0 <= i < |q| then {q[i].buffer} else {} => q[i].buffer[..q[i].n])
  }

  /** One round of that loop: a new buffer, a read into it, and a message that refers to it. */
  method ReadOne(pipe: Pipe, queue: seq<Slice>) returns (longer: seq<Slice>, ok: bool)
    requires pipe.Valid() && Sound(queue)
    modifies pipe
    ensures pipe.Valid() && Sound(longer) && Contents(queue) == old(Contents(queue))
    ensures ok == (old(pipe.Rest()) != [])
    ensures if ok then queue <= longer && |longer| == |queue| + 1 && fresh(longer[|queue|].buffer) else longer == queue
    ensures Contents(longer) + pipe.Rest() == Contents(queue) + old(pipe.Rest())
    ensures |pipe.Rest()| == |old(pipe.Rest())| - Min(1, |old(pipe.Rest())|)
  {
    hide Pipe.Rest, Pipe.Valid;
    var p := new byte[BUFFER];
    var n: nat;
    n, ok := pipe.Read(p);
    longer := if ok then queue + [Slice(p, n)] else queue;
    assert ok ==> Contents(longer) == Contents(queue) + [p[..n]];
  }

  /**
   The inner loop of sessionSendToServer: a new buffer for every read, so that the queued messages still hold, after
   all reads, what each read got.
   */
  method SendToServer(pipe: Pipe) returns (queue: seq<Slice>)
    requires pipe.Valid()
    modifies pipe
    ensures pipe.Valid() && Sound(queue) && forall i :: 0 <= i < |queue| ==> fresh(queue[i].buffer)
    ensures Contents(queue) == old(pipe.Rest()) && pipe.Rest() == []
  {
    hide Pipe.Rest, Pipe.Valid;
    queue := [];
    var ok := true;
    while ok
      invariant pipe.Valid() && (ok || pipe.Rest() == [])
      invariant Sound(queue) && forall i :: 0 <= i < |queue| ==> fresh(queue[i].buffer)
      invariant Contents(queue) + pipe.Rest() == old(pipe.Rest())
      decreases |pipe.Rest()|, ok
    {
      hide Sound, Contents;
      queue, ok := ReadOne(pipe, queue);
    }
  }

  /** The far end: it takes `lasts` more pieces before it fails. */
  class DownStream {
    var lasts: nat
    var received: Bytes

    constructor (lasts: nat)
      ensures this.lasts == lasts && received == []
    {
      this.lasts, received := lasts, [];
    }

    method Receive(p: array<byte>, n: nat) returns (ok: bool)
      requires n <= p.Length
      modifies this
      ensures ok == (old(lasts) > 0)
      ensures lasts == if ok then old(lasts) - 1 else 0
      ensures received == old(received) + if ok then p[..n] else []
    {
      ok := lasts > 0;
      if ok {
        received, lasts := received + p[..n], lasts - 1;
      }
    }
  }

  /** What a downstream that takes `lasts` more pieces gets of these. */
  function Through(pieces: seq<Bytes>, lasts: nat): Bytes {
    if pieces == [] || lasts == 0 then [] else pieces[0] + Through(pieces[1..], lasts - 1)
  }

  lemma {:induction false} ThroughIsABeginning(pieces: seq<Bytes>, lasts: nat)
    ensures Through(pieces, lasts) == Flatten(pieces[..Min(|pieces|, lasts)])
  {
    var n := Min(|pieces|, lasts);
    if n > 0 {
      ThroughIsABeginning(pieces[1..], lasts - 1);
      assert pieces[..n] == [pieces[0]] + pieces[1..][..n - 1];
      FlattenAppend([pieces[0]], pieces[1..][..n - 1]);
      assert [pieces[0]][..0] == [] && Flatten([pieces[0]]) == Flatten([]) + pieces[0];
    }
  }

  lemma OneMoreThrough(received: Bytes, piece: Bytes, rest: seq<Bytes>, lasts: nat)
    ensures received + Through([piece] + rest, lasts) ==
              if lasts == 0 then received else (received + piece) + Through(rest, lasts - 1)
  {
    assert ([piece] + rest)[1..] == rest;
  }

  lemma NoneThrough(pieces: seq<Bytes>, lasts: nat)
    requires pieces == [] || lasts == 0
    ensures Through(pieces, lasts) == []
  {
  }

  /** The loop that feeds downstream.Receive from one buffer used again and again. */
  method FeedDownstream(pipe: Pipe, downstream: DownStream)
    requires pipe.Valid()
    modifies pipe, downstream
    ensures downstream.received == old(downstream.received) + Through(old(pipe.Rest()), old(downstream.lasts))
  {
    var p := new byte[BUFFER];
    var ok := true;
    hide Pipe.Rest, Pipe.Valid, Through;
    while ok
      invariant pipe.Valid() && fresh(p)
      invariant downstream.received + Through(pipe.Rest(), downstream.lasts) ==
                  old(downstream.received) + Through(old(pipe.Rest()), old(downstream.lasts))
      invariant !ok ==> pipe.Rest() == [] || downstream.lasts == 0
      decreases |pipe.Rest()|, ok
    {
      var n: nat;
      n, ok := pipe.Read(p);
      if ok {
        OneMoreThrough(downstream.received, p[..n], pipe.Rest(), downstream.lasts);
        NoneThrough(pipe.Rest(), 0);
        ok := downstream.Receive(p, n);
      }
    }
    NoneThrough(pipe.Rest(), downstream.lasts);
  }

  class Session {
    const id: SessionId
    const protocol: Protocol
    const inward: Pipe      // from the server to the downstream
    const outward: Pipe     // from the downstream to the server
    var status: SessionStatus
    var annotation: Bytes

    constructor (id: SessionId, protocol: Protocol)
      ensures Valid() && this.id == id && this.protocol == protocol && status == NoStatus && annotation == []
      ensures fresh(inward) && fresh(outward) && !inward.isClosed && !outward.isClosed
      ensures inward.Rest() == [] && outward.Rest() == []
    {
      this.id, this.protocol, status, annotation := id, protocol, NoStatus, [];
      inward := new Pipe();
      outward := new Pipe();
    }

    predicate Valid()
      reads this, inward, outward
    {
      inward != outward && inward.Valid() && outward.Valid()
    }

    method SetStatus(wanted: SessionStatus)
      modifies this`status
      ensures status == AfterSet(old(status), wanted)
    {
      if status.SessionClosed? || status.DownstreamClosed? || status.UpstreamClosed? {
        return;
      }
      status := wanted;
    }

    method SetAnnotation(text: Bytes)
      modifies this`annotation
      ensures annotation == if status.SessionClosed? then old(annotation) else text
    {
      if status.SessionClosed? {
        return;
      }
      annotation := text;
    }

    method Close()
      requires Valid()
      modifies inward, outward
      ensures Valid() && inward.isClosed && outward.isClosed
      ensures inward.Rest() == [] && outward.Rest() == []
    {
      inward.Close();
      outward.Close();
    }
  }

  class Hub {
    var sessions: map<SessionId, Session>
    var sent: seq<TunnelMessage>               // what has been handed to the write loop
    ghost var handled: seq<HubHistory.Handled>

    constructor ()
      ensures Valid() && sessions == map[] && sent == [] && handled == []
    {
      sessions, sent, handled := map[], [], [];
    }

    ghost predicate Valid()
      reads this
    {
      && (forall k :: k in sessions ==> sessions[k].id == k)
      && sessions.Keys == HubHistory.Sessions(handled)
    }

    method Register(s: Session)
      requires Valid()
      modifies this
      ensures Valid() && handled == old(handled) + [HubHistory.SessionIn(s.id)]
      ensures sessions == old(sessions)[s.id := s] && sent == old(sent) + Handling.EnrolEffect(s.id)
      ensures sent == old(sent) + [TunnelMessage(s.id, Unset, CONNECT_MESSAGE, [])]
    {
      HubHistory.HandledOneMore(handled, HubHistory.SessionIn(s.id));
      sessions, handled := sessions[s.id := s], handled + [HubHistory.SessionIn(s.id)];
      sent := sent + [TunnelMessage(s.id, Unset, CONNECT_MESSAGE, [])];
    }

    method Unregister(s: Session)
      requires Valid() && s.Valid()
      modifies this, s.inward, s.outward
      ensures Valid() && handled == old(handled) + [HubHistory.SessionOut(s.id)] && s.Valid()
      ensures sessions == old(sessions) - {s.id}
      ensures sent == old(sent) + Handling.WithdrawEffect(s.id, s.status, s.annotation)
      ensures sent == old(sent) + if s.status.UpstreamClosed? then []
                                  else [TunnelMessage(s.id, Unset, CLOSE_MESSAGE, s.annotation)]
      ensures s.inward.isClosed == (old(s.inward.isClosed) || s.id in old(sessions))
      ensures s.outward.isClosed == (old(s.outward.isClosed) || s.id in old(sessions))
    {
      HubHistory.HandledOneMore(handled, HubHistory.SessionOut(s.id));
      handled := handled + [HubHistory.SessionOut(s.id)];
      if s.id in sessions {
        sessions := sessions - {s.id};
        s.Close();
      }
      if !s.status.UpstreamClosed? {
        sent := sent + [TunnelMessage(s.id, Unset, CLOSE_MESSAGE, s.annotation)];
      }
    }

    /** The ConnectMessage branch of Processor up to the select; `error` says why the downstream could not be opened. */
    method Connect(m: TunnelMessage, error: Option<Bytes>) returns (s: Session)
      requires Valid()
      modifies this
      ensures Valid() && s.Valid() && fresh(s) && s.id == m.session && s.protocol == m.protocol && s.status == NoStatus
      ensures error.None? ==> sessions == old(sessions)[m.session := s]
                              && sent == old(sent) + [TunnelMessage(m.session, Unset, CONNECT_MESSAGE, [])]
      ensures error.Some? ==> sessions == old(sessions) - {m.session}
                              && sent == old(sent) + [TunnelMessage(m.session, Unset, CLOSE_MESSAGE, error.value)]
    {
      s := new Session(m.session, m.protocol);
      if error.Some? {
        s.annotation := error.value;
        Unregister(s);
      } else {
        Register(s);
      }
    }

    /** What that branch does once the first of the three loops has ended. */
    method Finish(s: Session, cause: Option<Bytes>)
      requires Valid() && s.Valid()
      modifies this, s, s.inward, s.outward
      ensures Valid() && s.Valid() && sessions == old(sessions) - {s.id}
      ensures s.status == AfterSet(old(s.status), ProcessFailed)
      ensures sent == old(sent) + Handling.WithdrawEffect(s.id, s.status, s.annotation)
      ensures sent == old(sent) + if s.status.UpstreamClosed? then []
                                  else [TunnelMessage(s.id, Unset, CLOSE_MESSAGE, s.annotation)]
      ensures s.annotation == if cause.Some? && !old(s.status).SessionClosed? then cause.value else old(s.annotation)
      ensures s.inward.isClosed == (old(s.inward.isClosed) || s.id in old(sessions))
      ensures s.outward.isClosed == (old(s.outward.isClosed) || s.id in old(sessions))
    {
      if cause.Some? {
        s.SetAnnotation(cause.value);
      }
      s.SetStatus(ProcessFailed);
      Unregister(s);
    }

    /** Processor on every other message. */
    method Process(m: TunnelMessage)
      requires Valid() && m.action != CONNECT_MESSAGE
      requires m.session in sessions ==> sessions[m.session].Valid()
      modifies this`sent
      modifies if m.session in sessions
               then {sessions[m.session], sessions[m.session].inward, sessions[m.session].outward} else {}
      ensures Valid() && (m.session in sessions ==> sessions[m.session].Valid())
      ensures sent == old(sent) + if IsData(m) && m.session !in sessions
                                  then [TunnelMessage(m.session, Unset, CLOSE_MESSAGE, [])] else []
      ensures m.session in sessions ==> var s := sessions[m.session];
                && s.annotation == old(s.annotation)
                && s.status == (if m.action == CLOSE_MESSAGE then AfterSet(old(s.status), UpstreamClosed)
                                else old(s.status))
                && s.inward.isClosed == (old(s.inward.isClosed) || m.action == CLOSE_MESSAGE)
                && s.outward.isClosed == (old(s.outward.isClosed) || m.action == CLOSE_MESSAGE)
                && s.outward.Rest() == (if m.action == CLOSE_MESSAGE then [] else old(s.outward.Rest()))
                && s.inward.Rest() == (if m.action == CLOSE_MESSAGE then []
                                       else old(s.inward.Rest()) +
                                            if IsData(m) && !s.inward.isClosed then Split(m.payload) else [])
    {
      if m.action == PING_MESSAGE {
        return;
      }
      if m.action == CLOSE_MESSAGE {
        if m.session in sessions {
          var s := sessions[m.session];
          s.SetStatus(UpstreamClosed);
          s.Close();
        }
        return;
      }
      if m.session !in sessions {
        sent := sent + [TunnelMessage(m.session, Unset, CLOSE_MESSAGE, [])];
        return;
      }
      var _ := sessions[m.session].inward.Write(m.payload);
    }
  }

  // ---------- HTTP ----------

  datatype HttpResponse = HttpResponse(statusCode: int, body: Bytes)

  /** What the outside does to a request: it cannot be parsed, not be sent, its answer not be read, or it works. */
  datatype Outcome =
    | Unparsable(error: Bytes) | Unreachable(error: Bytes) | Unreadable(error: Bytes) | Answered(response: HttpResponse)

  datatype HttpReply = HttpReply(session: SessionId, protocol: Protocol, action: int, response: HttpResponse)

  const STATUS_BAD_REQUEST := 400
  const STATUS_REQUEST_TIMEOUT := 408

  /** httpProcessor: a request has exactly one reply, under its own session id, whatever the outside does. */
  method HttpProcessor(m: TunnelMessage, outcome: Outcome) returns (replies: seq<HttpReply>)
    ensures |replies| == Machine.Weight(m.action == CONNECT_MESSAGE)
    ensures forall r :: r in replies ==> r.session == m.session && r.protocol == m.protocol && r.action == m.action
    ensures forall r :: r in replies && outcome.Answered? ==> r.response == outcome.response
    ensures forall r :: r in replies && !outcome.Answered? ==>
              r.response.body == outcome.error &&
              (r.response.statusCode == 408 <==> outcome.Unreachable?) &&
              (r.response.statusCode == 400 <==> !outcome.Unreachable?)
  {
    if m.action != CONNECT_MESSAGE {
      return [];
    }
    var response;
    match outcome {
      case Unparsable(error) => response := HttpResponse(STATUS_BAD_REQUEST, error);
      case Unreachable(error) => response := HttpResponse(STATUS_REQUEST_TIMEOUT, error);
      case Unreadable(error) => response := HttpResponse(STATUS_BAD_REQUEST, error);
      case Answered(answer) => response := answer;
    }
    return [HttpReply(m.session, m.protocol, m.action, response)];
  }
}
