/** io.Pipe as a value: at most one write in progress, consumed by reads of at most one buffer each. */
module Pipes {
  import opened Protocol

  /** The read buffers on both sides of an agent session have this many bytes. */
  const BUFFER: nat := 1024

  /** A write in progress: `met` says that some read has already been served from it. */
  datatype Offer = Offer(owner: nat, payload: Bytes, taken: nat, met: bool)

  predicate ValidOffer(o: Offer) {
    o.taken <= |o.payload| && (!o.met ==> o.taken == 0)
  }

  /** The write is over: every byte is gone and, for an empty write too, a reader has come by. */
  predicate Complete(o: Offer) {
    o.met && o.taken >= |o.payload|
  }

  function Min(a: nat, b: nat): nat {
    if a <= b then a else b
  }

  /** The bytes the next read gets. */
  function NextRead(o: Offer): Bytes
    requires ValidOffer(o)
  {
    o.payload[o.taken..o.taken + Min(BUFFER, |o.payload| - o.taken)]
  }

  function AfterRead(o: Offer): Offer
    requires ValidOffer(o)
  {
    o.(taken := o.taken + Min(BUFFER, |o.payload| - o.taken), met := true)
  }

  /** The reads that one write of `m` turns into when it is read to the end. */
  function Split(m: Bytes): seq<Bytes> {
    if |m| <= BUFFER then [m] else [m[..BUFFER]] + Split(m[BUFFER..])
  }

  function SplitAll(ms: seq<Bytes>): seq<Bytes> {
    if ms == [] then [] else SplitAll(ms[..|ms| - 1]) + Split(ms[|ms| - 1])
  }

  function Flatten(parts: seq<Bytes>): Bytes {
    if parts == [] then [] else Flatten(parts[..|parts| - 1]) + parts[|parts| - 1]
  }

  /** The reads an unfinished write still has to serve. */
  function Outstanding(o: Offer): seq<Bytes>
    requires ValidOffer(o)
  {
    if Complete(o) then [] else Split(o.payload[o.taken..])
  }

  lemma FlattenAppend(a: seq<Bytes>, b: seq<Bytes>)
    ensures Flatten(a + b) == Flatten(a) + Flatten(b)
  {
    if b == [] {
      assert a + b == a;
    } else {
      var front, last := b[..|b| - 1], b[|b| - 1];
      FlattenAppend(a, front);
      assert (a + b)[..|a + b| - 1] == a + front;
      assert Flatten(a + b) == Flatten(a + front) + last;
    }
  }

  /** Re-chunking: the number of reads, their size, and that together they are the message. */
  lemma {:induction false} SplitFacts(m: Bytes)
    ensures |Split(m)| == if |m| == 0 then 1 else (|m| + 1023) / 1024
    ensures forall i :: 0 <= i < |Split(m)| ==> |Split(m)[i]| <= 1024
    ensures forall i :: 0 <= i < |Split(m)| - 1 ==> |Split(m)[i]| == 1024
    ensures Flatten(Split(m)) == m
  {
    if |m| <= BUFFER {
      assert Split(m)[..0] == [];
      assert Flatten(Split(m)) == Flatten([]) + m;
    } else {
      SplitFacts(m[BUFFER..]);
      FlattenAppend([m[..BUFFER]], Split(m[BUFFER..]));
      assert [m[..BUFFER]][..0] == [];
      assert Flatten([m[..BUFFER]]) == m[..BUFFER];
    }
  }

  lemma {:induction false} SplitAllAppend(ms: seq<Bytes>, m: Bytes)
    ensures SplitAll(ms + [m]) == SplitAll(ms) + Split(m)
  {
    assert (ms + [m])[..|ms|] == ms;
  }

  lemma {:induction false} SplitAllFirst(m: Bytes, ms: seq<Bytes>)
    ensures SplitAll([m] + ms) == Split(m) + SplitAll(ms)
  {
    if ms == [] {
      assert [m] + ms == [] + [m];
      SplitAllAppend([], m);
    } else {
      var front, last := ms[..|ms| - 1], ms[|ms| - 1];
      SplitAllFirst(m, front);
      assert [m] + ms == ([m] + front) + [last] && ms == front + [last];
      SplitAllAppend([m] + front, last);
      SplitAllAppend(front, last);
    }
  }

  /** Over all messages: chunk bytes are message bytes. */
  lemma {:induction false} SplitAllFlatten(ms: seq<Bytes>)
    ensures Flatten(SplitAll(ms)) == Flatten(ms)
  {
    if ms != [] {
      SplitAllFlatten(ms[..|ms| - 1]);
      SplitFacts(ms[|ms| - 1]);
      FlattenAppend(SplitAll(ms[..|ms| - 1]), Split(ms[|ms| - 1]));
    }
  }

  /** One read takes exactly the first outstanding piece off an unfinished write. */
  lemma ReadServesNextPiece(o: Offer)
    requires ValidOffer(o) && !Complete(o)
    ensures ValidOffer(AfterRead(o))
    ensures Outstanding(o) == [NextRead(o)] + Outstanding(AfterRead(o))
  {
    var rest := o.payload[o.taken..];
    if |rest| > BUFFER {
      assert rest[..BUFFER] == NextRead(o);
      assert rest[BUFFER..] == o.payload[AfterRead(o).taken..];
    } else {
      assert rest == NextRead(o);
    }
  }

  /** A pipe's write in progress is one that has not been read to the end. */
  predicate InProgress(offer: Option<Offer>) {
    offer.Some? ==> ValidOffer(offer.value) && !Complete(offer.value)
  }

  /** What the reads to come will get, one by one, from the write in progress and those that wait. */
  function Rest(offer: Option<Offer>, writes: seq<Bytes>): seq<Bytes>
    requires InProgress(offer)
  {
    (if offer.Some? then Outstanding(offer.value) else []) + SplitAll(writes)
  }

  lemma NextWriteBegins(writes: seq<Bytes>)
    requires writes != []
    ensures Rest(None, writes) == Rest(Some(Offer(0, writes[0], 0, false)), writes[1..])
  {
    assert writes == [writes[0]] + writes[1..];
    SplitAllFirst(writes[0], writes[1..]);
    assert writes[0][0..] == writes[0];
  }

  lemma ReadServes(o: Offer, writes: seq<Bytes>)
    requires ValidOffer(o) && !Complete(o)
    ensures var next := if Complete(AfterRead(o)) then None else Some(AfterRead(o));
            InProgress(next) && Rest(Some(o), writes) == [NextRead(o)] + Rest(next, writes)
    ensures |NextRead(o)| <= BUFFER
  {
    ReadServesNextPiece(o);
  }
}
