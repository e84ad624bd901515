/** Readings of a message queue, with what appending at the back and popping at the front does to them. */
module Queues {
  import opened Protocol

  /** The payloads of the data messages, in order. */
  function DataOf(q: seq<TunnelMessage>): seq<Bytes> {
    if q == [] then []
    else DataOf(q[..|q| - 1]) + if IsData(q[|q| - 1]) then [q[|q| - 1].payload] else []
  }

  /** The number of messages with this action. */
  function Count(q: seq<TunnelMessage>, action: int): nat {
    if q == [] then 0
    else Count(q[..|q| - 1], action) + if q[|q| - 1].action == action then 1 else 0
  }

  lemma DataAppend(q: seq<TunnelMessage>, m: TunnelMessage)
    ensures DataOf(q + [m]) == DataOf(q) + if IsData(m) then [m.payload] else []
  {
    assert (q + [m])[..|q|] == q;
  }

  lemma {:induction false} DataPop(q: seq<TunnelMessage>)
    requires |q| > 0
    ensures DataOf(q) == (if IsData(q[0]) then [q[0].payload] else []) + DataOf(q[1..])
  {
    var front := q[..|q| - 1];
    if |q| == 1 {
      assert front == [] && q[1..] == [];
    } else {
      DataPop(front);
      assert q[1..][..|q| - 2] == front[1..];
    }
  }

  lemma CountAppend(q: seq<TunnelMessage>, m: TunnelMessage, action: int)
    ensures Count(q + [m], action) == Count(q, action) + if m.action == action then 1 else 0
  {
    assert (q + [m])[..|q|] == q;
  }

  lemma {:induction false} CountPop(q: seq<TunnelMessage>, action: int)
    requires |q| > 0
    ensures Count(q, action) == (if q[0].action == action then 1 else 0) + Count(q[1..], action)
  {
    var front := q[..|q| - 1];
    if |q| == 1 {
      assert front == [] && q[1..] == [];
    } else {
      CountPop(front, action);
      assert q[1..][..|q| - 2] == front[1..];
    }
  }
}
