/**
 The read deadline of a connection and the pings that keep it from passing. A ping is answered by a pong that carries
 nothing else (sections 5.5.2 and 5.5.3 of RFC 6455); only pongs move the deadline, data frames do not.
 */
module Keepalive {
  import opened Protocol

  /** What the reading side gets, with the time at which it is read; the reader starts at time 0. */
  datatype Arrival = Pong(at: real) | Data(at: real)

  /** No read finds the deadline passed. */
  predicate Survives(deadline: real, arrivals: seq<Arrival>)
    decreases |arrivals|
  {
    arrivals == [] ||
    (arrivals[0].at <= deadline &&
     Survives(if arrivals[0].Pong? then arrivals[0].at + PONG_WAIT else deadline, arrivals[1..]))
  }

  /** The pong for the `k`-th ping: the ticker starts `skew` after the reader and its first tick is one period later. */
  function PongAt(skew: real, delay: nat -> real, k: nat): real {
    skew + (k + 1) as real * PING_PERIOD + delay(k)
  }

  /** The pongs from the `k`-th on in order, with data frames in between, each read before the next pong. */
  predicate Follows(arrivals: seq<Arrival>, skew: real, delay: nat -> real, k: nat) {
    arrivals == [] ||
    if arrivals[0].Pong?
    then arrivals[0].at == PongAt(skew, delay, k) && Follows(arrivals[1..], skew, delay, k + 1)
    else arrivals[0].at <= PongAt(skew, delay, k) && Follows(arrivals[1..], skew, delay, k)
  }

  ghost predicate Within(delay: nat -> real, bound: real) {
    forall k :: 0.0 <= delay(k) <= bound
  }

  function Late(skew: real): real {
    if skew > 0.0 then skew else 0.0
  }

  /** The deadline never passes, however many rounds there are, whatever the delays, whatever data comes in between. */
  ghost predicate Safe(skew: real, bound: real) {
    forall delay: nat -> real, arrivals ::
      Within(delay, bound) && Follows(arrivals, skew, delay, 0) ==> Survives(PONG_WAIT, arrivals)
  }

  /** From a deadline that the next pong meets, every later one is met. */
  lemma {:induction false} PongsKeepComing(skew: real, delay: nat -> real, bound: real, k: nat, deadline: real,
                                           arrivals: seq<Arrival>)
    requires Within(delay, bound) && bound <= PONG_WAIT - PING_PERIOD
    requires PongAt(skew, delay, k) <= deadline && Follows(arrivals, skew, delay, k)
    ensures Survives(deadline, arrivals)
    decreases |arrivals|
  {
    if arrivals != [] {
      if arrivals[0].Pong? {
        assert 0.0 <= delay(k) && delay(k + 1) <= bound;
        PongsKeepComing(skew, delay, bound, k + 1, arrivals[0].at + PONG_WAIT, arrivals[1..]);
      } else {
        PongsKeepComing(skew, delay, bound, k, deadline, arrivals[1..]);
      }
    }
  }

  lemma FirstPongTooLate(skew: real, bound: real)
    requires bound >= 0.0 && skew + bound > PONG_WAIT - PING_PERIOD
    ensures !Safe(skew, bound)
  {
    var delay: nat -> real := (k: nat) => bound;
    var arrivals := [Pong(PongAt(skew, delay, 0))];
    assert Within(delay, bound) && Follows(arrivals, skew, delay, 0);
    assert !Survives(PONG_WAIT, arrivals);
  }

  lemma SecondPongTooLate(skew: real, bound: real)
    requires bound > PONG_WAIT - PING_PERIOD
    ensures !Safe(skew, bound)
  {
    var delay: nat -> real := (k: nat) => if k == 0 then 0.0 else bound;
    var arrivals := [Pong(PongAt(skew, delay, 0)), Pong(PongAt(skew, delay, 1))];
    assert arrivals[1..] == [arrivals[1]] && arrivals[1..][1..] == [];
    assert Within(delay, bound) && Follows(arrivals[1..], skew, delay, 1) && Follows(arrivals, skew, delay, 0);
    assert !Survives(arrivals[0].at + PONG_WAIT, arrivals[1..]);
    assert !Survives(PONG_WAIT, arrivals);
  }

  /** The keepalive bound is exact. */
  lemma KeepaliveBound(skew: real, bound: real)
    requires bound >= 0.0
    ensures Safe(skew, bound) <==> Late(skew) + bound <= PONG_WAIT - PING_PERIOD
  {
    if Late(skew) + bound <= PONG_WAIT - PING_PERIOD {
      forall delay: nat -> real, arrivals | Within(delay, bound) && Follows(arrivals, skew, delay, 0)
        ensures Survives(PONG_WAIT, arrivals) {
        assert delay(0) <= bound;
        PongsKeepComing(skew, delay, bound, 0, PONG_WAIT, arrivals);
      }
    } else if skew > 0.0 {
      FirstPongTooLate(skew, bound);
    } else {
      SecondPongTooLate(skew, bound);
    }
  }

  /** The same in seconds. */
  lemma KeepaliveInSeconds(skew: real, bound: real)
    requires bound >= 0.0
    ensures Safe(skew, bound) <==> Late(skew) + bound <= 6.0
  {
    KeepaliveBound(skew, bound);
  }

  /** A pong keeps the connection for sixty seconds, and so does its beginning. */
  lemma PongsCountSixtySeconds(pong: real, next: real)
    ensures Survives(PONG_WAIT, [Pong(pong)]) <==> pong <= 60.0
    ensures pong <= 60.0 ==> (Survives(PONG_WAIT, [Pong(pong), Data(next)]) <==> next <= pong + 60.0)
  {
    assert [Pong(pong)][1..] == [] && [Data(next)][1..] == [];
    assert [Pong(pong), Data(next)][1..] == [Data(next)];
  }

  /** Without pongs the connection dies with its first read after the deadline, however much data came before it. */
  lemma {:induction false} DataDoesNotHelp(deadline: real, arrivals: seq<Arrival>)
    requires forall i :: 0 <= i < |arrivals| ==> arrivals[i].Data?
    ensures Survives(deadline, arrivals) <==> forall i :: 0 <= i < |arrivals| ==> arrivals[i].at <= deadline
    decreases |arrivals|
  {
    if arrivals != [] {
      DataDoesNotHelp(deadline, arrivals[1..]);
      assert forall i :: 1 <= i < |arrivals| ==> arrivals[i] == arrivals[1..][i - 1];
    }
  }

  /** The reading loop with its deadline and its pong handler: does it reach the end of what arrives? */
  method ReadLoop(arrivals: seq<Arrival>) returns (alive: bool)
    ensures alive <==> Survives(PONG_WAIT, arrivals)
  {
    var deadline := PONG_WAIT;
    assert arrivals[0..] == arrivals;
    for n := 0 to |arrivals|
      invariant Survives(PONG_WAIT, arrivals) <==> Survives(deadline, arrivals[n..])
    {
      assert arrivals[n..][0] == arrivals[n] && arrivals[n..][1..] == arrivals[n + 1..];
      if arrivals[n].at > deadline {
        return false;
      }
      if arrivals[n].Pong? {
        deadline := arrivals[n].at + PONG_WAIT;
      }
    }
    return true;
  }
}
