/**
 Bounce termination: between two inputs from outside only so many protocol steps can happen, summed over all sessions
 and whatever the interleaving.
 */
module Bounce {
  import opened Protocol
  import opened Machine
  import opened Projection
  import opened Reachability
  import opened Rank

  function SumTo(g: State, n: nat): nat
    requires n <= |g.nodes|
  {
    if n == 0 then 0 else SumTo(g, n - 1) + SessionRank(View(g, n - 1))
  }

  /** The protocol steps the system still owes. */
  function Total(g: State): nat {
    SumTo(g, |g.nodes|) + Alive(g.sh) + Weight(!g.crashed)
  }

  lemma {:induction false} SumChanges(g: State, g': State, s: SessionId, n: nat)
    requires n <= |g.nodes| && n <= |g'.nodes|
    requires forall t :: 0 <= t < n && t != s ==> SessionRank(View(g', t)) == SessionRank(View(g, t))
    ensures s >= n ==> SumTo(g', n) == SumTo(g, n)
    ensures s < n ==> SumTo(g', n) == SumTo(g, n) - SessionRank(View(g, s)) + SessionRank(View(g', s))
    ensures s < n ==> SumTo(g, n) >= SessionRank(View(g, s))
  {
    hide SessionRank, View;
    if n > 0 {
      SumChanges(g, g', s, n - 1);
    }
  }

  /** What an event brings in from outside. */
  function EventCost(e: Event): nat {
    match e
    case Move(s, a) => Cost(a)
    case Open(_) => 86
    case Crash => 0
  }

  lemma AliveSeen(sh: Shared, s: SessionId)
    ensures Alive(See(sh, s)) == Alive(sh)
  {
  }

  lemma MovePays(g: State, s: SessionId, a: Action, g': State)
    requires Happens(g, Move(s, a), g')
    ensures Total(g') <= Total(g) + Cost(a)
    ensures Internal(a) ==> Total(g') < Total(g)
  {
    hide SessionRank, Step, Quiet, See, Cost;
    forall t | 0 <= t < |g.nodes| && t != s ensures SessionRank(View(g', t)) == SessionRank(View(g, t)) {
      StepProjects(s, a, At(g, s), At(g', s), t);
      QuietKeeps(View(g, t), See(g'.sh, t));
      assert View(g', t) == View(g, t).(sh := See(g'.sh, t));
    }
    StepProjects(s, a, At(g, s), At(g', s), s);
    StepUses(s, a, View(g, s), View(g', s));
    AliveSeen(g.sh, s);
    AliveSeen(g'.sh, s);
    SumChanges(g, g', s, |g.nodes|);
  }

  lemma NewAgentRank()
    ensures AgentRank(NO_AGENT_SESSION) == 0
  {
  }

  lemma NewSharedRank(sh: Shared)
    requires sh == IDLE || sh == IDLE.(pump := PumpExited)
    ensures SharedRank(sh) == 0
  {
  }

  lemma NewRank(l: Local, protocol: Protocol)
    requires IsNew(l, protocol)
    ensures SessionRank(l) == 86
  {
    hide AgentRank, SharedRank;
    NewAgentRank();
    NewSharedRank(l.sh);
  }

  lemma OpenPays(g: State, protocol: Protocol, g': State)
    requires Happens(g, Open(protocol), g') && Unseen(g.sh, |g.nodes|)
    ensures Total(g') == Total(g) + 86
  {
    var n := |g.nodes|;
    NewView(g, protocol, g');
    NewRank(View(g', n), protocol);
    hide SessionRank, View, IsNew;
    SumChanges(g, g', n, n);
  }

  lemma CrashPays(g: State, g': State)
    requires Happens(g, Crash, g')
    ensures Total(g') < Total(g)
  {
    hide SessionRank;
    forall t | 0 <= t < |g.nodes| ensures View(g', t) == View(g, t) {
    }
    SumChanges(g, g', |g.nodes|, |g.nodes|);
  }

  lemma EventPays(g: State, e: Event, g': State)
    requires Whole(g) && Happens(g, e, g')
    ensures Total(g') + Weight(EventCost(e) == 0) <= Total(g) + EventCost(e)
  {
    hide Total, Happens, Good, Unseen, Cost;
    assert Unseen(g.sh, |g.nodes|);
    match e
    case Move(s, a) => MovePays(g, s, a, g');
    case Open(protocol) => OpenPays(g, protocol, g');
    case Crash =>
      CrashPays(g, g');
  }

  /** The events that bring nothing in. */
  function Internals(events: seq<Event>): nat {
    if events == [] then 0
    else Internals(events[..|events| - 1]) + Weight(EventCost(events[|events| - 1]) == 0)
  }

  function Inputs(events: seq<Event>): nat {
    if events == [] then 0 else Inputs(events[..|events| - 1]) + EventCost(events[|events| - 1])
  }

  lemma {:induction false} RunPays(run: seq<State>, events: seq<Event>, i: nat)
    requires IsRun(run, events) && i < |run|
    ensures Total(run[i]) + Internals(events[..i]) <= 2 + Inputs(events[..i])
  {
    hide Happens, Whole;
    if i == 0 {
      assert events[..0] == [];
    } else {
      RunPays(run, events, i - 1);
      RunsAreWhole(run, events, i - 1);
      EventPays(run[i - 1], events[i - 1], run[i]);
      assert events[..i][..i - 1] == events[..i - 1];
    }
  }

  /**
   Over a whole run, the steps without outside input are bounded by the input: 86 for each request to `proxy`, n + 30
   for an upstream frame of n bytes, 15 n + 16 for a downstream message of n bytes, and 2 for the connection.
   */
  lemma BouncesTerminate(run: seq<State>, events: seq<Event>)
    requires IsRun(run, events)
    ensures Internals(events) <= 2 + Inputs(events)
  {
    RunPays(run, events, |events|);
    assert events[..|events|] == events;
  }

  /** From any reachable state, a stretch without input is no longer than what the state still owes. */
  lemma {:induction false} QuietStretchIsShort(run: seq<State>, events: seq<Event>, i: nat, j: nat)
    requires IsRun(run, events) && i <= j < |run|
    requires forall k :: i <= k < j ==> EventCost(events[k]) == 0
    ensures j - i + Total(run[j]) <= Total(run[i])
    decreases j - i
  {
    hide Happens, Whole, Init, Total;
    if i < j {
      QuietStretchIsShort(run, events, i, j - 1);
      RunsAreWhole(run, events, j - 1);
      EventPays(run[j - 1], events[j - 1], run[j]);
    }
  }
}
