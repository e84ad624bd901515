/** Everything that holds of one session's view holds of every session in every state of every run. */
module Reachability {
  import opened Protocol
  import opened Machine
  import opened Projection
  import Srv = ServerInvariant
  import Agt = AgentInvariant
  import UpwardOrder
  import DownwardDelivery
  import HttpExchange
  import Endings
  import Duties
  import Ledger

  /** What session `s` sees of state `g`. */
  function View(g: State, s: SessionId): Local
    requires s < |g.nodes|
  {
    Project(At(g, s), s)
  }

  ghost predicate Good(s: SessionId, l: Local) {
    && Own(s, l.sh)
    && Srv.Inv(s, l)
    && Agt.Inv(l)
    && UpwardOrder.Inv(l)
    && DownwardDelivery.Inv(l)
    && HttpExchange.Inv(l)
    && Endings.Inv(l)
    && Duties.Inv(l)
    && Ledger.Inv(l)
  }

  /** No goroutine and no message belongs to a session that does not exist yet. */
  predicate Unseen(sh: Shared, t: SessionId) {
    See(sh, t) == IDLE || See(sh, t) == IDLE.(pump := PumpExited)
  }

  ghost predicate Whole(g: State) {
    && (forall s :: 0 <= s < |g.nodes| ==> Good(s, View(g, s)))
    && (forall t: SessionId :: t >= |g.nodes| ==> Unseen(g.sh, t))
  }

  lemma NewOwns(s: SessionId, l: Local, protocol: Protocol)
    requires IsNew(l, protocol)
    ensures Own(s, l.sh)
  {
  }

  /** One name for all of them. */
  lemma Together(s: SessionId, l: Local)
    requires Own(s, l.sh) && Srv.Inv(s, l) && Agt.Inv(l)
    requires UpwardOrder.Inv(l) && DownwardDelivery.Inv(l) && HttpExchange.Inv(l)
    requires Endings.Inv(l) && Duties.Inv(l) && Ledger.Inv(l)
    ensures Good(s, l)
  {
  }

  lemma GoodInitially(s: SessionId, l: Local, protocol: Protocol)
    requires IsNew(l, protocol)
    ensures Good(s, l)
  {
    hide *;
    NewOwns(s, l, protocol);
    Srv.Initially(s, l, protocol);
    Agt.Initially(l, protocol);
    UpwardOrder.Initially(l, protocol);
    DownwardDelivery.Initially(l, protocol);
    HttpExchange.Initially(l, protocol);
    Endings.Initially(l, protocol);
    Duties.Initially(l, protocol);
    Ledger.Initially(l, protocol);
    Together(s, l);
  }

  lemma GoodUndisturbed(s: SessionId, l: Local, sh': Shared)
    requires Good(s, l) && Quiet(l.sh, sh')
    ensures Good(s, l.(sh := sh'))
  {
    Srv.Undisturbed(s, l, sh');
    Agt.Undisturbed(l, sh');
    UpwardOrder.Undisturbed(l, sh');
    DownwardDelivery.Undisturbed(l, sh');
    HttpExchange.Undisturbed(l, sh');
    Endings.Undisturbed(l, sh');
    Ledger.Undisturbed(l, sh');
  }

  lemma GoodPreserved(s: SessionId, a: Action, l: Local, l': Local)
    requires Good(s, l) && Own(s, l'.sh) && Step(s, a, l, l')
    ensures Good(s, l')
  {
    hide Own, Srv.Inv, Agt.Inv, UpwardOrder.Inv, DownwardDelivery.Inv, HttpExchange.Inv, Endings.Inv,
         Duties.Inv, Ledger.Inv, Step;
    Srv.Preserved(s, a, l, l');
    Agt.Preserved(s, a, l, l');
    UpwardOrder.Preserved(s, a, l, l');
    DownwardDelivery.Preserved(s, a, l, l');
    HttpExchange.Preserved(s, a, l, l');
    Endings.Preserved(s, a, l, l');
    Duties.Preserved(s, a, l, l');
    Ledger.Preserved(s, a, l, l');
    Together(s, l');
  }

  lemma MovesPreserve(g: State, s: SessionId, a: Action, g': State)
    requires Whole(g) && Acts(g, s, a, g')
    ensures Whole(g')
  {
    hide Good, Step, Own, See, Quiet;
    var l, l' := At(g, s), At(g', s);
    forall t | 0 <= t < |g'.nodes| ensures Good(t, View(g', t)) {
      StepProjects(s, a, l, l', t);
      SeeOwns(g'.sh, t);
      if t == s {
        GoodPreserved(s, a, View(g, s), View(g', s));
      } else {
        GoodUndisturbed(t, View(g, t), See(g'.sh, t));
      }
    }
    forall t: SessionId | t >= |g'.nodes| ensures Unseen(g'.sh, t) {
      StepProjects(s, a, l, l', t);
      assert Unseen(g.sh, t);
    }
  }

  lemma NewView(g: State, protocol: Protocol, g': State)
    requires Unseen(g.sh, |g.nodes|) && Happens(g, Open(protocol), g')
    ensures |g'.nodes| == |g.nodes| + 1 && g'.sh == g.sh
    ensures IsNew(View(g', |g.nodes|), protocol)
    ensures forall s :: 0 <= s < |g.nodes| ==> View(g', s) == View(g, s)
  {
  }

  lemma OpensPreserve(g: State, protocol: Protocol, g': State)
    requires Whole(g) && Happens(g, Open(protocol), g')
    ensures Whole(g')
  {
    hide Good, IsNew, View, Happens, Unseen;
    var n := |g.nodes|;
    assert Unseen(g.sh, n);
    NewView(g, protocol, g');
    GoodInitially(n, View(g', n), protocol);
  }

  lemma CrashPreserves(g: State, g': State)
    requires Whole(g) && Happens(g, Crash, g')
    ensures Whole(g')
  {
    forall s | 0 <= s < |g'.nodes| ensures Good(s, View(g', s)) {
      assert View(g', s) == View(g, s);
    }
  }

  lemma HappensPreserves(g: State, e: Event, g': State)
    requires Whole(g) && Happens(g, e, g')
    ensures Whole(g')
  {
    match e
    case Move(s, a) => MovesPreserve(g, s, a, g');
    case Open(protocol) => OpensPreserve(g, protocol, g');
    case Crash => CrashPreserves(g, g');
  }

  lemma {:induction false} RunsAreWhole(run: seq<State>, events: seq<Event>, i: nat)
    requires IsRun(run, events) && i < |run|
    ensures Whole(run[i])
  {
    hide Happens, Good;
    if i == 0 {
      forall t: SessionId ensures Unseen(run[0].sh, t) {
      }
    } else {
      RunsAreWhole(run, events, i - 1);
      HappensPreserves(run[i - 1], events[i - 1], run[i]);
    }
  }

  /** The invariants of a session in any state of any run. */
  lemma Everywhere(run: seq<State>, events: seq<Event>, i: nat, s: SessionId)
    requires IsRun(run, events) && i < |run| && s < |run[i].nodes|
    ensures Good(s, View(run[i], s))
  {
    RunsAreWhole(run, events, i);
  }

  lemma ServerEverywhere(run: seq<State>, events: seq<Event>, i: nat, s: SessionId)
    requires IsRun(run, events) && i < |run| && s < |run[i].nodes|
    ensures Own(s, View(run[i], s).sh) && Srv.Inv(s, View(run[i], s))
  {
    hide IsRun, View, Own, Srv.Inv, Agt.Inv, UpwardOrder.Inv, DownwardDelivery.Inv, HttpExchange.Inv, Endings.Inv,
         Duties.Inv, Ledger.Inv;
    Everywhere(run, events, i, s);
  }
}
