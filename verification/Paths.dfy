/** What can still happen from a state: continuations of a run. */
module Paths {
  import opened Protocol
  import opened Machine

  /** States linked by events, from any state. */
  predicate IsPath(path: seq<State>, events: seq<Event>) {
    |path| == |events| + 1 && forall i :: 0 <= i < |events| ==> Happens(path[i], events[i], path[i + 1])
  }

  ghost predicate Connects(path: seq<State>, events: seq<Event>, g: State, g': State) {
    IsPath(path, events) && path[0] == g && path[|path| - 1] == g'
  }

  /** Some continuation from `g` reaches `g'`. */
  ghost predicate Leads(g: State, g': State) {
    exists path, events :: Connects(path, events, g, g')
  }

  lemma LeadsToItself(g: State)
    ensures Leads(g, g)
  {
    assert Connects([g], [], g, g);
  }

  lemma LeadsOn(g: State, g': State, e: Event, g'': State)
    requires Leads(g, g') && Happens(g', e, g'')
    ensures Leads(g, g'')
  {
    hide Happens;
    var path, events :| Connects(path, events, g, g');
    var path', events' := path + [g''], events + [e];
    forall i | 0 <= i < |events'| ensures Happens(path'[i], events'[i], path'[i + 1]) {
      if i < |events| {
        assert path'[i] == path[i] && path'[i + 1] == path[i + 1] && events'[i] == events[i];
      }
    }
    assert Connects(path', events', g, g'');
  }

  /** One more step of session `s`, which touches nothing of the other sessions. */
  lemma Moves(g: State, g': State, s: SessionId, a: Action, l': Local) returns (g'': State)
    requires Leads(g, g') && !g'.crashed && s < |g'.nodes| && Step(s, a, At(g', s), l')
    ensures Leads(g, g'') && !g''.crashed && |g''.nodes| == |g'.nodes| && At(g'', s) == l'
    ensures forall t :: 0 <= t < |g'.nodes| && t != s ==> g''.nodes[t] == g'.nodes[t]
  {
    hide Step;
    g'' := g'.(sh := l'.sh, nodes := g'.nodes[s := Node(l'.srv, l'.agt)]);
    assert Happens(g', Move(s, a), g'');
    LeadsOn(g, g', Move(s, a), g'');
  }

  /** A continuation from a state of a run makes another run, the same up to that state. */
  lemma Continues(run: seq<State>, events: seq<Event>, i: nat, g: State)
    returns (run': seq<State>, events': seq<Event>, j: nat)
    requires IsRun(run, events) && i < |run| && Leads(run[i], g)
    ensures IsRun(run', events') && i <= j < |run'| && run'[j] == g
    ensures run'[..i + 1] == run[..i + 1] && events'[..i] == events[..i]
  {
    hide Happens, Init;
    var path, more :| Connects(path, more, run[i], g);
    run', events', j := run[..i] + path, events[..i] + more, i + |more|;
    forall k | 0 <= k < |events'| ensures Happens(run'[k], events'[k], run'[k + 1]) {
      if k < i {
        assert run'[k] == run[k] && events'[k] == events[k] && run'[k + 1] == run[k + 1];
      } else {
        assert run'[k] == path[k - i] && events'[k] == more[k - i] && run'[k + 1] == path[k - i + 1];
      }
    }
  }

  /** After a panic nothing happens. */
  lemma CrashIsTheEnd(g: State, g': State)
    requires Leads(g, g') && g.crashed
    ensures g' == g
  {
    var path, events :| Connects(path, events, g, g');
    assert |events| > 0 ==> Happens(path[0], events[0], path[1]);
  }
}
