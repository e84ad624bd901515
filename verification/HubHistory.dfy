/** What the server's hub has handled, and what its maps and its client callbacks owe to that. */
module HubHistory {
  import opened Protocol

  /** A request the hub has dealt with completely. */
  datatype Handled =
    | ClientIn(agent: string) | ClientOut(agent: string) | SessionIn(id: SessionId) | SessionOut(id: SessionId)

  datatype ClientCall = Up(agent: string) | Gone(agent: string)

  function Clients(h: seq<Handled>): set<string> {
    if h == [] then {}
    else
      var before := Clients(h[..|h| - 1]);
      match h[|h| - 1]
      case ClientIn(agent) => before + {agent}
      case ClientOut(agent) => before - {agent}
      case _ => before
  }

  function Sessions(h: seq<Handled>): set<SessionId> {
    if h == [] then {}
    else
      var before := Sessions(h[..|h| - 1]);
      match h[|h| - 1]
      case SessionIn(id) => before + {id}
      case SessionOut(id) => before - {id}
      case _ => before
  }

  /** The client callbacks: one for every registration, one for every unregistration that finds its client. */
  function Calls(h: seq<Handled>): seq<ClientCall> {
    if h == [] then []
    else
      var front := h[..|h| - 1];
      match h[|h| - 1]
      case ClientIn(agent) => Calls(front) + [Up(agent)]
      case ClientOut(agent) => if agent in Clients(front) then Calls(front) + [Gone(agent)] else Calls(front)
      case _ => Calls(front)
  }

  /** One more request, and what it does to the maps and the callbacks. */
  lemma HandledOneMore(h: seq<Handled>, e: Handled)
    ensures Clients(h + [e]) == if e.ClientIn? then Clients(h) + {e.agent}
                                else if e.ClientOut? then Clients(h) - {e.agent} else Clients(h)
    ensures Sessions(h + [e]) == if e.SessionIn? then Sessions(h) + {e.id}
                                 else if e.SessionOut? then Sessions(h) - {e.id} else Sessions(h)
    ensures Calls(h + [e]) == Calls(h) + if e.ClientIn? then [Up(e.agent)]
                                         else if e.ClientOut? && e.agent in Clients(h) then [Gone(e.agent)] else []
  {
    assert (h + [e])[..|h|] == h;
  }

  /** The `k`-th request registers, and no later one unregisters. */
  predicate RegisteredSince(h: seq<Handled>, agent: string, k: nat) {
    k < |h| && h[k] == ClientIn(agent) && forall j :: k < j < |h| ==> h[j] != ClientOut(agent)
  }

  predicate StoredSince(h: seq<Handled>, id: SessionId, k: nat) {
    k < |h| && h[k] == SessionIn(id) && forall j :: k < j < |h| ==> h[j] != SessionOut(id)
  }

  /** The maps remember the last word on each id. */
  lemma {:induction false} ClientsByLastWord(h: seq<Handled>, agent: string)
    ensures agent in Clients(h) <==> exists k: nat :: RegisteredSince(h, agent, k)
  {
    if h != [] {
      var front := h[..|h| - 1];
      ClientsByLastWord(front, agent);
      if agent in Clients(h) {
        if h[|h| - 1] == ClientIn(agent) {
          assert RegisteredSince(h, agent, |h| - 1);
        } else {
          var k: nat :| RegisteredSince(front, agent, k);
          assert RegisteredSince(h, agent, k);
        }
      }
      if k: nat :| RegisteredSince(h, agent, k) {
        assert k < |front| ==> RegisteredSince(front, agent, k);
      }
    }
  }

  lemma {:induction false} SessionsByLastWord(h: seq<Handled>, id: SessionId)
    ensures id in Sessions(h) <==> exists k: nat :: StoredSince(h, id, k)
  {
    if h != [] {
      var front := h[..|h| - 1];
      SessionsByLastWord(front, id);
      if id in Sessions(h) {
        if h[|h| - 1] == SessionIn(id) {
          assert StoredSince(h, id, |h| - 1);
        } else {
          var k: nat :| StoredSince(front, id, k);
          assert StoredSince(h, id, k);
        }
      }
      if k: nat :| StoredSince(h, id, k) {
        assert k < |front| ==> StoredSince(front, id, k);
      }
    }
  }

  /** The `k`-th call announces the client, and no later one takes that back. */
  predicate UpSince(calls: seq<ClientCall>, agent: string, k: nat) {
    k < |calls| && calls[k] == Up(agent) && forall j :: k < j < |calls| ==> calls[j] != Gone(agent)
  }

  lemma UpStays(calls: seq<ClientCall>, more: seq<ClientCall>, agent: string, k: nat)
    requires UpSince(calls, agent, k) && Gone(agent) !in more
    ensures UpSince(calls + more, agent, k)
  {
  }

  lemma {:induction false} PresenceWasCalled(h: seq<Handled>, agent: string) returns (k: nat)
    requires agent in Clients(h)
    ensures UpSince(Calls(h), agent, k)
  {
    var front, last := h[..|h| - 1], h[|h| - 1];
    if last == ClientIn(agent) {
      k := |Calls(front)|;
    } else {
      k := PresenceWasCalled(front, agent);
      UpStays(Calls(front), Calls(h)[|Calls(front)|..], agent, k);
      assert Calls(h) == Calls(front) + Calls(h)[|Calls(front)|..];
    }
  }

  lemma OutIsCalled(h: seq<Handled>, agent: string)
    requires h != []
    ensures h[|h| - 1] == ClientOut(agent) && agent in Clients(h[..|h| - 1]) ==>
              |Calls(h)| == |Calls(h[..|h| - 1])| + 1 && Calls(h)[|Calls(h[..|h| - 1])|] == Gone(agent)
  {
  }

  lemma {:induction false} CalledIsPresent(h: seq<Handled>, agent: string, k: nat)
    requires UpSince(Calls(h), agent, k)
    ensures agent in Clients(h)
  {
    var front, last := h[..|h| - 1], h[|h| - 1];
    if k < |Calls(front)| {
      assert forall j :: 0 <= j < |Calls(front)| ==> Calls(h)[j] == Calls(front)[j];
      CalledIsPresent(front, agent, k);
      OutIsCalled(h, agent);
    }
  }

  /** The listener who follows the callbacks knows which clients are registered. */
  lemma CallsTellPresence(h: seq<Handled>, agent: string)
    ensures agent in Clients(h) ==> exists k: nat :: UpSince(Calls(h), agent, k)
    ensures (exists k: nat :: UpSince(Calls(h), agent, k)) ==> agent in Clients(h)
  {
    if agent in Clients(h) {
      var k := PresenceWasCalled(h, agent);
    }
    forall k: nat | UpSince(Calls(h), agent, k) ensures agent in Clients(h) {
      CalledIsPresent(h, agent, k);
    }
  }

  /** Before an unregister callback there is a register callback, and no unregister callback in between. */
  lemma {:induction false} GoneNeedsUp(h: seq<Handled>, agent: string, j: nat)
    requires j < |Calls(h)| && Calls(h)[j] == Gone(agent)
    ensures exists k: nat :: UpSince(Calls(h)[..j], agent, k)
  {
    var front := h[..|h| - 1];
    var before := Calls(front);
    if j < |before| {
      GoneNeedsUp(front, agent, j);
      assert Calls(h)[..j] == before[..j];
    } else {
      CallsTellPresence(front, agent);
      assert Calls(h)[..j] == before;
    }
  }

  /** Between two unregister callbacks for a client there is a register callback for it. */
  lemma UpBetweenGone(h: seq<Handled>, agent: string, i: nat, j: nat)
    requires i < j < |Calls(h)| && Calls(h)[i] == Gone(agent) && Calls(h)[j] == Gone(agent)
    ensures exists k: nat :: i < k < j && Calls(h)[k] == Up(agent)
  {
    GoneNeedsUp(h, agent, j);
    var k: nat :| UpSince(Calls(h)[..j], agent, k);
    assert Calls(h)[..j][i] == Gone(agent);
    assert Calls(h)[k] == Up(agent);
  }
}
