/** When exactly the session callbacks fire: every call is paid for by one event of the hub, and no event recurs. */
module Callbacks {
  import opened Protocol
  import opened Machine
  import opened Projection
  import opened Reachability
  import opened History
  import Srv = ServerInvariant

  /** How often the two session callbacks have fired. */
  function Registrations(calls: seq<Callback>): nat {
    if calls == [] then 0 else Registrations(calls[..|calls| - 1]) + Weight(calls[|calls| - 1].Registered?)
  }

  function Unregistrations(calls: seq<Callback>): nat {
    if calls == [] then 0 else Unregistrations(calls[..|calls| - 1]) + Weight(calls[|calls| - 1].Unregistered?)
  }

  lemma OneMoreCall(calls: seq<Callback>, c: Callback)
    ensures Registrations(calls + [c]) == Registrations(calls) + Weight(c.Registered?)
    ensures Unregistrations(calls + [c]) == Unregistrations(calls) + Weight(c.Unregistered?)
  {
    assert (calls + [c])[..|calls|] == calls;
  }

  /**
   What the hub does that decides about callbacks: for the `request`-th register request it reads the status, which is
   or is not Connected; for an unregister request, the session's own or the write pump's, it takes the session off.
   */
  datatype Milestone = Checked(request: nat, connected: bool) | TookOff(own: bool)

  predicate Reaches(l: Local, a: Action, m: Milestone) {
    match m
    case Checked(request, connected) =>
      a == Hub(CheckConnected) && l.srv.member.registers == request && l.srv.cell.status.Connected? == connected
    case TookOff(own) =>
      a == Hub(RemoveSession) && l.sh.hub.HubRemoving? && l.sh.hub.own == own &&
      l.srv.member.stored && !l.srv.protocol.Http?
  }

  /** The event is this milestone of session `s`. */
  predicate Marks(g: State, e: Event, s: SessionId, m: Milestone) {
    e.Move? && e.s == s && s < |g.nodes| && Reaches(View(g, s), e.a, m)
  }

  /** How many of the first `i` events of the run are this milestone. */
  function Times(run: seq<State>, events: seq<Event>, i: nat, s: SessionId, m: Milestone): nat
    requires i <= |run| && i <= |events|
  {
    if i == 0 then 0 else Times(run, events, i - 1, s, m) + Weight(Marks(run[i - 1], events[i - 1], s, m))
  }

  function TimesOf(run: seq<State>, events: seq<Event>, i: nat, s: SessionId): Milestone -> nat
    requires i <= |run| && i <= |events|
  {
    (m: Milestone) => Times(run, events, i, s, m)
  }

  ghost predicate Ever(run: seq<State>, events: seq<Event>, i: nat, s: SessionId, m: Milestone)
    requires i <= |run| && i <= |events|
  {
    exists k :: 0 <= k < i && Marks(run[k], events[k], s, m)
  }

  lemma {:induction false} EverAtLeastOnce(run: seq<State>, events: seq<Event>, i: nat, s: SessionId, m: Milestone)
    requires i <= |run| && i <= |events|
    ensures Ever(run, events, i, s, m) <==> Times(run, events, i, s, m) > 0
  {
    hide Marks;
    if i > 0 {
      EverAtLeastOnce(run, events, i - 1, s, m);
    }
  }

  /** The hub has received a register request and not read the status for it yet. */
  predicate Pending(h: HubPc) {
    h.HubStoring? || h.HubChecking?
  }

  /** One status read for each register request at most, and none before the request; likewise for the removals. */
  predicate Tallied(l: Local, times: Milestone -> nat) {
    var h, member, calls := l.sh.hub, l.srv.member, l.srv.told.calls;
    var first := times(Checked(1, true)) + times(Checked(1, false));
    var second := times(Checked(2, true)) + times(Checked(2, false));
    && Registrations(calls) + Weight(h.HubCalling?) == times(Checked(1, true)) + times(Checked(2, true))
    && Unregistrations(calls) + Weight(h.HubUncalling?) == times(TookOff(true)) + times(TookOff(false))
    && first <= Weight(member.registers >= 1 && !(Pending(h) && member.registers == 1))
    && second <= Weight(member.registers >= 2 && !(Pending(h) && member.registers == 2))
    && times(TookOff(true)) <= Weight(member.ownRequest && !(h.HubRemoving? && h.own))
    && times(TookOff(false)) <= Weight(member.pumpRequests >= 1 && !(h.HubRemoving? && !h.own))
  }

  lemma HubTallies(s: SessionId, a: HubAction, l: Local, l': Local, times: Milestone -> nat, times': Milestone -> nat)
    requires Own(s, l.sh) && Srv.Inv(s, l) && HubStep(s, a, l, l') && Tallied(l, times)
    requires forall m :: times'(m) == times(m) + Weight(Reaches(l, Hub(a), m))
    ensures Tallied(l', times')
  {
    hide Registrations, Unregistrations;
    OneMoreCall(l.srv.told.calls, Registered(s));
    OneMoreCall(l.srv.told.calls, Unregistered(s));
  }

  lemma OnlyTheHubCalls(s: SessionId, a: Action, l: Local, l': Local)
    requires Step(s, a, l, l') && !a.Hub?
    ensures l'.sh.hub == l.sh.hub && l'.srv.told == l.srv.told
    ensures l'.srv.member.registers == l.srv.member.registers
    ensures l'.srv.member.pumpRequests == l.srv.member.pumpRequests
    ensures l'.srv.member.ownRequest == l.srv.member.ownRequest
  {
    hide ProxyStep, WriterStep, UpReaderStep, PumpStep, InboundStep,
         ReadStep, ConnStep, AgentHubStep, DataStep, TaskStep, StreamStep;
    match a
    case Proxy(p) => ProxyFrame(s, p, l, l');
    case Writer(w) => WriterFrame(w, l, l');
    case UpReader(r) => UpReaderFrame(r, l, l');
    case Pump(u) => PumpFrame(s, u, l, l');
    case Inbound(n) => InboundFrame(s, n, l, l');
    case _ => AgentSideFrame(s, a, l, l');
  }

  /** A step of the session itself. */
  lemma StepTallies(s: SessionId, a: Action, l: Local, l': Local, times: Milestone -> nat, times': Milestone -> nat)
    requires Own(s, l.sh) && Srv.Inv(s, l) && Step(s, a, l, l') && Tallied(l, times)
    requires forall m :: times'(m) == times(m) + Weight(Reaches(l, a, m))
    ensures Tallied(l', times')
  {
    if a.Hub? {
      hide Tallied, HubStep, Srv.Inv, Own, Reaches;
      HubTallies(s, a.h, l, l', times, times');
    } else {
      hide Registrations, Unregistrations, Step, Srv.Inv, Own;
      OnlyTheHubCalls(s, a, l, l');
    }
  }

  /** A step that is none of the session's own. */
  lemma QuietTallies(l: Local, l': Local, times: Milestone -> nat, times': Milestone -> nat)
    requires Quiet(l.sh, l'.sh) && l' == l.(sh := l'.sh) && Tallied(l, times)
    requires forall m :: times'(m) == times(m)
    ensures Tallied(l', times')
  {
  }

  lemma NewTallies(l: Local, protocol: Protocol, times: Milestone -> nat)
    requires IsNew(l, protocol) && forall m :: times(m) == 0
    ensures Tallied(l, times)
  {
  }

  lemma {:induction false} NothingBefore(run: seq<State>, events: seq<Event>, i: nat, s: SessionId, m: Milestone)
    requires i <= |run| && i <= |events| && forall k :: 0 <= k < i ==> s >= |run[k].nodes|
    ensures Times(run, events, i, s, m) == 0
  {
    if i > 0 {
      NothingBefore(run, events, i - 1, s, m);
    }
  }

  /** Sessions are never forgotten. */
  lemma {:induction false} NodesGrow(run: seq<State>, events: seq<Event>, i: nat, j: nat)
    requires IsRun(run, events) && i <= j < |run|
    ensures |run[i].nodes| <= |run[j].nodes|
    decreases j - i
  {
    hide Step, Init;
    if i < j {
      NodesGrow(run, events, i, j - 1);
      assert Happens(run[j - 1], events[j - 1], run[j]);
    }
  }

  /** The tally is right in every state of every run. */
  lemma {:induction false} AlwaysTallied(run: seq<State>, events: seq<Event>, i: nat, s: SessionId)
    requires IsRun(run, events) && i < |run| && s < |run[i].nodes|
    ensures Tallied(View(run[i], s), TimesOf(run, events, i, s))
  {
    hide Tallied, Step, View, Own, Srv.Inv, Unseen, IsNew, Good, Reaches;
    var times := TimesOf(run, events, i, s);
    if i > 0 {
      var before, e, after := run[i - 1], events[i - 1], run[i];
      if s < |before.nodes| {
        AlwaysTallied(run, events, i - 1, s);
        ServerEverywhere(run, events, i - 1, s);
        EventSeen(before, e, after, s);
        var l, l' := View(before, s), View(after, s);
        var earlier := TimesOf(run, events, i - 1, s);
        if e.Move? && e.s == s && Step(s, e.a, l, l') {
          StepTallies(s, e.a, l, l', earlier, times);
        } else {
          QuietTallies(l, l', earlier, times);
        }
      } else {
        RunsAreWhole(run, events, i - 1);
        assert Unseen(before.sh, |before.nodes|);
        NewView(before, e.protocol, after);
        forall m ensures times(m) == 0 {
          forall k | 0 <= k < i ensures s >= |run[k].nodes| {
            NodesGrow(run, events, k, i - 1);
          }
          NothingBefore(run, events, i, s, m);
        }
        NewTallies(View(after, s), e.protocol, times);
      }
    }
  }
}
