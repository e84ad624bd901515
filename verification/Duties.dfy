/** What the agent does with what it is sent: data is delivered unless the session is gone, and a close takes effect. */
module Duties {
  import opened Protocol
  import opened Machine
  import opened Projection
  import opened Queues
  import Agt = AgentInvariant

  /** Data is refused only after the session was removed, and given up only after its pipe was closed. */
  ghost predicate DataInv(agt: AgentSession) {
    forall i :: 0 <= i < |agt.data| ==>
      && (agt.data[i].pc.Refusing? || agt.data[i].pc.Refused? ==> agt.life.stores == 1 && !agt.life.stored)
      && (agt.data[i].pc.Ended? ==> i in agt.inflow.delivered || agt.life.closed)
  }

  /** The close has found its session. */
  predicate Seized(c: CloserPc) {
    c.Marking? || c.Shutting? || c.Shut?
  }

  /** A close that has found its session marks it and then closes its pipes, and nothing else marks it that way. */
  ghost predicate CloserInv(agt: AgentSession) {
    && (forall c :: c in agt.closers ==>
          && (c.Shutting? || c.Shut? ==> Absorbing(agt.life.status) && agt.life.stores >= 1)
          && (c.Shut? ==> agt.life.closed))
    && (agt.life.status.NoStatus? || agt.life.status.ProcessFailed? || agt.life.status.UpstreamClosed?)
    && (agt.life.status.UpstreamClosed? ==> exists c :: c in agt.closers && (c.Shutting? || c.Shut?))
  }

  ghost predicate Inv(l: Local) {
    DataInv(l.agt) && CloserInv(l.agt)
  }

  /** What the other invariants contribute. */
  ghost predicate Known(l: Local) {
    && Agt.LifeInv(l.sh.agentHub, l.agt.life)
    && Agt.EarlyInv(l.agt)
    && Agt.KindInv(l)
    && Agt.RequestInv(l)
    && Agt.CausalInv(l)
  }

  lemma Initially(l: Local, protocol: Protocol)
    requires IsNew(l, protocol)
    ensures Inv(l)
  {
  }

  lemma ReadPreserves(s: SessionId, l: Local, l': Local)
    requires Known(l) && Inv(l) && ReadStep(s, l, l')
    ensures Inv(l')
  {
    CountPop(l.sh.down, CONNECT_MESSAGE);
  }

  lemma ConnPreserves(a: ConnAction, l: Local, l': Local)
    requires Known(l) && Inv(l) && ConnStep(a, l, l')
    ensures Inv(l')
  {
  }

  lemma AgentHubPreserves(s: SessionId, a: AgentHubAction, l: Local, l': Local)
    requires Known(l) && Inv(l) && AgentHubStep(s, a, l, l')
    ensures Inv(l')
  {
  }

  lemma DataPreserves(s: SessionId, i: nat, a: DataAction, l: Local, l': Local)
    requires Known(l) && Inv(l) && DataStep(s, i, a, l, l')
    ensures Inv(l')
  {
  }

  lemma TaskPreserves(s: SessionId, a: TaskAction, l: Local, l': Local)
    requires Known(l) && Inv(l) && TaskStep(s, a, l, l')
    ensures Inv(l')
  {
    var before, after := l.agt.closers, l'.agt.closers;
    if !a.HttpAnswer? {
      assert |after| == |before| && forall k :: 0 <= k < |before| && k != a.i ==> after[k] == before[k];
      assert after[a.i] in after;
      if c :| c in before && (c.Shutting? || c.Shut?) {
        var k :| 0 <= k < |before| && before[k] == c;
        assert after[k] in after;
      }
    }
  }

  lemma StreamPreserves(s: SessionId, a: StreamAction, l: Local, l': Local)
    requires Known(l) && Inv(l) && StreamStep(s, a, l, l')
    ensures Inv(l')
  {
  }

  lemma Preserved(s: SessionId, a: Action, l: Local, l': Local)
    requires Agt.Inv(l) && Inv(l) && Step(s, a, l, l')
    ensures Inv(l')
  {
    if ServerSide(a) {
      ServerSideFrame(s, a, l, l');
    } else {
      hide ReadStep, ConnStep, AgentHubStep, DataStep, TaskStep, StreamStep, Inv;
      match a
      case Read => ReadPreserves(s, l, l');
      case Conn(c) => ConnPreserves(c, l, l');
      case AgentHub(g) => AgentHubPreserves(s, g, l, l');
      case Data(i, d) => DataPreserves(s, i, d, l, l');
      case Task(k) => TaskPreserves(s, k, l, l');
      case Stream(x) => StreamPreserves(s, x, l, l');
    }
  }

  /** A close that has found its session is never forgotten. */
  lemma StaysSeized(s: SessionId, a: Action, l: Local, l': Local, i: nat)
    requires Step(s, a, l, l') && i < |l.agt.closers|
    ensures i < |l'.agt.closers| && (Seized(l.agt.closers[i]) ==> Seized(l'.agt.closers[i]))
  {
    hide ProxyStep, WriterStep, UpReaderStep, PumpStep, HubStep, InboundStep;
    if ServerSide(a) {
      ServerSideFrame(s, a, l, l');
    } else {
      match a
      case Read =>
      case Conn(c) =>
      case AgentHub(g) =>
      case Data(k, d) =>
      case Task(k) =>
      case Stream(x) =>
    }
  }
}
