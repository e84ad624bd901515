/** Runs that exist: what the code does not prevent. */
module Witnesses {
  import opened Protocol
  import opened Pipes
  import opened Machine
  import opened Reachability
  import opened Paths
  import opened History
  import opened Callbacks
  import opened LeftBehind
  import opened Theorems
  import HubHistory
  import Objects = ServerObjects
  import ServerHub

  const HELLO: Bytes := [104, 105]
  const ECHO: Bytes := [111]
  const BYE: Bytes := [98, 121, 101]

  /** The run with one more step of session `s`. */
  lemma Extend(run: seq<State>, events: seq<Event>, s: SessionId, a: Action, l': Local)
    returns (run': seq<State>, events': seq<Event>)
    requires IsRun(run, events) && !run[|run| - 1].crashed && s < |run[|run| - 1].nodes|
    requires Step(s, a, At(run[|run| - 1], s), l')
    ensures IsRun(run', events') && |run'| == |run| + 1
    ensures !run'[|run'| - 1].crashed && |run'[|run'| - 1].nodes| == |run[|run| - 1].nodes|
    ensures At(run'[|run'| - 1], s) == l'
  {
    hide Step, Init;
    var g := run[|run| - 1];
    var g' := g.(sh := l'.sh, nodes := g.nodes[s := Node(l'.srv, l'.agt)]);
    run', events' := run + [g'], events + [Move(s, a)];
    assert Happens(g, Move(s, a), g');
    forall i | 0 <= i < |events'| ensures Happens(run'[i], events'[i], run'[i + 1]) {
      if i < |events| {
        assert run'[i] == run[i] && run'[i + 1] == run[i + 1];
      }
    }
  }

  /** The only session there is, when the hub has received its first register request and not stored it yet. */
  function FirstReceived(): Local {
    var srv := NewServerSession(Websocket);
    Local(IDLE.(hub := HubStoring(0), down := [TunnelMessage(0, Websocket, CONNECT_MESSAGE, [])]),
          srv.(agentSet := true, proxy := Relaying, reader := Reading, member := srv.member.(registers := 1)),
          NO_AGENT_SESSION)
  }

  lemma FirstReceivedHappens() returns (run: seq<State>, events: seq<Event>)
    ensures IsRun(run, events) && !run[|run| - 1].crashed && |run[|run| - 1].nodes| == 1
    ensures At(run[|run| - 1], 0) == FirstReceived()
  {
    var g0 := State(IDLE, [], false);
    var g1 := g0.(nodes := [Node(NewServerSession(Websocket), NO_AGENT_SESSION)]);
    run, events := [g0, g1], [Open(Websocket)];
    assert IsRun(run, events);
    hide IsRun;
    var l := At(g1, 0);
    var l1 := l.(srv := l.srv.(agentSet := true, proxy := Preparing));
    run, events := Extend(run, events, 0, Proxy(LoadAgent(true)), l1);
    var connect := TunnelMessage(0, Websocket, CONNECT_MESSAGE, []);
    var l2 := l1.(sh := l1.sh.(down := l1.sh.down + [connect]), srv := l1.srv.(proxy := Announcing));
    run, events := Extend(run, events, 0, Proxy(WriteConnect), l2);
    run, events := Extend(run, events, 0, Hub(TakeRegister), FirstReceived());
  }

  /** The handler is done, the hub has drained, and the session is on the map with its channel closed. */
  function LeftOver(): Local {
    var l := FirstReceived();
    l.(sh := l.sh.(hub := HubIdle),
       srv := l.srv.(proxy := Finished,
                     member := l.srv.member.(stored := true, everStored := true, missPending := true,
                                             isClosed := true, closes := 1)))
  }

  lemma LeftOverHappens() returns (run: seq<State>, events: seq<Event>)
    ensures IsRun(run, events) && !run[|run| - 1].crashed && |run[|run| - 1].nodes| == 1
    ensures At(run[|run| - 1], 0) == LeftOver()
  {
    hide IsRun;
    run, events := FirstReceivedHappens();
    var l3 := FirstReceived();
    var l4 := l3.(srv := l3.srv.(proxy := Leaving));
    run, events := Extend(run, events, 0, Writer(StopRelay), l4);
    var l5 := l4.(srv := l4.srv.(proxy := Closing, member := l4.srv.member.(missPending := true)));
    run, events := Extend(run, events, 0, Proxy(LookUpSelf), l5);
    var l6 := l5.(sh := l5.sh.(hub := HubChecking(0)),
                  srv := l5.srv.(member := l5.srv.member.(stored := true, everStored := true)));
    run, events := Extend(run, events, 0, Hub(StoreSession), l6);
    var l7 := l6.(sh := l6.sh.(hub := HubIdle));
    run, events := Extend(run, events, 0, Hub(CheckConnected), l7);
    run, events := Extend(run, events, 0, Proxy(CloseSelf), LeftOver());
  }

  /** It does happen: the relay stops between the hub's receipt of the register request and its Store. */
  lemma LeftBehindHappens() returns (run: seq<State>, events: seq<Event>)
    ensures |run| > 0 && Reached(run, events, |run| - 1, 0)
    ensures Server(run, |run| - 1, 0).proxy.Finished? && Drained(run[|run| - 1], 0)
    ensures Server(run, |run| - 1, 0).member.stored
    ensures Stranded(run[|run| - 1].sh, Server(run, |run| - 1, 0), 0)
  {
    run, events := LeftOverHappens();
    assert |run| > 0 && At(run[|run| - 1], 0) == LeftOver();
    hide IsRun;
  }

  /** The agent has acknowledged the session left behind, and the inbound pump offers that to the closed channel. */
  function Offered(): Local {
    var l, agt := LeftOver(), NO_AGENT_SESSION;
    Local(l.sh.(down := [], inbound := InDelivering(TunnelMessage(0, Unset, CONNECT_MESSAGE, []))),
          l.srv.(traffic := Traffic(1, 0, 0, 0)),
          agt.(life := agt.life.(conn := Serving, stored := true, stores := 1, control := [CONNECT_MESSAGE]),
               inflow := agt.inflow.(receiving := true),
               outflow := agt.outflow.(sending := true, chunking := true)))
  }

  lemma OfferedHappens() returns (run: seq<State>, events: seq<Event>)
    ensures IsRun(run, events) && !run[|run| - 1].crashed && |run[|run| - 1].nodes| == 1
    ensures At(run[|run| - 1], 0) == Offered()
  {
    hide IsRun;
    run, events := LeftOverHappens();
    var l, ack := LeftOver(), TunnelMessage(0, Unset, CONNECT_MESSAGE, []);
    var l1 := l.(sh := l.sh.(down := []), agt := l.agt.(life := l.agt.life.(conn := Opening)));
    run, events := Extend(run, events, 0, Read, l1);
    var l2 := l1.(agt := l1.agt.(life := l1.agt.life.(conn := Enrolling), inflow := l1.agt.inflow.(receiving := true),
                                 outflow := l1.agt.outflow.(sending := true, chunking := true)));
    run, events := Extend(run, events, 0, Conn(OpenDownstream(true, [])), l2);
    var l3 := l2.(sh := l2.sh.(agentHub := AgentStoring(0)), agt := l2.agt.(life := l2.agt.life.(conn := Serving)));
    run, events := Extend(run, events, 0, AgentHub(AgentTakeRegister), l3);
    var l4 := l3.(sh := l3.sh.(agentHub := AgentAcking(0)),
                  agt := l3.agt.(life := l3.agt.life.(stored := true, stores := 1)));
    run, events := Extend(run, events, 0, AgentHub(AgentStore), l4);
    var l5 := l4.(sh := l4.sh.(agentHub := AgentIdle, up := [ack]),
                  agt := l4.agt.(life := l4.agt.life.(control := [CONNECT_MESSAGE])));
    run, events := Extend(run, events, 0, AgentHub(AgentAck), l5);
    var l6 := l5.(sh := l5.sh.(up := [], inbound := InLooking(ack)), srv := l5.srv.(traffic := Traffic(1, 0, 0, 0)));
    run, events := Extend(run, events, 0, Inbound(Receive), l6);
    run, events := Extend(run, events, 0, Inbound(LookUpTarget), Offered());
  }

  /** A session left behind ends the run as soon as the agent acknowledges it: a send on its closed channel. */
  lemma LeftBehindPanicsHappens() returns (run: seq<State>, events: seq<Event>, i: nat)
    ensures IsRun(run, events) && i < |run| && run[i].crashed
    ensures |run[i].nodes| == 1 && run[i].nodes[0].srv.member.stored
  {
    run, events := OfferedHappens();
    var g := run[|run| - 1];
    assert At(g, 0) == Offered();
    hide IsRun;
    LeadsToItself(g);
    LeadsOn(g, g, Crash, g.(crashed := true));
    run, events, i := Continues(run, events, |run| - 1, g.(crashed := true));
  }

  /** The agent has stored and acknowledged the session; the server's hub has not read its status yet. */
  function Acknowledged(): Local {
    var l := FirstReceived();
    var agt := NO_AGENT_SESSION;
    Local(IDLE.(hub := HubChecking(0), up := [TunnelMessage(0, Unset, CONNECT_MESSAGE, [])]),
          l.srv.(member := l.srv.member.(stored := true, everStored := true)),
          agt.(life := agt.life.(conn := Serving, stored := true, stores := 1, control := [CONNECT_MESSAGE]),
               inflow := agt.inflow.(receiving := true),
               outflow := agt.outflow.(sending := true, chunking := true)))
  }

  lemma AcknowledgedHappens() returns (run: seq<State>, events: seq<Event>)
    ensures IsRun(run, events) && !run[|run| - 1].crashed && |run[|run| - 1].nodes| == 1
    ensures At(run[|run| - 1], 0) == Acknowledged()
  {
    hide IsRun;
    run, events := FirstReceivedHappens();
    var l := FirstReceived();
    var l1 := l.(sh := l.sh.(hub := HubChecking(0)),
                 srv := l.srv.(member := l.srv.member.(stored := true, everStored := true)));
    run, events := Extend(run, events, 0, Hub(StoreSession), l1);
    var l2 := l1.(sh := l1.sh.(down := []), agt := l1.agt.(life := l1.agt.life.(conn := Opening)));
    run, events := Extend(run, events, 0, Read, l2);
    var l3 := l2.(agt := l2.agt.(life := l2.agt.life.(conn := Enrolling), inflow := l2.agt.inflow.(receiving := true),
                                 outflow := l2.agt.outflow.(sending := true, chunking := true)));
    run, events := Extend(run, events, 0, Conn(OpenDownstream(true, [])), l3);
    var l4 := l3.(sh := l3.sh.(agentHub := AgentStoring(0)), agt := l3.agt.(life := l3.agt.life.(conn := Serving)));
    run, events := Extend(run, events, 0, AgentHub(AgentTakeRegister), l4);
    var l5 := l4.(sh := l4.sh.(agentHub := AgentAcking(0)),
                  agt := l4.agt.(life := l4.agt.life.(stored := true, stores := 1)));
    run, events := Extend(run, events, 0, AgentHub(AgentStore), l5);
    run, events := Extend(run, events, 0, AgentHub(AgentAck), Acknowledged());
  }

  /** The relay has set Connected and offers the session to the hub again; the hub is still at the first request. */
  function Confirmed(): Local {
    var l := Acknowledged();
    l.(sh := l.sh.(up := []),
       srv := l.srv.(proxy := Confirming, cell := StatusCell(Connected, [Connecting, Connected]),
                     traffic := Traffic(1, 1, 0, 0)))
  }

  lemma ConfirmedHappens() returns (run: seq<State>, events: seq<Event>)
    ensures IsRun(run, events) && !run[|run| - 1].crashed && |run[|run| - 1].nodes| == 1
    ensures At(run[|run| - 1], 0) == Confirmed()
  {
    hide IsRun;
    run, events := AcknowledgedHappens();
    var l := Acknowledged();
    var ack := TunnelMessage(0, Unset, CONNECT_MESSAGE, []);
    var l1 := l.(sh := l.sh.(up := [], inbound := InLooking(ack)), srv := l.srv.(traffic := Traffic(1, 0, 0, 0)));
    run, events := Extend(run, events, 0, Inbound(Receive), l1);
    var l2 := l1.(sh := l1.sh.(inbound := InDelivering(ack)));
    run, events := Extend(run, events, 0, Inbound(LookUpTarget), l2);
    var l3 := l2.(sh := l2.sh.(inbound := InReading),
                  srv := l2.srv.(proxy := Holding(ack), traffic := Traffic(1, 1, 0, 0)));
    run, events := Extend(run, events, 0, Inbound(Deliver), l3);
    var l4 := l3.(srv := l3.srv.(proxy := Promoting));
    run, events := Extend(run, events, 0, Writer(SeeConnect), l4);
    run, events := Extend(run, events, 0, Writer(Promote), Confirmed());
  }

  /** Both register requests are handled, and both found the session connected. */
  function Announced(): Local {
    var l := Confirmed();
    l.(sh := l.sh.(hub := HubIdle),
       srv := l.srv.(proxy := Relaying, member := l.srv.member.(registers := 2),
                     told := l.srv.told.(calls := [Registered(0), Registered(0)])))
  }

  lemma AnnouncedHappens() returns (run: seq<State>, events: seq<Event>)
    ensures IsRun(run, events) && !run[|run| - 1].crashed && |run[|run| - 1].nodes| == 1
    ensures At(run[|run| - 1], 0) == Announced()
  {
    hide IsRun;
    run, events := ConfirmedHappens();
    var l := Confirmed();
    var l1 := l.(sh := l.sh.(hub := HubCalling(0)));
    run, events := Extend(run, events, 0, Hub(CheckConnected), l1);
    var l2 := l1.(sh := l1.sh.(hub := HubIdle), srv := l1.srv.(told := l1.srv.told.(calls := [Registered(0)])));
    run, events := Extend(run, events, 0, Hub(CallRegistered), l2);
    var l3 := l2.(sh := l2.sh.(hub := HubStoring(0)),
                  srv := l2.srv.(proxy := Relaying, member := l2.srv.member.(registers := 2)));
    run, events := Extend(run, events, 0, Hub(TakeRegister), l3);
    var l4 := l3.(sh := l3.sh.(hub := HubChecking(0)));
    run, events := Extend(run, events, 0, Hub(StoreSession), l4);
    var l5 := l4.(sh := l4.sh.(hub := HubCalling(0)));
    run, events := Extend(run, events, 0, Hub(CheckConnected), l5);
    run, events := Extend(run, events, 0, Hub(CallRegistered), Announced());
  }

  /** A session can be announced twice: the status is read late for the first request, then again. */
  lemma RegisteredTwiceHappens() returns (run: seq<State>, events: seq<Event>)
    ensures |run| > 0 && Reached(run, events, |run| - 1, 0)
    ensures Server(run, |run| - 1, 0).told.calls == [Registered(0), Registered(0)]
  {
    run, events := AnnouncedHappens();
    assert |run| > 0 && At(run[|run| - 1], 0) == Announced();
    hide IsRun;
  }

  /** Since then an upstream frame has reached the write pump, and its write to the agent has failed. */
  function Failed(): Local {
    var l := Confirmed();
    l.(sh := l.sh.(hub := HubIdle, pump := PumpReporting(0)),
       srv := l.srv.(cell := StatusCell(DownstreamClosed, [Connecting, Connected, DownstreamClosed]),
                     relay := l.srv.relay.(inputs := [[]], accepted := [0])))
  }

  lemma FailedHappens() returns (run: seq<State>, events: seq<Event>)
    ensures IsRun(run, events) && !run[|run| - 1].crashed && |run[|run| - 1].nodes| == 1
    ensures At(run[|run| - 1], 0) == Failed()
  {
    hide IsRun;
    run, events := ConfirmedHappens();
    var l := Confirmed();
    var l1 := l.(srv := l.srv.(reader := Got(BINARY_MESSAGE, []), relay := l.srv.relay.(inputs := [[]])));
    run, events := Extend(run, events, 0, UpReader(ReadFrame(BINARY_MESSAGE, [])), l1);
    var l2 := l1.(srv := l1.srv.(reader := Forwarding(BINARY_MESSAGE, [])));
    run, events := Extend(run, events, 0, UpReader(CheckStatus), l2);
    var l3 := l2.(sh := l2.sh.(pump := PumpWriting(Forward(0, BINARY_MESSAGE, []))),
                  srv := l2.srv.(reader := Reading, relay := l2.srv.relay.(accepted := [0])));
    run, events := Extend(run, events, 0, Pump(TakeFrame), l3);
    var l4 := l3.(sh := l3.sh.(pump := PumpLooking(0)));
    run, events := Extend(run, events, 0, Pump(WriteMessage(false)), l4);
    var l5 := l4.(sh := l4.sh.(pump := PumpMarking(0)));
    run, events := Extend(run, events, 0, Pump(PumpLookUp), l5);
    var l6 := l5.(sh := l5.sh.(pump := PumpReporting(0)),
                  srv := l5.srv.(cell := SetStatus(l5.srv.cell, DownstreamClosed)));
    run, events := Extend(run, events, 0, Pump(PumpMark), l6);
    run, events := Extend(run, events, 0, Hub(CheckConnected), Failed());
  }

  /** The hub has removed the session for the write pump, and the relay still offers it. */
  function Reported(): Local {
    var l := Failed();
    l.(sh := l.sh.(pump := PumpExited),
       srv := l.srv.(member := l.srv.member.(stored := false, pumpRequests := 1, isClosed := true, closes := 1),
                     told := l.srv.told.(calls := [Unregistered(0)], notes := [[]])))
  }

  lemma ReportedHappens() returns (run: seq<State>, events: seq<Event>)
    ensures IsRun(run, events) && !run[|run| - 1].crashed && |run[|run| - 1].nodes| == 1
    ensures At(run[|run| - 1], 0) == Reported()
  {
    hide IsRun;
    run, events := FailedHappens();
    var l := Failed();
    var l1 := l.(sh := l.sh.(hub := HubRemoving(0, false), pump := PumpExited),
                 srv := l.srv.(member := l.srv.member.(pumpRequests := 1)));
    run, events := Extend(run, events, 0, Hub(TakePumpUnregister), l1);
    var l2 := l1.(sh := l1.sh.(hub := HubUncalling(0, false)),
                  srv := l1.srv.(member := l1.srv.member.(stored := false)));
    run, events := Extend(run, events, 0, Hub(RemoveSession), l2);
    var l3 := l2.(sh := l2.sh.(hub := HubNotifying(0, false)),
                  srv := l2.srv.(told := l2.srv.told.(calls := [Unregistered(0)])));
    run, events := Extend(run, events, 0, Hub(CallUnregistered), l3);
    var l4 := l3.(sh := l3.sh.(hub := HubClosing(0, false)), srv := l3.srv.(told := l3.srv.told.(notes := [[]])));
    run, events := Extend(run, events, 0, Hub(NotifyTeardown(true)), l4);
    run, events := Extend(run, events, 0, Hub(CloseSession), Reported());
  }

  /** The relay's register request has put the session back, and the deferred function asks for its removal. */
  function PutBack(): Local {
    var l := Reported();
    l.(srv := l.srv.(proxy := Unregistering, member := l.srv.member.(registers := 2, stored := true)))
  }

  lemma PutBackHappens() returns (run: seq<State>, events: seq<Event>)
    ensures IsRun(run, events) && !run[|run| - 1].crashed && |run[|run| - 1].nodes| == 1
    ensures At(run[|run| - 1], 0) == PutBack()
  {
    hide IsRun;
    run, events := ReportedHappens();
    var l := Reported();
    var l1 := l.(sh := l.sh.(hub := HubStoring(0)),
                 srv := l.srv.(proxy := Relaying, member := l.srv.member.(registers := 2)));
    run, events := Extend(run, events, 0, Hub(TakeRegister), l1);
    var l2 := l1.(sh := l1.sh.(hub := HubChecking(0)), srv := l1.srv.(member := l1.srv.member.(stored := true)));
    run, events := Extend(run, events, 0, Hub(StoreSession), l2);
    var l3 := l2.(sh := l2.sh.(hub := HubIdle));
    run, events := Extend(run, events, 0, Hub(CheckConnected), l3);
    var l4 := l3.(srv := l3.srv.(proxy := Leaving));
    run, events := Extend(run, events, 0, Writer(StopRelay), l4);
    run, events := Extend(run, events, 0, Proxy(LookUpSelf), PutBack());
  }

  /** A session can be taken off twice: the relay's register request puts it back after the write pump's request. */
  lemma UnregisteredTwiceHappens() returns (run: seq<State>, events: seq<Event>)
    ensures |run| > 0 && Reached(run, events, |run| - 1, 0)
    ensures Server(run, |run| - 1, 0).told.calls == [Unregistered(0), Unregistered(0)]
  {
    hide IsRun;
    run, events := PutBackHappens();
    var l := PutBack();
    var l1 := l.(sh := l.sh.(hub := HubRemoving(0, true)),
                 srv := l.srv.(proxy := Finished, member := l.srv.member.(ownRequest := true)));
    run, events := Extend(run, events, 0, Hub(TakeOwnUnregister), l1);
    var l2 := l1.(sh := l1.sh.(hub := HubUncalling(0, true)),
                  srv := l1.srv.(member := l1.srv.member.(stored := false)));
    run, events := Extend(run, events, 0, Hub(RemoveSession), l2);
    var l3 := l2.(sh := l2.sh.(hub := HubNotifying(0, true)),
                  srv := l2.srv.(told := l2.srv.told.(calls := [Unregistered(0), Unregistered(0)])));
    run, events := Extend(run, events, 0, Hub(CallUnregistered), l3);
  }

  // ---------- HTTP ----------

  /** The handler waits for the reply, which the agent has sent. */
  function Replied(): Local {
    var srv := NewServerSession(Http);
    Local(IDLE.(up := [TunnelMessage(0, Http, CONNECT_MESSAGE, ECHO)]),
          srv.(agentSet := true, proxy := Awaiting,
               member := srv.member.(registers := 1, stored := true, everStored := true)),
          NO_AGENT_SESSION.(https := [HttpTask(CONNECT_MESSAGE, true)], answers := [ECHO]))
  }

  lemma RepliedHappens() returns (run: seq<State>, events: seq<Event>)
    ensures IsRun(run, events) && !run[|run| - 1].crashed && |run[|run| - 1].nodes| == 1
    ensures At(run[|run| - 1], 0) == Replied()
  {
    var g0 := State(IDLE, [], false);
    var g1 := g0.(nodes := [Node(NewServerSession(Http), NO_AGENT_SESSION)]);
    run, events := [g0, g1], [Open(Http)];
    assert IsRun(run, events);
    hide IsRun;
    var l := At(g1, 0);
    var l1 := l.(srv := l.srv.(agentSet := true, proxy := Announcing));
    run, events := Extend(run, events, 0, Proxy(LoadAgent(true)), l1);
    var l2 := l1.(sh := l1.sh.(hub := HubStoring(0)),
                  srv := l1.srv.(proxy := Requesting, member := l1.srv.member.(registers := 1)));
    run, events := Extend(run, events, 0, Hub(TakeRegister), l2);
    var l3 := l2.(sh := l2.sh.(hub := HubChecking(0)),
                  srv := l2.srv.(member := l2.srv.member.(stored := true, everStored := true)));
    run, events := Extend(run, events, 0, Hub(StoreSession), l3);
    var l4 := l3.(sh := l3.sh.(hub := HubIdle));
    run, events := Extend(run, events, 0, Hub(CheckConnected), l4);
    var l5 := l4.(sh := l4.sh.(pump := PumpWriting(Request(0))), srv := l4.srv.(proxy := Awaiting));
    run, events := Extend(run, events, 0, Pump(TakeRequest), l5);
    var l6 := l5.(sh := l5.sh.(pump := PumpWaiting, down := [Request(0)]));
    run, events := Extend(run, events, 0, Pump(WriteMessage(true)), l6);
    var l7 := l6.(sh := l6.sh.(down := []), agt := l6.agt.(https := [HttpTask(CONNECT_MESSAGE, false)]));
    run, events := Extend(run, events, 0, Read, l7);
    run, events := Extend(run, events, 0, Task(HttpAnswer(0, ECHO)), Replied());
  }

  /** The inbound pump offers the reply, and the handler has timed out and asks the hub to unregister it. */
  function Missed(): Local {
    var l := Replied();
    l.(sh := l.sh.(up := [], inbound := InDelivering(TunnelMessage(0, Http, CONNECT_MESSAGE, ECHO))),
       srv := l.srv.(proxy := Unregistering, traffic := Traffic(1, 0, 0, 0)))
  }

  lemma MissedHappens() returns (run: seq<State>, events: seq<Event>)
    ensures IsRun(run, events) && !run[|run| - 1].crashed && |run[|run| - 1].nodes| == 1
    ensures At(run[|run| - 1], 0) == Missed()
  {
    hide IsRun;
    run, events := RepliedHappens();
    var l := Replied();
    var reply := TunnelMessage(0, Http, CONNECT_MESSAGE, ECHO);
    var l1 := l.(sh := l.sh.(up := [], inbound := InLooking(reply)), srv := l.srv.(traffic := Traffic(1, 0, 0, 0)));
    run, events := Extend(run, events, 0, Inbound(Receive), l1);
    var l2 := l1.(sh := l1.sh.(inbound := InDelivering(reply)));
    run, events := Extend(run, events, 0, Inbound(LookUpTarget), l2);
    var l3 := l2.(srv := l2.srv.(proxy := Leaving));
    run, events := Extend(run, events, 0, Proxy(TimeOut), l3);
    run, events := Extend(run, events, 0, Proxy(LookUpSelf), Missed());
  }

  /** An HTTP request from end to end: the handler gets the body the agent answered with. */
  lemma HttpEchoHappens() returns (run: seq<State>, events: seq<Event>)
    ensures |run| > 0 && Reached(run, events, |run| - 1, 0)
    ensures Agent(run, |run| - 1, 0).answers == [ECHO] && Server(run, |run| - 1, 0).relay.replies == [ECHO]
  {
    hide IsRun;
    run, events := RepliedHappens();
    var l, reply := Replied(), TunnelMessage(0, Http, CONNECT_MESSAGE, ECHO);
    var l1 := l.(sh := l.sh.(up := [], inbound := InLooking(reply)), srv := l.srv.(traffic := Traffic(1, 0, 0, 0)));
    run, events := Extend(run, events, 0, Inbound(Receive), l1);
    var l2 := l1.(sh := l1.sh.(inbound := InDelivering(reply)));
    run, events := Extend(run, events, 0, Inbound(LookUpTarget), l2);
    var l3 := l2.(sh := l2.sh.(inbound := InReading),
                  srv := l2.srv.(proxy := Leaving, relay := l2.srv.relay.(replies := [ECHO]),
                                 traffic := Traffic(1, 1, 0, 0)));
    run, events := Extend(run, events, 0, Inbound(Deliver), l3);
  }

  /** An HTTP session that leaves through the hub: its channel is never closed, its reply blocks the inbound pump. */
  lemma HttpNeverClosedHappens() returns (run: seq<State>, events: seq<Event>)
    ensures |run| > 0 && Reached(run, events, |run| - 1, 0)
    ensures Server(run, |run| - 1, 0).proxy.Finished? && Drained(run[|run| - 1], 0)
    ensures Server(run, |run| - 1, 0).member.closes == 0
    ensures Stuck(View(run[|run| - 1], 0))
  {
    hide IsRun;
    run, events := MissedHappens();
    var l := Missed();
    var l1 := l.(sh := l.sh.(hub := HubRemoving(0, true)),
                 srv := l.srv.(proxy := Finished, member := l.srv.member.(ownRequest := true)));
    run, events := Extend(run, events, 0, Hub(TakeOwnUnregister), l1);
    var l2 := l1.(sh := l1.sh.(hub := HubIdle), srv := l1.srv.(member := l1.srv.member.(stored := false)));
    run, events := Extend(run, events, 0, Hub(RemoveSession), l2);
  }

  // ---------- a session from end to end ----------

  /** An upstream frame is on its way to the agent. */
  function Sent(): Local {
    var l := Announced();
    l.(sh := l.sh.(down := [TunnelMessage(0, Unset, TEXT_MESSAGE, HELLO)]),
       srv := l.srv.(relay := l.srv.relay.(inputs := [HELLO], accepted := [0])))
  }

  lemma SentHappens() returns (run: seq<State>, events: seq<Event>)
    ensures IsRun(run, events) && !run[|run| - 1].crashed && |run[|run| - 1].nodes| == 1
    ensures At(run[|run| - 1], 0) == Sent()
  {
    hide IsRun;
    run, events := AnnouncedHappens();
    var l := Announced();
    var l1 := l.(srv := l.srv.(reader := Got(TEXT_MESSAGE, HELLO), relay := l.srv.relay.(inputs := [HELLO])));
    run, events := Extend(run, events, 0, UpReader(ReadFrame(TEXT_MESSAGE, HELLO)), l1);
    var l2 := l1.(srv := l1.srv.(reader := Forwarding(TEXT_MESSAGE, HELLO)));
    run, events := Extend(run, events, 0, UpReader(CheckStatus), l2);
    var l3 := l2.(sh := l2.sh.(pump := PumpWriting(TunnelMessage(0, Unset, TEXT_MESSAGE, HELLO))),
                  srv := l2.srv.(reader := Reading, relay := l2.srv.relay.(accepted := [0])));
    run, events := Extend(run, events, 0, Pump(TakeFrame), l3);
    run, events := Extend(run, events, 0, Pump(WriteMessage(true)), Sent());
  }

  /** The downstream has got the frame, whole. */
  function Handed(): Local {
    var l := Sent();
    l.(sh := l.sh.(down := []),
       agt := l.agt.(data := [DataTask(HELLO, Ended)], inflow := l.agt.inflow.(received := HELLO, delivered := [0])))
  }

  lemma HandedHappens() returns (run: seq<State>, events: seq<Event>)
    ensures IsRun(run, events) && !run[|run| - 1].crashed && |run[|run| - 1].nodes| == 1
    ensures At(run[|run| - 1], 0) == Handed()
  {
    hide IsRun;
    run, events := SentHappens();
    var l := Sent();
    var l1 := l.(sh := l.sh.(down := []), agt := l.agt.(data := [DataTask(HELLO, Seeking)]));
    run, events := Extend(run, events, 0, Read, l1);
    var l2 := l1.(agt := l1.agt.(data := [DataTask(HELLO, Writing)]));
    run, events := Extend(run, events, 0, Data(0, DataSeek), l2);
    var l3 := l2.(agt := l2.agt.(data := [DataTask(HELLO, Offering)],
                                 inflow := l2.agt.inflow.(offer := Some(Offer(0, HELLO, 0, false)))));
    run, events := Extend(run, events, 0, Data(0, DataAcquire), l3);
    assert NextRead(Offer(0, HELLO, 0, false)) == HELLO;
    var l4 := l3.(agt := l3.agt.(inflow := l3.agt.inflow.(received := HELLO, offer := Some(Offer(0, HELLO, 2, true)))));
    run, events := Extend(run, events, 0, Stream(ReceiveBytes), l4);
    run, events := Extend(run, events, 0, Data(0, DataFinish), Handed());
  }

  /** The downstream's answer has been cut into a chunk and sent. */
  function Answered(): Local {
    var l := Handed();
    l.(sh := l.sh.(up := [TunnelMessage(0, Unset, BINARY_MESSAGE, ECHO)]),
       agt := l.agt.(outflow := l.agt.outflow.(produced := [ECHO], chunks := [ECHO])))
  }

  lemma AnsweredHappens() returns (run: seq<State>, events: seq<Event>)
    ensures IsRun(run, events) && !run[|run| - 1].crashed && |run[|run| - 1].nodes| == 1
    ensures At(run[|run| - 1], 0) == Answered()
  {
    hide IsRun;
    run, events := HandedHappens();
    var l := Handed();
    var l1 := l.(agt := l.agt.(outflow := l.agt.outflow.(offer := Some(Offer(0, ECHO, 0, false)), produced := [ECHO])));
    run, events := Extend(run, events, 0, Stream(Produce(ECHO)), l1);
    assert NextRead(Offer(0, ECHO, 0, false)) == ECHO;
    var l2 := l1.(agt := l1.agt.(outflow := l1.agt.outflow.(offer := Some(Offer(0, ECHO, 1, true)), hand := Some(ECHO),
                                                            chunks := [ECHO])));
    run, events := Extend(run, events, 0, Stream(ReadChunk), l2);
    var l3 := l2.(sh := l2.sh.(up := [TunnelMessage(0, Unset, BINARY_MESSAGE, ECHO)]),
                  agt := l2.agt.(outflow := l2.agt.outflow.(hand := None)));
    run, events := Extend(run, events, 0, Stream(SendChunk), l3);
    run, events := Extend(run, events, 0, Stream(WriteDone), Answered());
  }

  /** The upstream has got the answer. */
  function Echoed(): Local {
    var l := Answered();
    l.(sh := l.sh.(up := []),
       srv := l.srv.(relay := l.srv.relay.(frames := [ECHO], arrived := 1), traffic := Traffic(2, 2, 0, 0)))
  }

  lemma EchoedHappens() returns (run: seq<State>, events: seq<Event>)
    ensures IsRun(run, events) && !run[|run| - 1].crashed && |run[|run| - 1].nodes| == 1
    ensures At(run[|run| - 1], 0) == Echoed()
  {
    hide IsRun;
    run, events := AnsweredHappens();
    var l, m := Answered(), TunnelMessage(0, Unset, BINARY_MESSAGE, ECHO);
    var l1 := l.(sh := l.sh.(up := [], inbound := InLooking(m)),
                 srv := l.srv.(relay := l.srv.relay.(arrived := 1), traffic := Traffic(2, 1, 0, 0)));
    run, events := Extend(run, events, 0, Inbound(Receive), l1);
    var l2 := l1.(sh := l1.sh.(inbound := InDelivering(m)));
    run, events := Extend(run, events, 0, Inbound(LookUpTarget), l2);
    var l3 := l2.(sh := l2.sh.(inbound := InReading),
                  srv := l2.srv.(proxy := Holding(m), traffic := Traffic(2, 2, 0, 0)));
    run, events := Extend(run, events, 0, Inbound(Deliver), l3);
    run, events := Extend(run, events, 0, Writer(WriteFrame(true)), Echoed());
  }

  /** The downstream has ended, and the agent has sent a close with the reason. */
  function Withdrawn(): Local {
    var l := Echoed();
    l.(sh := l.sh.(up := [TunnelMessage(0, Unset, CLOSE_MESSAGE, BYE)]),
       agt := l.agt.(outflow := l.agt.outflow.(sending := false),
                     life := l.agt.life.(conn := Over, status := ProcessFailed, annotation := BYE, stored := false,
                                         closed := true, control := [CONNECT_MESSAGE, CLOSE_MESSAGE], reasons := [BYE],
                                         removes := 1, withdrawals := 1)))
  }

  lemma WithdrawnHappens() returns (run: seq<State>, events: seq<Event>)
    ensures IsRun(run, events) && !run[|run| - 1].crashed && |run[|run| - 1].nodes| == 1
    ensures At(run[|run| - 1], 0) == Withdrawn()
  {
    hide IsRun;
    run, events := EchoedHappens();
    var l := Echoed();
    var l1 := l.(agt := l.agt.(outflow := l.agt.outflow.(sending := false)));
    run, events := Extend(run, events, 0, Stream(StopSending), l1);
    var l2 := l1.(agt := l1.agt.(life := l1.agt.life.(conn := Failing, annotation := BYE)));
    run, events := Extend(run, events, 0, Conn(StopServing(Some(BYE))), l2);
    var l3 := l2.(agt := l2.agt.(life := l2.agt.life.(conn := Withdrawing, status := ProcessFailed)));
    run, events := Extend(run, events, 0, Conn(SetFailed), l3);
    var l4 := l3.(sh := l3.sh.(agentHub := AgentRemoving(0)),
                  agt := l3.agt.(life := l3.agt.life.(conn := Over, withdrawals := 1)));
    run, events := Extend(run, events, 0, AgentHub(AgentTakeUnregister), l4);
    var l5 := l4.(sh := l4.sh.(agentHub := AgentShutting(0)),
                  agt := l4.agt.(life := l4.agt.life.(stored := false, removes := 1)));
    run, events := Extend(run, events, 0, AgentHub(AgentRemove), l5);
    var l6 := l5.(sh := l5.sh.(agentHub := AgentDeciding(0)), agt := l5.agt.(life := l5.agt.life.(closed := true)));
    run, events := Extend(run, events, 0, AgentHub(AgentShut), l6);
    var l7 := l6.(sh := l6.sh.(agentHub := AgentNoticing(0)));
    run, events := Extend(run, events, 0, AgentHub(AgentDecide), l7);
    run, events := Extend(run, events, 0, AgentHub(AgentNotice), Withdrawn());
  }

  /** The relay has taken the close and asks the hub to remove the session. */
  function Resigned(): Local {
    var l := Withdrawn();
    l.(sh := l.sh.(up := []),
       srv := l.srv.(proxy := Unregistering, annotation := BYE, traffic := Traffic(3, 3, 0, 0),
                     ends := Ends(false, Some(BYE)),
                     cell := StatusCell(DownstreamClosed, [Connecting, Connected, DownstreamClosed])))
  }

  lemma ResignedHappens() returns (run: seq<State>, events: seq<Event>)
    ensures IsRun(run, events) && !run[|run| - 1].crashed && |run[|run| - 1].nodes| == 1
    ensures At(run[|run| - 1], 0) == Resigned()
  {
    hide IsRun;
    run, events := WithdrawnHappens();
    var l, m := Withdrawn(), TunnelMessage(0, Unset, CLOSE_MESSAGE, BYE);
    var l1 := l.(sh := l.sh.(up := [], inbound := InLooking(m)), srv := l.srv.(traffic := Traffic(3, 2, 0, 0)));
    run, events := Extend(run, events, 0, Inbound(Receive), l1);
    var l2 := l1.(sh := l1.sh.(inbound := InDelivering(m)));
    run, events := Extend(run, events, 0, Inbound(LookUpTarget), l2);
    var l3 := l2.(sh := l2.sh.(inbound := InReading),
                  srv := l2.srv.(proxy := Holding(m), traffic := Traffic(3, 3, 0, 0)));
    run, events := Extend(run, events, 0, Inbound(Deliver), l3);
    var l4 := l3.(srv := l3.srv.(proxy := Annotating(BYE), ends := Ends(false, Some(BYE)),
                                 cell := StatusCell(DownstreamClosed, [Connecting, Connected, DownstreamClosed])));
    run, events := Extend(run, events, 0, Writer(SeeClose), l4);
    var l5 := l4.(srv := l4.srv.(annotation := BYE, proxy := Leaving));
    run, events := Extend(run, events, 0, Writer(Annotate), l5);
    run, events := Extend(run, events, 0, Proxy(LookUpSelf), Resigned());
  }

  /**
   A session from end to end: the frame reaches the downstream whole, the answer the upstream, and when the downstream
   ends, the upstream is told the agent's reason and its channel is closed.
   */
  lemma EchoHappens() returns (run: seq<State>, events: seq<Event>)
    ensures |run| > 0 && Reached(run, events, |run| - 1, 0)
    ensures var srv, agt := Server(run, |run| - 1, 0), Agent(run, |run| - 1, 0);
            && srv.relay.inputs == [HELLO] && agt.inflow.received == HELLO
            && agt.outflow.produced == [ECHO] && srv.relay.frames == [ECHO]
            && agt.life.reasons == [BYE] && srv.told.notes == [BYE] && srv.told.closes == 0
            && srv.proxy.Finished? && srv.member.closes == 1 && !srv.member.stored && !agt.life.stored
  {
    hide IsRun;
    run, events := ResignedHappens();
    var l := Resigned();
    var l1 := l.(sh := l.sh.(hub := HubRemoving(0, true)),
                 srv := l.srv.(proxy := Finished, member := l.srv.member.(ownRequest := true)));
    run, events := Extend(run, events, 0, Hub(TakeOwnUnregister), l1);
    var l2 := l1.(sh := l1.sh.(hub := HubUncalling(0, true)),
                  srv := l1.srv.(member := l1.srv.member.(stored := false)));
    run, events := Extend(run, events, 0, Hub(RemoveSession), l2);
    var l3 := l2.(sh := l2.sh.(hub := HubNotifying(0, true)),
                  srv := l2.srv.(told := l2.srv.told.(calls := l2.srv.told.calls + [Unregistered(0)])));
    run, events := Extend(run, events, 0, Hub(CallUnregistered), l3);
    var l4 := l3.(sh := l3.sh.(hub := HubClosing(0, true)), srv := l3.srv.(told := l3.srv.told.(notes := [BYE])));
    run, events := Extend(run, events, 0, Hub(NotifyTeardown(true)), l4);
    var l5 := l4.(sh := l4.sh.(hub := HubIdle),
                  srv := l4.srv.(member := l4.srv.member.(isClosed := true, closes := 1)));
    run, events := Extend(run, events, 0, Hub(CloseSession), l5);
  }

  // ---------- a session the upstream closes ----------

  /** Reading the upstream has failed, and the relay has given up. */
  function Broken(): Local {
    var l := Announced();
    l.(srv := l.srv.(proxy := Unregistering, reader := Stopped, ends := Ends(true, None),
                     cell := StatusCell(UpstreamClosed, [Connecting, Connected, UpstreamClosed])))
  }

  lemma BrokenHappens() returns (run: seq<State>, events: seq<Event>)
    ensures IsRun(run, events) && !run[|run| - 1].crashed && |run[|run| - 1].nodes| == 1
    ensures At(run[|run| - 1], 0) == Broken()
  {
    hide IsRun;
    run, events := AnnouncedHappens();
    var l := Announced();
    var l1 := l.(srv := l.srv.(reader := ReadFailed, ends := Ends(true, None)));
    run, events := Extend(run, events, 0, UpReader(ReadError), l1);
    var l2 := l1.(srv := l1.srv.(reader := Stopped,
                                 cell := StatusCell(UpstreamClosed, [Connecting, Connected, UpstreamClosed])));
    run, events := Extend(run, events, 0, UpReader(MarkUpstreamClosed), l2);
    var l3 := l2.(srv := l2.srv.(proxy := Leaving));
    run, events := Extend(run, events, 0, Writer(StopRelay), l3);
    run, events := Extend(run, events, 0, Proxy(LookUpSelf), Broken());
  }

  /** The hub has removed the session and told the agent. */
  function AgentTold(): Local {
    var l := Broken();
    l.(sh := l.sh.(down := [TunnelMessage(0, Unset, CLOSE_MESSAGE, UPSTREAM_CLOSED_TEXT)]),
       srv := l.srv.(proxy := Finished,
                     member := l.srv.member.(ownRequest := true, stored := false, isClosed := true, closes := 1),
                     told := l.srv.told.(calls := l.srv.told.calls + [Unregistered(0)], closes := 1)))
  }

  lemma AgentToldHappens() returns (run: seq<State>, events: seq<Event>)
    ensures IsRun(run, events) && !run[|run| - 1].crashed && |run[|run| - 1].nodes| == 1
    ensures At(run[|run| - 1], 0) == AgentTold()
  {
    hide IsRun;
    run, events := BrokenHappens();
    var l := Broken();
    var l1 := l.(sh := l.sh.(hub := HubRemoving(0, true)),
                 srv := l.srv.(proxy := Finished, member := l.srv.member.(ownRequest := true)));
    run, events := Extend(run, events, 0, Hub(TakeOwnUnregister), l1);
    var l2 := l1.(sh := l1.sh.(hub := HubUncalling(0, true)),
                  srv := l1.srv.(member := l1.srv.member.(stored := false)));
    run, events := Extend(run, events, 0, Hub(RemoveSession), l2);
    var l3 := l2.(sh := l2.sh.(hub := HubNotifying(0, true)),
                  srv := l2.srv.(told := l2.srv.told.(calls := l2.srv.told.calls + [Unregistered(0)])));
    run, events := Extend(run, events, 0, Hub(CallUnregistered), l3);
    var l4 := l3.(sh := l3.sh.(hub := HubClosing(0, true),
                               down := [TunnelMessage(0, Unset, CLOSE_MESSAGE, UPSTREAM_CLOSED_TEXT)]),
                  srv := l3.srv.(told := l3.srv.told.(closes := 1)));
    run, events := Extend(run, events, 0, Hub(NotifyTeardown(true)), l4);
    run, events := Extend(run, events, 0, Hub(CloseSession), AgentTold());
  }

  /** A chunk that comes too late has been answered with a close. */
  function Bounced(): Local {
    var l := AgentTold();
    l.(sh := l.sh.(down := [TunnelMessage(0, Unset, CLOSE_MESSAGE, UPSTREAM_CLOSED_TEXT),
                            TunnelMessage(0, Unset, CLOSE_MESSAGE, ECHO)]),
       srv := l.srv.(relay := l.srv.relay.(arrived := 1), traffic := Traffic(2, 1, 1, 0)),
       agt := l.agt.(outflow := l.agt.outflow.(offer := Some(Offer(0, ECHO, 1, true)), produced := [ECHO],
                                               chunks := [ECHO])))
  }

  lemma BouncedHappens() returns (run: seq<State>, events: seq<Event>)
    ensures IsRun(run, events) && !run[|run| - 1].crashed && |run[|run| - 1].nodes| == 1
    ensures At(run[|run| - 1], 0) == Bounced()
  {
    hide IsRun;
    run, events := AgentToldHappens();
    var l, m := AgentTold(), TunnelMessage(0, Unset, BINARY_MESSAGE, ECHO);
    var l1 := l.(agt := l.agt.(outflow := l.agt.outflow.(offer := Some(Offer(0, ECHO, 0, false)), produced := [ECHO])));
    run, events := Extend(run, events, 0, Stream(Produce(ECHO)), l1);
    assert NextRead(Offer(0, ECHO, 0, false)) == ECHO;
    var l2 := l1.(agt := l1.agt.(outflow := l1.agt.outflow.(offer := Some(Offer(0, ECHO, 1, true)), hand := Some(ECHO),
                                                            chunks := [ECHO])));
    run, events := Extend(run, events, 0, Stream(ReadChunk), l2);
    var l3 := l2.(sh := l2.sh.(up := [m]), agt := l2.agt.(outflow := l2.agt.outflow.(hand := None)));
    run, events := Extend(run, events, 0, Stream(SendChunk), l3);
    var l4 := l3.(sh := l3.sh.(up := [], inbound := InLooking(m)),
                  srv := l3.srv.(relay := l3.srv.relay.(arrived := 1), traffic := Traffic(2, 1, 0, 0)));
    run, events := Extend(run, events, 0, Inbound(Receive), l4);
    var l5 := l4.(sh := l4.sh.(inbound := InBouncing(TunnelMessage(0, Unset, CLOSE_MESSAGE, ECHO))));
    run, events := Extend(run, events, 0, Inbound(LookUpTarget), l5);
    run, events := Extend(run, events, 0, Inbound(Bounce(true)), Bounced());
  }

  /** The agent has taken the first close to heart. */
  function Heeded(): Local {
    var l := Bounced();
    l.(sh := l.sh.(down := [TunnelMessage(0, Unset, CLOSE_MESSAGE, ECHO)]),
       agt := l.agt.(closers := [Shut], life := l.agt.life.(status := UpstreamClosed, closed := true)))
  }

  lemma HeededHappens() returns (run: seq<State>, events: seq<Event>)
    ensures IsRun(run, events) && !run[|run| - 1].crashed && |run[|run| - 1].nodes| == 1
    ensures At(run[|run| - 1], 0) == Heeded()
  {
    hide IsRun;
    run, events := BouncedHappens();
    var l := Bounced();
    var l1 := l.(sh := l.sh.(down := [TunnelMessage(0, Unset, CLOSE_MESSAGE, ECHO)]),
                 agt := l.agt.(closers := [Searching]));
    run, events := Extend(run, events, 0, Read, l1);
    var l2 := l1.(agt := l1.agt.(closers := [Marking]));
    run, events := Extend(run, events, 0, Task(CloserSeek(0)), l2);
    var l3 := l2.(agt := l2.agt.(closers := [Shutting], life := l2.agt.life.(status := UpstreamClosed)));
    run, events := Extend(run, events, 0, Task(CloserMark(0)), l3);
    run, events := Extend(run, events, 0, Task(CloserShut(0)), Heeded());
  }

  /** The agent has unregistered the session without a word. */
  function Retired(): Local {
    var l := Heeded();
    l.(agt := l.agt.(life := l.agt.life.(conn := Over, stored := false, removes := 1, withdrawals := 1)))
  }

  lemma RetiredHappens() returns (run: seq<State>, events: seq<Event>)
    ensures IsRun(run, events) && !run[|run| - 1].crashed && |run[|run| - 1].nodes| == 1
    ensures At(run[|run| - 1], 0) == Retired()
  {
    hide IsRun;
    run, events := HeededHappens();
    var l := Heeded();
    var l1 := l.(agt := l.agt.(life := l.agt.life.(conn := Failing)));
    run, events := Extend(run, events, 0, Conn(StopServing(None)), l1);
    var l2 := l1.(agt := l1.agt.(life := l1.agt.life.(conn := Withdrawing)));
    run, events := Extend(run, events, 0, Conn(SetFailed), l2);
    var l3 := l2.(sh := l2.sh.(agentHub := AgentRemoving(0)),
                  agt := l2.agt.(life := l2.agt.life.(conn := Over, withdrawals := 1)));
    run, events := Extend(run, events, 0, AgentHub(AgentTakeUnregister), l3);
    var l4 := l3.(sh := l3.sh.(agentHub := AgentShutting(0)),
                  agt := l3.agt.(life := l3.agt.life.(stored := false, removes := 1)));
    run, events := Extend(run, events, 0, AgentHub(AgentRemove), l4);
    var l5 := l4.(sh := l4.sh.(agentHub := AgentDeciding(0)));
    run, events := Extend(run, events, 0, AgentHub(AgentShut), l5);
    run, events := Extend(run, events, 0, AgentHub(AgentDecide), Retired());
  }

  /**
   A session the upstream closes: the agent is told, marks and closes the session and says nothing back; a chunk that
   comes too late draws one more close, which the agent ignores.
   */
  lemma UpstreamClosesHappens() returns (run: seq<State>, events: seq<Event>)
    ensures |run| > 0 && Reached(run, events, |run| - 1, 0)
    ensures var srv, agt := Server(run, |run| - 1, 0), Agent(run, |run| - 1, 0);
            && srv.told.closes == 1 && srv.told.notes == [] && srv.traffic.bounced == 1
            && agt.closers == [Shut, Ignored] && agt.life.status.UpstreamClosed? && agt.life.closed
            && agt.life.control == [CONNECT_MESSAGE] && !agt.life.stored && !srv.member.stored
            && run[|run| - 1].sh.up == [] && run[|run| - 1].sh.down == []
  {
    hide IsRun;
    run, events := RetiredHappens();
    var l := Retired();
    var l1 := l.(sh := l.sh.(down := []), agt := l.agt.(closers := [Shut, Searching]));
    run, events := Extend(run, events, 0, Read, l1);
    var l2 := l1.(agt := l1.agt.(closers := [Shut, Ignored]));
    run, events := Extend(run, events, 0, Task(CloserSeek(1)), l2);
  }

  // ---------- two agents under one id ----------

  /** Unregistering the first of two agents under one id takes the second off the map and leaves it open. */
  method WrongClientClosed() returns (hub: ServerHub.Hub, first: Objects.Client, second: Objects.Client)
    ensures first != second && first.id == second.id
    ensures hub.Valid()
    ensures hub.handled ==
              [HubHistory.ClientIn(first.id), HubHistory.ClientIn(second.id), HubHistory.ClientOut(first.id)]
    ensures second.id !in hub.clients && !second.isClosed && first.isClosed
  {
    hub := new ServerHub.Hub();
    first := new Objects.Client("agent", null);
    second := new Objects.Client("agent", null);
    hub.RegisterClient(first);
    hub.RegisterClient(second);
    hub.UnregisterClient(first);
  }
}
