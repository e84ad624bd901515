/**
 The tunnel as a transition system: one server, one agent connection, any number of sessions.

 Every goroutine is a program counter; one step is what a goroutine does between two points where another one can
 interfere. An unbuffered send and its receipt are one step that moves both goroutines. A goroutine that leaves its
 loop without any further effect is one that takes no more steps. A send on a closed channel ends the run.
 */
module Machine {
  import opened Protocol
  import opened Pipes

  // ---------- server, per session ----------

  /** The goroutine of `proxy`, which also runs writeUpStreamPump. */
  datatype ProxyPc =
    | Start                          // session built, agent not looked up yet
    | Preparing                      // agent known, connect message not written yet
    | Announcing                     // offers the session to the hub
    | Requesting                     // HTTP: offers the request to the agent's write pump
    | Awaiting                       // HTTP: waits for the reply or the ticker
    | Relaying                       // writeUpStreamPump: select
    | Holding(held: TunnelMessage)   // writeUpStreamPump: message received
    | Promoting                      // has read Connecting, has not set Connected yet
    | Confirming                     // offers the connected session to the hub again
    | Annotating(note: Bytes)        // has set DownstreamClosed, has not stored the annotation yet
    | Leaving                        // deferred function: has not looked the session up yet
    | Unregistering                  // offers its own unregister request
    | Closing                        // closes the upstream itself
    | Finished

  /** The goroutine of readUpStreamPump. */
  datatype UpReaderPc =
    | NotStarted
    | Reading
    | Got(kind: int, frame: Bytes)
    | Forwarding(kind: int, frame: Bytes)
    | ReadFailed
    | Stopped

  /** The status field, with every value it has had. */
  datatype StatusCell = StatusCell(status: SessionStatus, log: seq<SessionStatus>)

  /** Membership of Hub.Sessions and the upstream channel, with what led there. */
  datatype Member = Member(
    stored: bool,                    // the session's id is a key of Hub.Sessions
    isClosed: bool,                  // IsClosed of the upstream client
    closes: nat,                     // how often its channel Send was closed
    everStored: bool,
    registers: nat,                  // register requests the hub has received
    ownRequest: bool,                // the hub has received the unregister request of the deferred function
    pumpRequests: nat,               // unregister requests received from the agent's write pump
    missPending: bool,               // the deferred lookup missed while a Store was still to come
    lateRemoval: bool)               // ... and the pump's request removed the session after that

  /** What the hub has told the callbacks and the two sides. */
  datatype Told = Told(
    calls: seq<Callback>,            // session callbacks fired
    notes: seq<Bytes>,               // annotations written upstream
    closes: nat)                     // closes addressed to the agent

  /** What has been relayed. */
  datatype Relay = Relay(
    inputs: seq<Bytes>,              // frames read from the upstream socket
    accepted: seq<int>,              // indices of those handed to the agent's write pump
    frames: seq<Bytes>,              // binary frames written to the upstream socket
    arrived: nat,                    // data messages read from the agent for this session
    skipped: nat,                    // those that arrived before the hub had ever stored the session
    replies: seq<Bytes>)             // HTTP replies consumed

  /** What became of the agent's messages for the session, and of the closes addressed to the agent. */
  datatype Traffic = Traffic(
    received: nat,                   // messages read from the agent
    delivered: nat,                  // handed to the handler
    bounced: nat,                    // answered with a close, or with an attempt at one
    lost: nat)                       // closes that could not be written

  /** How the session ended, as its two ends have seen it. */
  datatype Ends = Ends(
    broken: bool,                    // reading the upstream socket has failed
    ended: Option<Bytes>)            // the relay has taken a close with this payload

  /** One session on the server: Session, its upstream Client and its goroutines. */
  datatype ServerSession = ServerSession(
    protocol: Protocol,
    agentSet: bool,                  // DownAgent has been assigned
    proxy: ProxyPc,
    reader: UpReaderPc,
    cell: StatusCell,
    annotation: Bytes,
    member: Member,
    told: Told,
    relay: Relay,
    traffic: Traffic,
    ends: Ends)

  // ---------- agent, per session ----------

  /** The goroutine of Processor for the ConnectMessage. */
  datatype ConnPc = Absent | Opening | Enrolling | Serving | Failing | Withdrawing | Over

  /** The goroutine of Processor for one data message. */
  datatype DataPc = Seeking | Writing | Offering | Ended | Refusing | Refused
  datatype DataTask = DataTask(payload: Bytes, pc: DataPc)

  /** The goroutine of Processor for one CloseMessage. */
  datatype CloserPc = Searching | Marking | Shutting | Shut | Ignored

  /** The goroutine of httpProcessor for one message. */
  datatype HttpTask = HttpTask(action: int, answered: bool)

  /** What became of a payload the closing of the pipe cut short. */
  datatype Cut = Cut(owner: nat, bytes: nat)

  /** The session object of the agent and its place in the agent's Sessions. */
  datatype Life = Life(
    conn: ConnPc,
    status: SessionStatus,
    annotation: Bytes,
    stored: bool,                    // the session's id is a key of the agent's Sessions
    closed: bool,                    // both pipes closed, context cancelled
    control: seq<int>,               // control messages the agent's hub has sent
    reasons: seq<Bytes>,             // payloads of all closes the agent has sent
    stores: nat,
    removes: nat,
    withdrawals: nat)                // unregister requests the agent's hub has received

  /** From the server's messages to downstream.Receive. */
  datatype Inflow = Inflow(
    offer: Option<Offer>,            // the write in progress on the pipe
    receiving: bool,                 // the goroutine that feeds downstream.Receive
    received: Bytes,                 // bytes handed to downstream.Receive
    delivered: seq<nat>,             // data tasks whose write completed, in order
    cut: Option<Cut>)

  /** From downstream.Send to the server. */
  datatype Outflow = Outflow(
    offer: Option<Offer>,            // the write in progress on the pipe
    sending: bool,                   // the goroutine that drains downstream.Send
    chunking: bool,                  // the goroutine of sessionSendToServer
    hand: Option<Bytes>,             // the chunk it is offering to the write loop
    produced: seq<Bytes>,            // messages downstream.Send has put into the pipe
    chunks: seq<Bytes>)              // what sessionSendToServer has read from it

  datatype AgentSession = AgentSession(
    life: Life,
    inflow: Inflow,
    outflow: Outflow,
    data: seq<DataTask>,
    closers: seq<CloserPc>,
    https: seq<HttpTask>,
    answers: seq<Bytes>)             // HTTP replies sent

  // ---------- shared by all sessions ----------

  /** Hub.Run on the server. `own` says that the request came from the session's own deferred function. */
  datatype HubPc =
    | HubIdle
    | HubStoring(of: SessionId)
    | HubChecking(of: SessionId)
    | HubCalling(of: SessionId)
    | HubRemoving(of: SessionId, own: bool)
    | HubUncalling(of: SessionId, own: bool)
    | HubNotifying(of: SessionId, own: bool)
    | HubClosing(of: SessionId, own: bool)

  /** writeDownStreamPump. */
  datatype PumpPc =
    | PumpWaiting
    | PumpWriting(message: TunnelMessage)
    | PumpLooking(id: SessionId)
    | PumpMarking(id: SessionId)
    | PumpReporting(id: SessionId)
    | PumpExited

  /** readDownStreamPump. */
  datatype InboundPc =
    | InReading
    | InLooking(m: TunnelMessage)
    | InDelivering(m: TunnelMessage)
    | InBouncing(m: TunnelMessage)

  /** Hub.Run on the agent. */
  datatype AgentHubPc =
    | AgentIdle
    | AgentStoring(sid: SessionId)
    | AgentAcking(sid: SessionId)
    | AgentRemoving(sid: SessionId)
    | AgentShutting(sid: SessionId)
    | AgentDeciding(sid: SessionId)
    | AgentNoticing(sid: SessionId)

  /**
   The two directions of the websocket are FIFO queues. `up` starts where the agent's write loop receives a message:
   it writes in that order and does nothing else in between.
   */
  datatype Shared = Shared(
    hub: HubPc, pump: PumpPc, inbound: InboundPc, agentHub: AgentHubPc,
    down: seq<TunnelMessage>, up: seq<TunnelMessage>)

  /** What a step for one session can see and change. */
  datatype Local = Local(sh: Shared, srv: ServerSession, agt: AgentSession)

  datatype Node = Node(srv: ServerSession, agt: AgentSession)

  datatype State = State(sh: Shared, nodes: seq<Node>, crashed: bool)

  // ---------- small updates ----------

  function SetStatus(cell: StatusCell, wanted: SessionStatus): StatusCell {
    var v := AfterSet(cell.status, wanted);
    StatusCell(v, if v == cell.status then cell.log else cell.log + [v])
  }

  function CloseUpstream(m: Member): Member {
    if m.isClosed then m else m.(isClosed := true, closes := m.closes + 1)
  }

  function WriteDown(sh: Shared, m: TunnelMessage, ok: bool): Shared {
    if ok then sh.(down := sh.down + [m]) else sh
  }

  function SendUp(sh: Shared, m: TunnelMessage): Shared {
    sh.(up := sh.up + [m])
  }

  /** The message readUpStreamPump builds for a frame. */
  function Forward(s: SessionId, kind: int, frame: Bytes): TunnelMessage {
    TunnelMessage(s, Unset, kind, frame)
  }

  /** The request the HTTP branch of `proxy` sends; the request text itself is opaque. */
  function Request(s: SessionId): TunnelMessage {
    TunnelMessage(s, Http, CONNECT_MESSAGE, [])
  }

  function CloseFor(s: SessionId, text: Bytes): TunnelMessage {
    TunnelMessage(s, Unset, CLOSE_MESSAGE, text)
  }

  function Weight(b: bool): nat {
    if b then 1 else 0
  }

  // ---------- server steps ----------

  datatype ProxyAction =
    | LoadAgent(found: bool) | Abandon | WriteConnect | FailRequest | TimeOut | LookUpSelf | CloseSelf

  predicate ProxyStep(s: SessionId, a: ProxyAction, l: Local, l': Local) {
    var srv := l.srv;
    match a
    case LoadAgent(found) =>
      srv.proxy.Start? &&
      l' == l.(srv := srv.(agentSet := found,
                           proxy := if !found then Leaving else if srv.protocol.Http? then Announcing else Preparing))
    case Abandon =>   // the SSH dialogue, the encoding or the write failed
      srv.proxy.Preparing? && l' == l.(srv := srv.(proxy := Leaving))
    case WriteConnect =>
      srv.proxy.Preparing? &&
      l' == l.(sh := WriteDown(l.sh, TunnelMessage(s, srv.protocol, CONNECT_MESSAGE, []), true),
               srv := srv.(proxy := Announcing))
    case FailRequest =>
      srv.proxy.Requesting? && l' == l.(srv := srv.(proxy := Leaving))
    case TimeOut =>
      srv.proxy.Awaiting? && l' == l.(srv := srv.(proxy := Leaving))
    case LookUpSelf =>
      srv.proxy.Leaving? &&
      l' == l.(srv := if srv.member.stored then srv.(proxy := Unregistering)
                      else srv.(proxy := Closing,
                                member := srv.member.(missPending := l.sh.hub == HubStoring(s))))
    case CloseSelf =>
      srv.proxy.Closing? && l' == l.(srv := srv.(proxy := Finished, member := CloseUpstream(srv.member)))
  }

  datatype WriterAction =
    | StopRelay | SeeConnect | Promote | SeeClose | Annotate | SeePing | WriteFrame(ok: bool)

  predicate WriterStep(a: WriterAction, l: Local, l': Local) {
    var srv := l.srv;
    match a
    case StopRelay =>   // context done, channel closed or ping failed
      srv.proxy.Relaying? && l' == l.(srv := srv.(proxy := Leaving))
    case SeeConnect =>
      srv.proxy.Holding? && srv.proxy.held.action == CONNECT_MESSAGE &&
      l' == l.(srv := srv.(proxy := if srv.cell.status.Connecting? then Promoting else Relaying))
    case Promote =>
      srv.proxy.Promoting? && l' == l.(srv := srv.(proxy := Confirming, cell := SetStatus(srv.cell, Connected)))
    case SeeClose =>
      srv.proxy.Holding? && srv.proxy.held.action == CLOSE_MESSAGE &&
      l' == l.(srv := srv.(proxy := Annotating(srv.proxy.held.payload),
                           cell := SetStatus(srv.cell, DownstreamClosed),
                           ends := srv.ends.(ended := Some(srv.proxy.held.payload))))
    case Annotate =>
      srv.proxy.Annotating? && l' == l.(srv := srv.(annotation := srv.proxy.note, proxy := Leaving))
    case SeePing =>
      srv.proxy.Holding? && srv.proxy.held.action == PING_MESSAGE &&
      l' == l.(srv := srv.(proxy := Relaying))
    case WriteFrame(ok) =>
      srv.proxy.Holding? && IsData(srv.proxy.held) &&
      l' == l.(srv := if ok then srv.(proxy := Relaying,
                                      relay := srv.relay.(frames := srv.relay.frames + [srv.proxy.held.payload]))
                      else srv.(proxy := Leaving))
  }

  datatype UpReaderAction =
    | ReadFrame(kind: int, frame: Bytes) | ReadError | MarkUpstreamClosed | CheckStatus | StopReading

  predicate UpReaderStep(a: UpReaderAction, l: Local, l': Local) {
    var srv := l.srv;
    match a
    case ReadFrame(kind, frame) =>
      srv.reader.Reading? && (kind == TEXT_MESSAGE || kind == BINARY_MESSAGE) &&
      l' == l.(srv := srv.(reader := Got(kind, frame),
                           relay := srv.relay.(inputs := srv.relay.inputs + [frame])))
    case ReadError =>
      srv.reader.Reading? && l' == l.(srv := srv.(reader := ReadFailed, ends := srv.ends.(broken := true)))
    case MarkUpstreamClosed =>
      srv.reader.ReadFailed? && l' == l.(srv := srv.(reader := Stopped, cell := SetStatus(srv.cell, UpstreamClosed)))
    case CheckStatus =>
      srv.reader.Got? &&
      l' == l.(srv := srv.(reader := if srv.cell.status.Connected? then Forwarding(srv.reader.kind, srv.reader.frame)
                                     else Reading))
    case StopReading =>
      srv.reader.Reading? && l' == l.(srv := srv.(reader := Stopped))
  }

  datatype PumpAction =
    | TakeFrame | TakeRequest | WriteMessage(ok: bool) | PumpLookUp | PumpMark | PumpQuit

  predicate PumpStep(s: SessionId, a: PumpAction, l: Local, l': Local) {
    var srv, pump := l.srv, l.sh.pump;
    match a
    case TakeFrame =>
      pump.PumpWaiting? && srv.reader.Forwarding? &&
      l' == l.(sh := l.sh.(pump := PumpWriting(Forward(s, srv.reader.kind, srv.reader.frame))),
               srv := srv.(reader := Reading,
                           relay := srv.relay.(accepted := srv.relay.accepted + [|srv.relay.inputs| - 1])))
    case TakeRequest =>
      pump.PumpWaiting? && srv.proxy.Requesting? &&
      l' == l.(sh := l.sh.(pump := PumpWriting(Request(s))), srv := srv.(proxy := Awaiting))
    case WriteMessage(ok) =>
      pump.PumpWriting? && pump.message.session == s &&
      l' == l.(sh := WriteDown(l.sh, pump.message, ok).(pump := if ok then PumpWaiting else PumpLooking(s)))
    case PumpLookUp =>
      pump == PumpLooking(s) &&
      l' == l.(sh := l.sh.(pump := if srv.member.stored then PumpMarking(s) else PumpExited))
    case PumpMark =>
      pump == PumpMarking(s) &&
      l' == l.(sh := l.sh.(pump := PumpReporting(s)), srv := srv.(cell := SetStatus(srv.cell, DownstreamClosed)))
    case PumpQuit =>
      pump.PumpWaiting? && l' == l.(sh := l.sh.(pump := PumpExited))
  }

  datatype HubAction =
    | TakeRegister | TakeOwnUnregister | TakePumpUnregister
    | StoreSession | CheckConnected | CallRegistered
    | RemoveSession | CallUnregistered | NotifyTeardown(ok: bool) | CloseSession

  predicate HubStep(s: SessionId, a: HubAction, l: Local, l': Local) {
    var srv, sh, hub := l.srv, l.sh, l.sh.hub;
    match a
    case TakeRegister =>
      hub.HubIdle? && (srv.proxy.Announcing? || srv.proxy.Confirming?) &&
      l' == l.(sh := sh.(hub := HubStoring(s)),
               srv := srv.(member := srv.member.(registers := srv.member.registers + 1),
                           proxy := if srv.proxy.Announcing? && srv.protocol.Http? then Requesting else Relaying,
                           reader := if srv.proxy.Announcing? && !srv.protocol.Http? then Reading else srv.reader))
    case TakeOwnUnregister =>
      hub.HubIdle? && srv.proxy.Unregistering? &&
      l' == l.(sh := sh.(hub := HubRemoving(s, true)),
               srv := srv.(proxy := Finished, member := srv.member.(ownRequest := true)))
    case TakePumpUnregister =>
      hub.HubIdle? && sh.pump == PumpReporting(s) &&
      l' == l.(sh := sh.(hub := HubRemoving(s, false), pump := PumpExited),
               srv := srv.(member := srv.member.(pumpRequests := srv.member.pumpRequests + 1)))
    case StoreSession =>
      hub == HubStoring(s) &&
      l' == l.(sh := sh.(hub := HubChecking(s)), srv := srv.(member := srv.member.(stored := true, everStored := true)))
    case CheckConnected =>
      hub == HubChecking(s) &&
      l' == l.(sh := sh.(hub := if srv.cell.status.Connected? then HubCalling(s) else HubIdle))
    case CallRegistered =>
      hub == HubCalling(s) &&
      l' == l.(sh := sh.(hub := HubIdle), srv := srv.(told := srv.told.(calls := srv.told.calls + [Registered(s)])))
    case RemoveSession =>
      hub.HubRemoving? && hub.of == s &&
      l' == if !srv.member.stored then l.(sh := sh.(hub := HubIdle))
            else l.(sh := sh.(hub := if srv.protocol.Http? then HubIdle else HubUncalling(s, hub.own)),
                    srv := srv.(member := srv.member.(stored := false,
                                                  lateRemoval := srv.member.lateRemoval || srv.member.missPending)))
    case CallUnregistered =>
      hub.HubUncalling? && hub.of == s &&
      l' == l.(sh := sh.(hub := HubNotifying(s, hub.own)),
               srv := srv.(told := srv.told.(calls := srv.told.calls + [Unregistered(s)])))
    case NotifyTeardown(ok) =>
      hub.HubNotifying? && hub.of == s &&
      l' == if !srv.cell.status.UpstreamClosed?
            then l.(sh := sh.(hub := HubClosing(s, hub.own)),
                    srv := srv.(told := srv.told.(notes := srv.told.notes + [srv.annotation])))
            else l.(sh := WriteDown(sh, CloseFor(s, UPSTREAM_CLOSED_TEXT), ok).(hub := HubClosing(s, hub.own)),
                    srv := srv.(told := srv.told.(closes := srv.told.closes + 1),
                                traffic := srv.traffic.(lost := srv.traffic.lost + Weight(!ok))))
    case CloseSession =>
      hub.HubClosing? && hub.of == s &&
      l' == l.(sh := sh.(hub := HubIdle), srv := srv.(member := CloseUpstream(srv.member)))
  }

  datatype InboundAction = Receive | LookUpTarget | Deliver | Bounce(ok: bool)

  predicate InboundStep(s: SessionId, a: InboundAction, l: Local, l': Local) {
    var srv, sh, inbound := l.srv, l.sh, l.sh.inbound;
    match a
    case Receive =>
      inbound.InReading? && |sh.up| > 0 && sh.up[0].session == s &&
      l' == l.(sh := sh.(up := sh.up[1..], inbound := InLooking(sh.up[0])),
               srv := srv.(relay := srv.relay.(arrived := srv.relay.arrived + Weight(IsData(sh.up[0]))),
                           traffic := srv.traffic.(received := srv.traffic.received + 1)))
    case LookUpTarget =>
      inbound.InLooking? && inbound.m.session == s &&
      l' == if srv.member.stored then l.(sh := sh.(inbound := InDelivering(inbound.m)))
            else l.(sh := sh.(inbound := InBouncing(inbound.m.(action := CLOSE_MESSAGE))),
                    srv := srv.(relay := srv.relay.(skipped := srv.relay.skipped +
                                                Weight(IsData(inbound.m) && !srv.member.everStored))))
    case Deliver =>
      inbound.InDelivering? && inbound.m.session == s && !srv.member.isClosed &&
      (srv.proxy.Relaying? || srv.proxy.Awaiting?) &&
      l' == l.(sh := sh.(inbound := InReading),
               srv := (if srv.proxy.Relaying? then srv.(proxy := Holding(inbound.m))
                       else srv.(proxy := Leaving,
                                relay := srv.relay.(replies := srv.relay.replies + [inbound.m.payload])))
                      .(traffic := srv.traffic.(delivered := srv.traffic.delivered + 1)))
    case Bounce(ok) =>
      inbound.InBouncing? && inbound.m.session == s &&
      l' == l.(sh := WriteDown(sh, inbound.m, ok).(inbound := InReading),
               srv := srv.(traffic := srv.traffic.(bounced := srv.traffic.bounced + 1,
                                                   lost := srv.traffic.lost + Weight(!ok))))
  }

  // ---------- agent steps ----------

  /** readServerMessage: one goroutine for each message. */
  function Spawn(agt: AgentSession, m: TunnelMessage): AgentSession {
    if m.protocol.Http? then agt.(https := agt.https + [HttpTask(m.action, m.action != CONNECT_MESSAGE)])
    else if m.action == PING_MESSAGE then agt
    else if m.action == CONNECT_MESSAGE then
      agt.(life := agt.life.(conn := Opening, status := NoStatus, annotation := [], closed := false),
           inflow := agt.inflow.(offer := None), outflow := agt.outflow.(offer := None))
    else if m.action == CLOSE_MESSAGE then agt.(closers := agt.closers + [Searching])
    else agt.(data := agt.data + [DataTask(m.payload, Seeking)])
  }

  predicate ReadStep(s: SessionId, l: Local, l': Local) {
    |l.sh.down| > 0 && l.sh.down[0].session == s &&
    l' == l.(sh := l.sh.(down := l.sh.down[1..]), agt := Spawn(l.agt, l.sh.down[0]))
  }

  datatype ConnAction = OpenDownstream(ok: bool, error: Bytes) | StopServing(cause: Option<Bytes>) | SetFailed

  predicate ConnStep(a: ConnAction, l: Local, l': Local) {
    var agt, life := l.agt, l.agt.life;
    match a
    case OpenDownstream(ok, error) =>
      life.conn.Opening? &&
      l' == l.(agt := if ok then agt.(life := life.(conn := Enrolling),
                                      inflow := agt.inflow.(receiving := true),
                                      outflow := agt.outflow.(sending := true, chunking := true))
                      else agt.(life := life.(conn := Withdrawing, annotation := error)))
    case StopServing(cause) =>   // the first of the three goroutines reports
      life.conn.Serving? &&
      (!agt.inflow.receiving || !agt.outflow.sending || !agt.outflow.chunking || life.closed) &&
      l' == l.(agt := agt.(life := life.(conn := Failing,
                                         annotation := if cause.Some? && !life.status.SessionClosed? then cause.value
                                                       else life.annotation)))
    case SetFailed =>
      life.conn.Failing? &&
      l' == l.(agt := agt.(life := life.(conn := Withdrawing, status := AfterSet(life.status, ProcessFailed))))
  }

  datatype AgentHubAction =
    | AgentTakeRegister | AgentStore | AgentAck
    | AgentTakeUnregister | AgentRemove | AgentShut | AgentDecide | AgentNotice

  predicate AgentHubStep(s: SessionId, a: AgentHubAction, l: Local, l': Local) {
    var agt, life, sh, hub := l.agt, l.agt.life, l.sh, l.sh.agentHub;
    match a
    case AgentTakeRegister =>
      hub.AgentIdle? && life.conn.Enrolling? &&
      l' == l.(sh := sh.(agentHub := AgentStoring(s)), agt := agt.(life := life.(conn := Serving)))
    case AgentStore =>
      hub == AgentStoring(s) &&
      l' == l.(sh := sh.(agentHub := AgentAcking(s)),
               agt := agt.(life := life.(stored := true, stores := life.stores + 1)))
    case AgentAck =>
      hub == AgentAcking(s) &&
      l' == l.(sh := SendUp(sh, TunnelMessage(s, Unset, CONNECT_MESSAGE, [])).(agentHub := AgentIdle),
               agt := agt.(life := life.(control := life.control + [CONNECT_MESSAGE])))
    case AgentTakeUnregister =>
      hub.AgentIdle? && life.conn.Withdrawing? &&
      l' == l.(sh := sh.(agentHub := AgentRemoving(s)),
               agt := agt.(life := life.(conn := Over, withdrawals := life.withdrawals + 1)))
    case AgentRemove =>
      hub == AgentRemoving(s) &&
      l' == if life.stored
            then l.(sh := sh.(agentHub := AgentShutting(s)),
                    agt := agt.(life := life.(stored := false, removes := life.removes + 1)))
            else l.(sh := sh.(agentHub := AgentDeciding(s)))
    case AgentShut =>
      hub == AgentShutting(s) &&
      l' == l.(sh := sh.(agentHub := AgentDeciding(s)), agt := agt.(life := life.(closed := true)))
    case AgentDecide =>
      hub == AgentDeciding(s) &&
      l' == l.(sh := sh.(agentHub := if life.status.UpstreamClosed? then AgentIdle else AgentNoticing(s)))
    case AgentNotice =>
      hub == AgentNoticing(s) &&
      l' == l.(sh := SendUp(sh, CloseFor(s, life.annotation)).(agentHub := AgentIdle),
               agt := agt.(life := life.(control := life.control + [CLOSE_MESSAGE],
                                         reasons := life.reasons + [life.annotation])))
  }

  datatype DataAction = DataSeek | DataRefuse | DataAcquire | DataFinish | DataCut

  /** Processor on the `i`-th data message. */
  predicate DataStep(s: SessionId, i: nat, a: DataAction, l: Local, l': Local) {
    var agt, pipe := l.agt, l.agt.inflow;
    i < |agt.data| &&
    var task := agt.data[i];
    match a
    case DataSeek =>
      task.pc.Seeking? &&
      l' == l.(agt := agt.(data := agt.data[i := task.(pc := if agt.life.stored then Writing else Refusing)]))
    case DataRefuse =>
      task.pc.Refusing? &&
      l' == l.(sh := SendUp(l.sh, CloseFor(s, [])),
               agt := agt.(data := agt.data[i := task.(pc := Refused)],
                           life := agt.life.(reasons := agt.life.reasons + [[]])))
    case DataAcquire =>   // the write begins, or finds the pipe closed
      task.pc.Writing? && (agt.life.closed || pipe.offer.None?) &&
      l' == l.(agt := if agt.life.closed then agt.(data := agt.data[i := task.(pc := Ended)])
                      else agt.(data := agt.data[i := task.(pc := Offering)],
                                inflow := pipe.(offer := Some(Offer(i, task.payload, 0, false)))))
    case DataFinish =>
      task.pc.Offering? && pipe.offer.Some? && pipe.offer.value.owner == i && Complete(pipe.offer.value) &&
      l' == l.(agt := agt.(data := agt.data[i := task.(pc := Ended)],
                           inflow := pipe.(offer := None, delivered := pipe.delivered + [i])))
    case DataCut =>
      task.pc.Offering? && pipe.offer.Some? && pipe.offer.value.owner == i && !Complete(pipe.offer.value) &&
      agt.life.closed &&
      l' == l.(agt := agt.(data := agt.data[i := task.(pc := Ended)],
                           inflow := pipe.(offer := None, cut := Some(Cut(i, pipe.offer.value.taken)))))
  }

  datatype TaskAction = CloserSeek(i: nat) | CloserMark(i: nat) | CloserShut(i: nat) | HttpAnswer(i: nat, body: Bytes)

  /** Processor on the `i`-th CloseMessage, httpProcessor on the `i`-th HTTP message. */
  predicate TaskStep(s: SessionId, a: TaskAction, l: Local, l': Local) {
    var agt, life := l.agt, l.agt.life;
    match a
    case CloserSeek(i) =>
      i < |agt.closers| && agt.closers[i].Searching? &&
      l' == l.(agt := agt.(closers := agt.closers[i := if life.stored then Marking else Ignored]))
    case CloserMark(i) =>
      i < |agt.closers| && agt.closers[i].Marking? &&
      l' == l.(agt := agt.(closers := agt.closers[i := Shutting],
                           life := life.(status := AfterSet(life.status, UpstreamClosed))))
    case CloserShut(i) =>
      i < |agt.closers| && agt.closers[i].Shutting? &&
      l' == l.(agt := agt.(closers := agt.closers[i := Shut], life := life.(closed := true)))
    case HttpAnswer(i, body) =>
      i < |agt.https| && !agt.https[i].answered &&
      l' == l.(sh := SendUp(l.sh, TunnelMessage(s, Http, agt.https[i].action, body)),
               agt := agt.(https := agt.https[i := agt.https[i].(answered := true)], answers := agt.answers + [body]))
  }

  datatype StreamAction =
    | ReceiveBytes | StopReceiving
    | Produce(message: Bytes) | WriteDone | StopSending
    | ReadChunk | SendChunk | StopChunking

  predicate StreamStep(s: SessionId, a: StreamAction, l: Local, l': Local) {
    var agt, closed, pipe, out := l.agt, l.agt.life.closed, l.agt.inflow, l.agt.outflow;
    match a
    case ReceiveBytes =>
      pipe.receiving && !closed && pipe.offer.Some? && ValidOffer(pipe.offer.value) && !Complete(pipe.offer.value) &&
      l' == l.(agt := agt.(inflow := pipe.(received := pipe.received + NextRead(pipe.offer.value),
                                           offer := Some(AfterRead(pipe.offer.value)))))
    case StopReceiving =>
      pipe.receiving && l' == l.(agt := agt.(inflow := pipe.(receiving := false)))
    case Produce(message) =>
      out.sending && !closed && out.offer.None? &&
      l' == l.(agt := agt.(outflow := out.(offer := Some(Offer(0, message, 0, false)),
                                           produced := out.produced + [message])))
    case WriteDone =>   // the write returns: all read, or the pipe was closed
      out.sending && out.offer.Some? && (Complete(out.offer.value) || closed) &&
      l' == l.(agt := agt.(outflow := out.(offer := None, sending := Complete(out.offer.value))))
    case StopSending =>
      out.sending && out.offer.None? && l' == l.(agt := agt.(outflow := out.(sending := false)))
    case ReadChunk =>
      out.chunking && !closed && out.hand.None? && out.offer.Some? && ValidOffer(out.offer.value) &&
      !Complete(out.offer.value) &&
      l' == l.(agt := agt.(outflow := out.(hand := Some(NextRead(out.offer.value)),
                                           chunks := out.chunks + [NextRead(out.offer.value)],
                                           offer := Some(AfterRead(out.offer.value)))))
    case SendChunk =>
      out.hand.Some? &&
      l' == l.(sh := SendUp(l.sh, TunnelMessage(s, Unset, BINARY_MESSAGE, out.hand.value)),
               agt := agt.(outflow := out.(hand := None)))
    case StopChunking =>
      out.chunking && closed && out.hand.None? && l' == l.(agt := agt.(outflow := out.(chunking := false)))
  }

  // ---------- the whole system ----------

  datatype Action =
    | Proxy(p: ProxyAction) | Writer(w: WriterAction) | UpReader(r: UpReaderAction) | Pump(u: PumpAction)
    | Hub(h: HubAction) | Inbound(n: InboundAction)
    | Read | Conn(c: ConnAction) | AgentHub(g: AgentHubAction)
    | Data(i: nat, d: DataAction) | Task(k: TaskAction) | Stream(x: StreamAction)

  /** One step of some goroutine on behalf of session `s`. */
  predicate Step(s: SessionId, a: Action, l: Local, l': Local) {
    match a
    case Proxy(p) => ProxyStep(s, p, l, l')
    case Writer(w) => WriterStep(w, l, l')
    case UpReader(r) => UpReaderStep(r, l, l')
    case Pump(u) => PumpStep(s, u, l, l')
    case Hub(h) => HubStep(s, h, l, l')
    case Inbound(n) => InboundStep(s, n, l, l')
    case Read => ReadStep(s, l, l')
    case Conn(c) => ConnStep(c, l, l')
    case AgentHub(g) => AgentHubStep(s, g, l, l')
    case Data(i, d) => DataStep(s, i, d, l, l')
    case Task(k) => TaskStep(s, k, l, l')
    case Stream(x) => StreamStep(s, x, l, l')
  }

  predicate ServerSide(a: Action) {
    a.Proxy? || a.Writer? || a.UpReader? || a.Pump? || a.Hub? || a.Inbound?
  }

  lemma ServerSideFrame(s: SessionId, a: Action, l: Local, l': Local)
    requires Step(s, a, l, l') && ServerSide(a)
    ensures l'.agt == l.agt && l'.sh.agentHub == l.sh.agentHub
  {
  }

  lemma AgentSideFrame(s: SessionId, a: Action, l: Local, l': Local)
    requires Step(s, a, l, l') && !ServerSide(a)
    ensures l'.srv == l.srv
    ensures l'.sh == l.sh.(agentHub := l'.sh.agentHub, down := l'.sh.down, up := l'.sh.up)
  {
  }

  /** What each of the server's goroutines leaves alone. */
  lemma WriterFrame(a: WriterAction, l: Local, l': Local)
    requires WriterStep(a, l, l')
    ensures l'.sh == l.sh && l'.srv.member == l.srv.member && l'.srv.told == l.srv.told
    ensures l'.srv.protocol == l.srv.protocol && l'.agt == l.agt
  {
  }

  lemma UpReaderFrame(a: UpReaderAction, l: Local, l': Local)
    requires UpReaderStep(a, l, l')
    ensures l'.sh == l.sh && l'.srv.member == l.srv.member && l'.srv.told == l.srv.told
    ensures l'.srv.protocol == l.srv.protocol && l'.srv.proxy == l.srv.proxy && l'.agt == l.agt
  {
  }

  lemma PumpFrame(s: SessionId, a: PumpAction, l: Local, l': Local)
    requires PumpStep(s, a, l, l')
    ensures l'.sh == l.sh.(pump := l'.sh.pump, down := l'.sh.down)
    ensures l'.srv.member == l.srv.member && l'.srv.told == l.srv.told && l'.srv.protocol == l.srv.protocol
  {
  }

  lemma InboundFrame(s: SessionId, a: InboundAction, l: Local, l': Local)
    requires InboundStep(s, a, l, l')
    ensures l'.sh == l.sh.(inbound := l'.sh.inbound, down := l'.sh.down, up := l'.sh.up)
    ensures l'.srv.member == l.srv.member && l'.srv.told == l.srv.told && l'.srv.protocol == l.srv.protocol
  {
  }

  lemma ProxyFrame(s: SessionId, a: ProxyAction, l: Local, l': Local)
    requires ProxyStep(s, a, l, l')
    ensures l'.sh == l.sh.(down := l'.sh.down) && l'.srv.told == l.srv.told && l'.srv.protocol == l.srv.protocol
    ensures l'.srv.member == l.srv.member.(missPending := l'.srv.member.missPending,
                                           isClosed := l'.srv.member.isClosed, closes := l'.srv.member.closes)
    ensures a != LookUpSelf ==> l'.srv.member.missPending == l.srv.member.missPending
  {
  }

  const IDLE: Shared := Shared(HubIdle, PumpWaiting, InReading, AgentIdle, [], [])

  function NewServerSession(protocol: Protocol): ServerSession {
    ServerSession(protocol, false, Start, NotStarted, StatusCell(Connecting, [Connecting]), [],
                  Member(false, false, 0, false, 0, false, 0, false, false),
                  Told([], [], 0),
                  Relay([], [], [], 0, 0, []),
                  Traffic(0, 0, 0, 0), Ends(false, None))
  }

  const NO_AGENT_SESSION: AgentSession :=
    AgentSession(Life(Absent, NoStatus, [], false, false, [], [], 0, 0, 0),
                 Inflow(None, false, [], [], None),
                 Outflow(None, false, false, None, [], []),
                 [], [], [], [])

  /** A session `proxy` has just created. */
  predicate IsNew(l: Local, protocol: Protocol) {
    l.srv == NewServerSession(protocol) && l.agt == NO_AGENT_SESSION &&
    (l.sh == IDLE || l.sh == IDLE.(pump := PumpExited))
  }

  predicate Init(g: State) {
    g == State(IDLE, [], false)
  }

  function At(g: State, s: SessionId): Local
    requires s < |g.nodes|
  {
    Local(g.sh, g.nodes[s].srv, g.nodes[s].agt)
  }

  /** What can happen next: a step of some goroutine, a request that reaches `proxy`, a send on a closed channel. */
  datatype Event = Move(s: SessionId, a: Action) | Open(protocol: Protocol) | Crash

  predicate Acts(g: State, s: SessionId, a: Action, g': State) {
    s < |g.nodes| && |g'.nodes| == |g.nodes| && !g'.crashed &&
    Step(s, a, At(g, s), At(g', s)) &&
    forall t :: 0 <= t < |g.nodes| && t != s ==> g'.nodes[t] == g.nodes[t]
  }

  predicate Happens(g: State, e: Event, g': State) {
    !g.crashed &&
    match e
    case Move(s, a) => Acts(g, s, a, g')
    case Open(protocol) => g' == g.(nodes := g.nodes + [Node(NewServerSession(protocol), NO_AGENT_SESSION)])
    case Crash =>
      g.sh.inbound.InDelivering? && g.sh.inbound.m.session < |g.nodes| &&
      g.nodes[g.sh.inbound.m.session].srv.member.isClosed && g' == g.(crashed := true)
  }

  /** A run: every state but the first follows from the one before by the event between them. */
  predicate IsRun(run: seq<State>, events: seq<Event>) {
    |run| == |events| + 1 && Init(run[0]) &&
    forall i :: 0 <= i < |events| ==> Happens(run[i], events[i], run[i + 1])
  }
}
