# Tunnel protocol: a verified model

Browsers reach services behind an agent through a tunnel. All sessions of an agent share one websocket between the
server and that agent. The server's `proxy` handler creates a session and writes a connect message; the agent opens the
downstream, stores the session and acknowledges; then bytes are relayed both ways until either side goes away. On both
machines a hub goroutine owns the session map, and several more goroutines per session and per connection exchange
messages over unbuffered channels, `io.Pipe`s and a status field with absorbing values.

The model has two layers.

**The machine** (`Machine`) is the whole system as a transition relation: every goroutine is a program counter, the two
directions of the websocket are queues, every session has a record on the server and one on the agent. One step is what
a goroutine does between two points where another can interfere, so the gaps that matter are there: an unbuffered send
completes when it is received and not when the hub has acted on it; the hub's receive, `Store`, status read and callback
are separate steps; `GetStatus` and the `SetStatus` that follows it are separate steps; a deferred lookup can come while
a `Store` is still to come. A run is any finite sequence of states linked by steps of any goroutines, of any number of
sessions, with requests arriving at any time. A goroutine that leaves its loop without further effect (context done,
ticker, failed ping) is one that takes no more steps, so every such exit is covered. A send on a closed channel ends the
run. `Theorems` and `Bounce` hold the guarantees over all runs, `Witnesses` runs that show what is not guaranteed.

The proofs go through one session at a time. `Projection` shows that a step made for a session is a step on what that
session sees of the shared part, and that every other session sees nothing of it (or only that the agent's write pump
is gone). The inductive invariants (`ServerInvariant`, `AgentInvariant`, `UpwardOrder`, `DownwardDelivery`,
`HttpExchange`, `Endings`, `Duties`, `Ledger`), the history facts (`History`, `LeftBehind`), the tally of the hub's
decisions (`Callbacks`) and the ranking (`Rank`) are about one such view; `Reachability` and `Bounce` lift them to all
sessions of all runs. `Paths` is about what can still happen from a state of a run. `Witnesses` also takes sessions
through the machine from end to end, so that the statements about all runs are about runs in which something happens.

**The objects** (`ServerObjects`, `ServerHub`, `AgentObjects`, `Keepalive`) are the classes with their fields and the
methods that update them: the close-once guard, the status and annotation setters, the hubs handling requests, the loops
of the pumps over what they are given, the pipe with its reads into byte buffers. Each method is proved against a
function of its inputs and of the old state; `Wires` holds those of the connections and the upstream pumps, `HubTurns`
those of the server's hub and its inbound pump, with what other goroutines do in between as part of the input.
`Handling` connects the two layers: a request the machine's hub handles without interruption, or a message its upstream
pump does, has exactly the effect the methods are proved to have. `HubHistory` says what the key sets of the maps and
the client callbacks are as a function of the requests handled so far.

## Where the machine's steps come from

| predicate | source |
|---|---|
| `Machine.ProxyStep` | pkg/server/server.go:171-344 |
| `Machine.WriterStep` | pkg/server/server.go:492-541 |
| `Machine.UpReaderStep` | pkg/server/server.go:452-490 |
| `Machine.PumpStep` | pkg/server/server.go:399-432 |
| `Machine.HubStep` | pkg/server/hub.go:53-88 |
| `Machine.InboundStep` | pkg/server/server.go:346-398 |
| `Machine.ReadStep`, `Machine.Spawn` | pkg/client/client.go:270-308 |
| `Machine.ConnStep` | pkg/client/client.go:134-217 |
| `Machine.AgentHubStep` | pkg/client/hub.go:27-67 |
| `Machine.DataStep` | pkg/client/client.go:229-240 |
| `Machine.TaskStep` | pkg/client/client.go:218-228 and 89-125 |
| `Machine.StreamStep` | pkg/client/client.go:37-73 and 147-201 |

## What the code does not guarantee

* The comment on `proxy`'s deferred function (pkg/server/server.go:217-224) suggests that a session is on the hub's map
  or is closed by hand. A lookup that comes between the hub's receipt of a register request and its `Store` closes the
  upstream by hand and leaves the session on the map. `Theorems.LeftBehindIff` says exactly when that is,
  `Theorems.LeftBehindUntilRemoved` how long it lasts, `Theorems.LeftBehindForGood` exactly when it is for ever, and
  `Witnesses.LeftBehindHappens` is a run in which it is so. Such a session is on the map with its channel closed: a
  message of the agent that is looked up for it can only end the run with a send on a closed channel
  (`Theorems.LeftBehindEndsTheRun`, `Theorems.ClosedChannelEndsTheRun`, `Witnesses.LeftBehindPanicsHappens`).
* An HTTP session that leaves through the hub never has its upstream channel closed (pkg/server/hub.go:69-71), which is
  the one exception in `Theorems.ClosedExactlyOnce`. A reply that the inbound pump has already looked up when the handler
  stops waiting then blocks the pump for the rest of the run, for all sessions of the agent
  (`Theorems.ReplyBlocksForGood`), and `Theorems.ReplyBlocksIff` says that these are the only states in which an HTTP
  reply does. `Witnesses.HttpNeverClosedHappens` is a run with both.
* The register callback may fire twice, because both register requests can find the status Connected
  (`Witnesses.RegisteredTwiceHappens`), and the unregister callback may fire twice, because the relay's register request
  can put the session back after the write pump's request (`Witnesses.UnregisteredTwiceHappens`).
  `Theorems.CallbacksFireTwiceIff` says exactly when. Neither fires a third time, and no register callback comes after
  an unregister callback.
* Unregistering a client removes whatever client is registered under that id and closes the one in the request
  (pkg/server/hub.go:40-51); two can be registered because the check for one online comes before the registration
  (pkg/server/server.go:147-154). `ServerHub.Hub.UnregisterClient` says that the removed client is the one closed if
  and only if it is the one in the request; `Witnesses.WrongClientClosed` is a case where it is not.

## Model

| member | source | states |
|---|---|---|
| Theorems.StatusIsOrderly | pkg/server/type.go:110-123 | over any run the values of a session's status are Connecting, then perhaps Connected, then perhaps one closed value, and an absorbing value is never left, in spite of the gap between reading and setting it |
| Theorems.CallbacksAreSafe | pkg/server/hub.go:53-74 | after the unregister callback of a session its register callback never fires; both carry the session's own id; neither fires for HTTP; the register callback means that the agent's hub has stored the session |
| Theorems.TeardownIsExclusive | pkg/server/hub.go:75-86 | the annotation is written upstream or the agent is told, never both, over all unregister requests and status writes; once a session that is not HTTP is off the map and the hub has drained, exactly one of the two has been done |
| Theorems.StatusTellsWhoClosed | pkg/server/server.go:423-424 | upstream closed means that reading the upstream has failed, downstream closed that the relay took the agent's close or that a write to the agent failed, and each of these leaves one of the two for good |
| Theorems.CloseReasonIsShown | pkg/server/server.go:520-523 | when only the session's own request removed it and the upstream was not found closed, the upstream has been told exactly once, with the payload of the agent's close that ended the relay, which the agent has sent |
| Theorems.RequestsAreBounded | pkg/server/server.go:216-225 | at most two register and two unregister requests of a session ever reach the hub |
| Theorems.CallbacksAreCounted | pkg/server/hub.go:53-74 | the register callback fires once for each register request for which the hub reads Connected, which it reads at most once for each of two requests; the unregister callback fires once for each unregister request that takes the session off, its own and the write pump's, at most once each |
| Theorems.CallbacksFireTwiceIff | pkg/server/hub.go:53-74 | the register callback has fired twice if and only if both reads found Connected, and not at all if and only if neither did; reading anything else once leaves at most one; the unregister callback has fired twice if and only if both kinds of request took the session off |
| Callbacks.AlwaysTallied | pkg/server/hub.go:53-74 | every callback fired so far is matched with one decision of the hub, in every state of every run |
| Theorems.GoneForGood | pkg/server/hub.go:63-67 | once the hub has handled the deferred function's own request the session is absent in every later state |
| Theorems.RegisteredHasAgent | pkg/server/server.go:226-246 | every session on the map has its agent assigned |
| Theorems.ClosedExactlyOnce | pkg/server/type.go:165-178 | the upstream channel is never closed twice; when the handler is done and the hub has drained it has been closed once, if and only if it is not an HTTP session that left through the hub |
| Theorems.LeftBehindIff | pkg/server/server.go:216-225 | with handler done and hub drained, a session is on the map if and only if the deferred lookup came before a pending Store and the hub has handled no unregister request for it since |
| Theorems.LeftBehindUntilRemoved | pkg/server/server.go:419-426 | after such a lookup, in every later state with the hub drained, the session is on the map if and only if no unregister request for it has been handled since; none ever is if the write pump had exited |
| Theorems.LeftBehindForGood | pkg/server/server.go:419-426 | a session left behind stays on the map in every continuation if and only if nobody can have it removed any more: the hub is not about to, the write pump is not working for it, and the write pump has failed or the session's reader has and will get nothing to forward |
| Theorems.ReplyBlocksForGood | pkg/server/server.go:377-380 | an HTTP reply already looked up when the handler stops waiting is never delivered if the handler leaves through the hub, and nothing the agent sends is read any more, for any session; the channel is never closed |
| Theorems.ReplyBlocksIff | pkg/server/server.go:259-287 | an offered HTTP reply blocks the pump in every continuation if and only if the handler has stopped waiting and leaves or has left through the hub; otherwise it can still be taken, or the channel be closed and the send panic |
| Theorems.ClosedChannelEndsTheRun | pkg/server/server.go:380 | a message offered on a closed channel is never delivered in any continuation, and the panic is always possible until it happens |
| Theorems.LeftBehindEndsTheRun | pkg/server/server.go:378-380 | every message looked up for a session left behind whose handler is done is offered on a closed channel |
| Witnesses.LeftBehindHappens | pkg/server/server.go:339-342 | a run in which that happens |
| Witnesses.LeftBehindPanicsHappens | pkg/server/server.go:378-380 | a run in which the agent's acknowledgement of a session left behind ends in a send on a closed channel |
| Witnesses.RegisteredTwiceHappens | pkg/server/hub.go:53-59 | a run from the request through the agent's acknowledgement in which the register callback fires twice: the hub reads the status for the first request late |
| Witnesses.UnregisteredTwiceHappens | pkg/server/hub.go:63-74 | a run in which the write pump's request and the session's own both take it off the map |
| Witnesses.HttpNeverClosedHappens | pkg/server/hub.go:69-71 | a run in which an HTTP handler is done and the hub drained, the channel has not been closed, and the inbound pump is blocked on the reply |
| Witnesses.EchoHappens | pkg/client/client.go:134-217 | a session from end to end: a frame reaches the downstream whole, the answer the upstream, and at the end the upstream is told the agent's reason |
| Witnesses.UpstreamClosesHappens | pkg/client/client.go:218-228 | a session the upstream closes: the agent is told, closes it and says nothing back, and a late chunk draws one close, which is ignored |
| Witnesses.HttpEchoHappens | pkg/client/client.go:89-125 | an HTTP exchange in which the handler takes the body the agent answered with |
| Witnesses.WrongClientClosed | pkg/server/hub.go:40-51 | two clients under one id, the first unregistered: the second is off the map and open, the first closed |
| Theorems.NeverTooEarly | pkg/client/client.go:229-235 | wherever data for a session is between the upstream reader and the agent's goroutines, the agent's hub has stored the session, so a missing entry means it was removed |
| Theorems.DataIsAccountedFor | pkg/client/client.go:230-239 | data the agent refuses belongs to a session that was stored and has been removed; data it has finished with was delivered whole or its pipe is closed |
| Theorems.ClosesTakeEffect | pkg/client/client.go:218-227 | a close that finds its session marks it and then closes its pipes, for good, and only such a close makes the agent hold the upstream for closed |
| Theorems.MessagesAreConserved | pkg/server/server.go:377-392 | what the agent has sent is on the wire, with the inbound pump, handed over or answered with a close; every close the server sent is on the wire, unwritten or one task of the agent |
| Theorems.ConnectNamesProtocol | pkg/server/server.go:238-241 | the connect request on its way to the agent names the session's protocol |
| Theorems.AgentLivesOnce | pkg/client/hub.go:34-63 | one presence on the agent's map, at most one unregister, and control messages that are none, Connect, Connect then Close, or Close |
| Theorems.UpstreamGetsARun | pkg/server/server.go:505-531 | the binary frames a session's upstream gets are consecutive chunks of that session's downstream messages, in order and none twice, starting after those that arrived before the first Store |
| Theorems.UpstreamGetsAPrefix | pkg/client/client.go:44-60 | if the session was stored before a chunk arrived, the frames are a prefix of the chunks, and their bytes a prefix of the downstream's bytes |
| Theorems.DownstreamGetsWholeFrames | pkg/client/client.go:148-174 | in a state that satisfies the delivery invariant the bytes handed to the downstream are whole forwarded frames of this session, none twice, then perhaps the beginning of one more, whose write is in progress or was cut by the closing of the pipe |
| Theorems.DownwardDelivered | pkg/client/client.go:236-239 | the same in every state of every run: no interleaving within a payload, no duplicates, nothing from another session |
| Theorems.HttpAnswersOnce | pkg/client/client.go:89-125 | one answer for each request answered, at most one request; together the answers on the wire, with the inbound pump, consumed, and turned into closes under way or absorbed are never more than the answers given; a body consumed is one the agent answered with; other sessions have none |
| Bounce.BouncesTerminate | pkg/server/server.go:378-393 | over a whole run the number of steps without outside input is bounded by a weight of the inputs |
| Bounce.QuietStretchIsShort | pkg/server/server.go:378-393 | from any reachable state a stretch without input is no longer than what the state still owes |
| Bounce.EventPays | pkg/client/client.go:78-84 | every event without input makes the total strictly smaller, every input raises it by at most its cost |
| Rank.StepUses | pkg/client/client.go:218-235 | the same for one session's view of one step: a message pays in advance for the answer it may draw |
| Projection.StepProjects | pkg/server/server.go:377-380 | a step for one session is a step on that session's own messages and goroutines, and other sessions notice nothing but the exit of the agent's write pump |
| Reachability.RunsAreWhole | pkg/server/hub.go:27-90 | all invariants hold for all sessions in every state of every run |
| History.RunGrows | pkg/server/type.go:110-117 | status histories, callbacks, frames and delivered bytes only grow along a run |
| History.DismissedForGood | pkg/server/hub.go:63-67 | the state after the deferred function's request is never left |
| LeftBehind.StrandedForGood | pkg/server/server.go:419-426 | the state of a session left behind that nobody can have removed is never left |
| LeftBehind.CanBeRemoved | pkg/server/server.go:477-485 | from any reachable state in which a stored session is removable there is a continuation that removes it |
| History.GetsOn | pkg/server/server.go:262-287 | an offered HTTP reply that is not stuck has a continuation in which it is taken or the run ends |
| History.DoomedForGood | pkg/server/type.go:166-178 | an offer on a closed channel is never withdrawn |
| Paths.Continues | pkg/server/server.go:171-344 | what can happen from a state of a run makes another run, the same up to that state |
| History.StuckForGood | pkg/server/server.go:377-380 | nor is that of the inbound pump blocked on a reply: it keeps its message, and what the agent has sent stays unread |
| LeftBehind.MissStays | pkg/server/server.go:216-225 | after a lookup that came too early the record of it stays, and a removal is recorded if and only if the hub handles an unregister request after it |
| LeftBehind.NoPumpNoRemoval | pkg/server/server.go:419-426 | with the write pump gone no unregister request follows such a lookup |
| ServerInvariant.Preserved | pkg/server/server.go:171-344 | every step keeps the server's invariant of status, map membership, callbacks and teardown |
| AgentInvariant.Preserved | pkg/client/client.go:130-242 | every step keeps the agent's life cycle and the causal chain from connect request to data |
| UpwardOrder.Preserved | pkg/client/client.go:314-337 | every step keeps the chunks on their way up in order and accounted for |
| DownwardDelivery.Preserved | pkg/client/client.go:247-264 | every step keeps the payloads on their way down whole and each used once |
| HttpExchange.Preserved | pkg/server/server.go:244-288 | every step keeps one request, one answer, one consumption |
| HttpExchange.AnswerCarriesBody | pkg/client/client.go:94-98 | the answer goes up under its own session id, as HTTP, with the body of the response |
| Endings.Preserved | pkg/server/server.go:492-541 | every step keeps who closed the session, its annotation and where the reason came from |
| Duties.Preserved | pkg/client/client.go:218-240 | every step keeps what the agent owes its data messages and closes |
| Ledger.Preserved | pkg/server/server.go:372-393 | every step keeps the conservation of messages and closes |
| History.SeizedForGood | pkg/client/client.go:225-227 | a close that has found its session stays on its way to closing it |
| Pipes.SplitFacts | pkg/client/client.go:45-55 | a message of n bytes read through the buffer gives max(1, ceil(n/1024)) pieces, all full but the last, which together are the message |
| Pipes.SplitAllFlatten | pkg/client/client.go:45-55 | the pieces of all messages hold the bytes of all messages |
| Pipes.ReadServes | pkg/client/client.go:46-47 | a read gets the next piece of the write in progress, at most a buffer, and leaves the rest for later reads |
| Pipes.NextWriteBegins | pkg/client/client.go:192 | the oldest waiting write is served next and whole |
| Protocol.Alphabet | pkg/type.go:28-52 | the message kinds by their numbers, and the text of the status that is sent |
| Protocol.StatusesThatStay | pkg/server/type.go:113-116 | three statuses stay whatever is set, every other one gives way |
| Handling.RegisterUninterrupted | pkg/server/hub.go:53-62 | the machine's steps for a register request amount to store and, if connected, the callback |
| Handling.UnregisterUninterrupted | pkg/server/hub.go:63-87 | the machine's steps for an unregister request amount to delete, callback, one of the two notices, close |
| Handling.EnrolUninterrupted | pkg/client/hub.go:34-49 | the agent's steps for a register request amount to store, then acknowledge |
| Handling.WithdrawUninterrupted | pkg/client/hub.go:50-63 | the agent's steps for an unregister request amount to delete and close, then notify unless the upstream had closed |
| Handling.FailedOpenIsReported | pkg/client/client.go:140-146 | a downstream that cannot be opened is reported with one close that carries the error |
| Handling.EndIsReported | pkg/client/client.go:207-216 | a downstream that ends is reported with its last error, unless the upstream has closed |
| Handling.MessageUninterrupted | pkg/server/server.go:512-531 | the machine's steps for one message from the agent do to status, annotation, upstream and loop what the relay of the objects does |
| Handling.FrameUninterrupted | pkg/server/server.go:477-485 | a frame the machine hands on is the one the read pump of the objects forwards, or none |
| HubHistory.ClientsByLastWord | pkg/server/hub.go:34-52 | a client id is a key if and only if some registration of it has no later unregistration |
| HubHistory.SessionsByLastWord | pkg/server/hub.go:53-67 | the same for session ids |
| HubHistory.CallsTellPresence | pkg/server/hub.go:36-51 | a client is registered if and only if the callbacks fired so far announce it and do not take that back |
| HubHistory.GoneNeedsUp | pkg/server/hub.go:40-51 | before an unregister callback there is a register callback with no unregister callback in between |
| HubHistory.UpBetweenGone | pkg/server/hub.go:40-51 | between two unregister callbacks for a client there is a register callback for it |
| Wires.AfterBoth | pkg/server/type.go:145-150 | writes on a connection that fails at some point compose |
| Wires.WritesGoOut | pkg/server/type.go:145-150 | what is written goes out as far as there is room, in order and after what went out before |
| Wires.FramesSay | pkg/server/hub.go:61-84 | texts, messages and payloads are framed one by one, as they are |
| Wires.CloseEndsRelay | pkg/server/server.go:520-523 | a close ends the relay, leaves downstream closed unless a side was closed before, and its payload is the annotation |
| Wires.ConfirmedConnects | pkg/server/server.go:514-517 | an acknowledgement that finds the session connecting leaves it connected and asks the hub once |
| Wires.DataIsWritten | pkg/server/server.go:527-531 | data with room is written as one binary frame and changes nothing else; without room the relay ends |
| Wires.PingIsNothing | pkg/server/server.go:512-531 | a ping changes nothing |
| Wires.SetInBetween | pkg/server/type.go:110-117 | a status another goroutine sets in between is what the next message finds, and nothing else changes |
| Wires.WaitText | pkg/server/server.go:478 | the text for an upstream that writes too early |
| Wires.ForwardedOrRefused | pkg/server/server.go:477-485 | every frame read from the upstream is forwarded or answered with the waiting text |
| Wires.WrittenOnce | pkg/server/server.go:527-531 | one more message keeps what writeUpStreamPump has written in step with the messages taken, up to the first close or failed write |
| Wires.RegistersIff | pkg/server/server.go:513-518 | the hub is asked to register the session if and only if some acknowledgement finds it connecting |
| Wires.RegistersOnce | pkg/server/server.go:513-518 | and at most once, as long as nobody sets the status back |
| Wires.ClosedStaysClosed | pkg/server/type.go:113-115 | a session closed before the acknowledgement is not registered, whatever comes afterwards |
| Wires.RelayAlone | pkg/server/server.go:511-525 | if no other goroutine sets the status, the first acknowledgement registers a connecting session and a close ends it |
| HubTurns.ReasonArrives | pkg/client/hub.go:58-62 | the agent's reason for leaving is the annotation it leaves on the session |
| HubTurns.ReasonIsShown | pkg/server/hub.go:72-86 | the hub writes that reason upstream, or, if the upstream has closed, tells the agent |
| HubTurns.AcknowledgementConfirms | pkg/client/hub.go:35-45 | the agent's acknowledgement connects a connecting session, which is then announced |
| HubTurns.ShutIsFinal | pkg/server/type.go:152-163 | a closed connection keeps what went out and lets nothing more out |
| HubTurns.PumpIsolates | pkg/server/server.go:377-380 | whatever the hub does between messages, a session's queue only gets messages under its own id |
| HubTurns.PumpDemultiplexes | pkg/server/server.go:377-392 | if the hub does nothing in between, each session gets exactly its own messages, in order, and each other message draws one close back to the agent |
| ServerObjects.Socket.WriteMessage | pkg/server/type.go:145-150 | a write goes out as one more frame, or fails and changes nothing |
| ServerObjects.Client.WsLockWriteMessage | pkg/server/type.go:145-150 | the same through the client |
| ServerObjects.Client.Close | pkg/server/type.go:152-163 | however often it is called the channel is closed once; nothing is written afterwards |
| ServerObjects.Session.constructor | pkg/server/server.go:207-215 | a new session is Connecting and has no agent |
| ServerObjects.Session.SetStatus | pkg/server/type.go:110-117 | the status cell changes as the machine's does: an absorbing value stays |
| ServerObjects.Session.Close | pkg/server/type.go:166-178 | closes the upstream once |
| ServerObjects.Session.ReadUpStreamPump | pkg/server/server.go:452-490 | over any frames and any status changes in between: a frame that finds the session connected becomes a message for the agent, in order, any other draws the waiting text; then the upstream is marked closed |
| ServerObjects.Session.WriteUpStream | pkg/server/server.go:512-531 | what one message does to status, annotation and upstream, and whether the loop goes on |
| ServerObjects.Session.WriteUpStreamPump | pkg/server/server.go:492-541 | over any messages and any status changes in between: stops at the first close or failed write; the upstream gets exactly the data payloads before that, in order; the hub is asked to register the session as `Wires.RegistersIff` says |
| ServerHub.Hub.ByIdGetSession | pkg/server/type.go:217-223 | finds an id if and only if it is registered by the requests handled, and then the session with that id |
| ServerHub.Hub.ByIdGetClient | pkg/server/type.go:225-231 | the same for clients |
| ServerHub.Hub.RegisterClient | pkg/server/hub.go:34-39 | stores under the client's own id and fires the callback |
| ServerHub.Hub.UnregisterClient | pkg/server/hub.go:40-51 | deletes, closes channel and socket and fires the callback only if the id is registered; the client taken off the map is closed by it if and only if it is the one in the request and was open |
| ServerHub.Hub.RegisterSession | pkg/server/hub.go:53-62 | stores, fires the callback if connected, tells the upstream |
| ServerHub.Hub.Dismiss | pkg/server/hub.go:72-87 | the callback, one notice to one side, the close |
| ServerHub.Hub.UnregisterSession | pkg/server/hub.go:63-88 | deletes, and for a registered session that is not HTTP dismisses it; other sessions and clients stay |
| ServerHub.Hub.Serve | pkg/server/hub.go:33-88 | any request: the objects on both maps, session callbacks, every connection and every channel change as the request says and not otherwise; key sets and client callbacks are those of the requests handled |
| ServerHub.Hub.Run | pkg/server/hub.go:27-90 | over any sequence of requests, with other goroutines setting statuses and annotations in between, all of that is what the requests, each as it finds its session, amount to |
| ServerHub.Hub.Leave | pkg/server/server.go:216-225 | asks the hub if the session is on the map, else closes the upstream's channel and socket |
| ServerHub.Hub.RouteDownStream | pkg/server/server.go:372-392 | a message goes to the session on the map under its id, or draws one close; on a closed channel it panics and changes nothing |
| ServerHub.Hub.ReadDownStreamPump | pkg/server/server.go:346-398 | over any messages and anything the hub and other goroutines do in between: each message goes to the session that is then on the map under its id, or draws a close; it ends early if and only if the next send is on a closed channel |
| ServerHub.Hub.WriteDownStreamPump | pkg/server/server.go:399-432 | writes up to the first failure, marks and reports the session of the failed message if it is registered, and no other |
| ServerHub.Hub.GetSessions | pkg/server/server.go:99-111 | the registered ids partitioned by agent, each once, no agent without a session |
| AgentObjects.Pipe.Write | pkg/client/client.go:237 | a write adds its pieces to what will be read, or fails on a closed pipe |
| AgentObjects.Pipe.Read | pkg/client/client.go:159 | a read fills the buffer with the next piece and nothing beyond it |
| AgentObjects.SendToServer | pkg/client/client.go:45-58 | with a new buffer per read the queued messages hold, after all reads, what each read got: the pieces of all writes |
| AgentObjects.FeedDownstream | pkg/client/client.go:149-171 | with one buffer used again and again the downstream still gets every piece it takes, in order |
| AgentObjects.ThroughIsABeginning | pkg/client/client.go:159-170 | what a downstream gets before it fails is the beginning of what was written |
| AgentObjects.Session.constructor | pkg/client/client.go:247-264 | a new session has two open, empty pipes |
| AgentObjects.Session.SetStatus | pkg/client/type.go:42-49 | an absorbing status stays |
| AgentObjects.Session.Close | pkg/client/type.go:111-117 | both pipes are closed and give nothing more |
| AgentObjects.Hub.Register | pkg/client/hub.go:34-49 | stores under the session's own id, then acknowledges |
| AgentObjects.Hub.Unregister | pkg/client/hub.go:50-63 | deletes and closes a registered session, and sends a close that carries the annotation unless the upstream had closed |
| AgentObjects.Hub.Connect | pkg/client/client.go:134-206 | a session that opens is stored and acknowledged, one that does not leaves nothing but a close with the reason |
| AgentObjects.Hub.Finish | pkg/client/client.go:207-216 | the first ended loop ends the session: cause noted and sent, marked failed, unregistered, both pipes closed if it was registered |
| AgentObjects.Hub.Process | pkg/client/client.go:218-241 | close: marked and closed if known, absorbed if not; data: written to its own session, or one close back; ping: nothing |
| AgentObjects.HttpProcessor | pkg/client/client.go:89-125 | a request has exactly one reply with its own session id, 408 if unreachable, 400 if it cannot be parsed or its answer not be read, anything else no reply |
| Keepalive.KeepaliveBound | pkg/type.go:76-84 | the read deadline never passes, over any rounds, delays and data frames, if and only if start skew plus the largest delay is at most PongWait minus PingPeriod |
| Keepalive.KeepaliveInSeconds | pkg/type.go:82-85 | that bound is six seconds |
| Keepalive.PongsCountSixtySeconds | pkg/server/server.go:347-348 | the start and every pong keep the connection for sixty seconds |
| Keepalive.PongsKeepComing | pkg/server/server.go:347-348 | from a deadline the next pong meets, all later ones are met |
| Keepalive.DataDoesNotHelp | pkg/server/server.go:348 | data frames do not move the deadline |
| Keepalive.ReadLoop | pkg/client/client.go:270-282 | the loop with its deadline and pong handler survives exactly the arrivals that meet every deadline |

## Left out

- Websocket upgrade and dialling, TLS, HTTP routing, JSON and URL encoding: a connection is a lossless queue until it fails, a message its own encoding.
- The SSH, exec, logs and websocket downstreams: a downstream is any source and any sink of bytes that may fail at any time.
- Reconnection of the agent (pkg/client/client.go:360-393): one connection per run.
- Unregistration of the agent's own client while sessions live: in the machine its pumps may stop at any time, but its channel is not closed, so the panics of senders on that channel are not part of it. The methods of the hub do close it.
- At most one agent per client id: the code checks and then registers, so it is not guaranteed.
- Liveness, and that every goroutine ends: the statements are about every prefix of a run, and the bound on steps without input says that a run cannot go on for ever by itself.
- The texts the hub writes upstream at registration and the waiting text, the pings and tickers, in the machine: they carry no protocol state. The methods have the first two, the keepalive bound the third.
- Callbacks are taken to be set; one that is not set does not fire.
- Messages of the agent in the machine go to the socket in one step with the channel they are sent on: the write loop is one goroutine and keeps their order.
- The methods take what a loop receives as a sequence, the server's with what other goroutines do in between, the agent's without; all interleavings are in the machine. Locks are not modelled apart: a locked section is one step.
- What `GetStatus` and `SetAnnotation` mean beyond the field they read or set: their contracts say that and no more.
- The listing of clients, `ManualDisconnenctClient`, `userSshInteraction`, copying of HTTP headers, logging, examples and deployment files.
