/**
 The requests the server's hub serves and the messages its inbound pump routes, as turns: what each does to the maps,
 the callbacks, the connections and the channels, one after the other and each in the state it finds.
 */
module HubTurns {
  import opened Protocol
  import opened Handling
  import opened Wires
  import opened ServerObjects
  import Machine
  import Projection
  import HubHistory

  datatype Request =
    | AgentIn(client: Client) | AgentOut(client: Client) | In(session: Session, info: Bytes) | Out(session: Session)

  /** What other goroutines may change of a session. */
  datatype Fields = Fields(status: SessionStatus, annotation: Bytes, down: Client?)

  function FieldsOf(s: Session): Fields
    reads s
  {
    Fields(s.status, s.annotation, s.down)
  }

  /** A request with what the hub will read from the session in it. */
  datatype Job =
    | Joins(client: Client)
    | Parts(client: Client)
    | Enters(session: Session, fields: Fields, info: Bytes)
    | Departs(session: Session, fields: Fields)

  function Snap(r: Request): Job
    reads match r case In(s, _) => {s} case Out(s) => {s} case _ => {}
  {
    match r
    case AgentIn(c) => Joins(c)
    case AgentOut(c) => Parts(c)
    case In(s, info) => Enters(s, FieldsOf(s), info)
    case Out(s) => Departs(s, FieldsOf(s))
  }

  /** Both ends of a session in a request are connected; an HTTP request has no upstream socket. */
  predicate Fits(j: Job) {
    j.Enters? || j.Departs? ==>
      && j.fields.down != null && j.fields.down.socket != null && j.fields.down.socket != j.session.up.socket
      && (j.session.up.socket == null <==> j.session.protocol.Http?)
  }

  ghost predicate AllValid(ends: set<Client>)
    reads ends
  {
    forall c :: c in ends ==> c.Valid()
  }

  function Label(j: Job): HubHistory.Handled {
    match j
    case Joins(c) => HubHistory.ClientIn(c.id)
    case Parts(c) => HubHistory.ClientOut(c.id)
    case Enters(s, _, _) => HubHistory.SessionIn(s.id)
    case Departs(s, _) => HubHistory.SessionOut(s.id)
  }

  /** What the job does to session callbacks and the two sides, after the requests `h`. */
  function EffectOf(h: seq<HubHistory.Handled>, j: Job): Effect {
    match j
    case Enters(s, f, _) => RegisterEffect(s.id, f.status)
    case Departs(s, f) => UnregisterEffect(s.id, s.id in HubHistory.Sessions(h), s.protocol, f.status, f.annotation)
    case _ => NOTHING
  }

  /** What goes out on connection `o`. */
  function WireOnce(o: Socket, w: Wire, h: seq<HubHistory.Handled>, j: Job): Wire {
    match j
    case Joins(_) => w
    case Parts(c) => if c.socket == o && c.id in HubHistory.Clients(h) then w.(room := 0) else w
    case Enters(s, _, info) => if s.up.socket == o then After(w, Texts([info])) else w
    case Departs(s, f) =>
      var e := EffectOf(h, j);
      if s.up.socket == o then Shut(After(w, Texts(e.notes)), e.closesUpstream)
      else if f.down != null && f.down.socket == o then After(w, Encoded(e.closes)) else w
  }

  function Shut(w: Wire, closes: bool): Wire {
    if closes then w.(room := 0) else w
  }

  /** Is the channel of client `c` closed after the job? */
  function ClosedOnce(c: Client, closed: bool, h: seq<HubHistory.Handled>, j: Job): bool {
    closed || (j == Parts(c) && c.id in HubHistory.Clients(h)) ||
    (j.Departs? && j.session.up == c && EffectOf(h, j).closesUpstream)
  }

  function ClientsOnce(clients: map<string, Client>, j: Job): map<string, Client> {
    match j
    case Joins(c) => clients[c.id := c]
    case Parts(c) => clients - {c.id}
    case _ => clients
  }

  function SessionsOnce(sessions: map<SessionId, Session>, j: Job): map<SessionId, Session> {
    match j
    case Enters(s, _, _) => sessions[s.id := s]
    case Departs(s, _) => sessions - {s.id}
    case _ => sessions
  }

  /** All that is at stake: the two maps, callbacks fired, connections, channels and what they hold, sessions. */
  datatype Outside = Outside(
    clients: map<string, Client>,
    sessions: map<SessionId, Session>,
    calls: seq<Callback>,
    wires: map<Socket, Wire>,
    closed: map<Client, bool>,
    queues: map<Client, seq<TunnelMessage>>,
    fields: map<Session, Fields>)

  function Done(x: Outside, h: seq<HubHistory.Handled>, j: Job): Outside {
    x.(clients := ClientsOnce(x.clients, j),
       sessions := SessionsOnce(x.sessions, j),
       calls := x.calls + EffectOf(h, j).calls,
       wires := map o | o in x.wires :: WireOnce(o, x.wires[o], h, j),
       closed := map c | c in x.closed :: ClosedOnce(c, x.closed[c], h, j))
  }

  /** What happens at the hub: it serves a request, or another goroutine changes a session before the next one. */
  datatype HubTurn =
    | Serves(request: Request)
    | Changes(session: Session, status: SessionStatus)
    | Annotates(session: Session, text: Bytes)

  /** The request as it finds the session. */
  function JobOf(r: Request, fields: map<Session, Fields>): Job
    requires Known(r, fields)
  {
    match r
    case AgentIn(c) => Joins(c)
    case AgentOut(c) => Parts(c)
    case In(s, info) => Enters(s, fields[s], info)
    case Out(s) => Departs(s, fields[s])
  }

  predicate Known(r: Request, fields: map<Session, Fields>) {
    match r
    case In(s, _) => s in fields
    case Out(s) => s in fields
    case _ => true
  }

  /** The turn is about objects within these sets, connected as `proxy` connects them. */
  predicate Suits(t: HubTurn, fields: map<Session, Fields>, ends: set<Client>, sockets: set<Socket>) {
    match t
    case Serves(r) =>
      Known(r, fields) && Fits(JobOf(r, fields)) && Within(JobOf(r, fields), ends, sockets) &&
      (r.In? ==> r.session.up in ends)
    case Changes(s, _) => s in fields
    case Annotates(s, _) => s in fields
  }

  function OneHubTurn(x: Outside, h: seq<HubHistory.Handled>, t: HubTurn): Outside
    requires Suits(t, x.fields, x.closed.Keys, x.wires.Keys)
  {
    match t
    case Serves(r) => Done(x, h, JobOf(r, x.fields))
    case Changes(s, wanted) =>
      x.(fields := x.fields[s := x.fields[s].(status := AfterSet(x.fields[s].status, wanted))])
    case Annotates(s, text) => x.(fields := x.fields[s := x.fields[s].(annotation := text)])
  }

  function Heard(t: HubTurn): seq<HubHistory.Handled> {
    if !t.Serves? then []
    else match t.request
      case AgentIn(c) => [HubHistory.ClientIn(c.id)]
      case AgentOut(c) => [HubHistory.ClientOut(c.id)]
      case In(s, _) => [HubHistory.SessionIn(s.id)]
      case Out(s) => [HubHistory.SessionOut(s.id)]
  }

  function AllHeard(ts: seq<HubTurn>): seq<HubHistory.Handled> {
    if ts == [] then [] else AllHeard(ts[..|ts| - 1]) + Heard(ts[|ts| - 1])
  }

  ghost predicate AllSuit(ts: seq<HubTurn>, x: Outside) {
    forall i :: 0 <= i < |ts| ==> Suits(ts[i], x.fields, x.closed.Keys, x.wires.Keys)
  }

  /** The same sessions with the same agents, the same connections and channels. */
  predicate SameObjects(x: Outside, y: Outside) {
    && y.closed.Keys == x.closed.Keys && y.queues.Keys == x.queues.Keys && y.wires.Keys == x.wires.Keys
    && y.fields.Keys == x.fields.Keys && forall s :: s in x.fields ==> y.fields[s].down == x.fields[s].down
  }

  lemma LinkedSuits(t: HubTurn, x: Outside, y: Outside)
    requires Suits(t, x.fields, x.closed.Keys, x.wires.Keys) && SameObjects(x, y)
    ensures Suits(t, y.fields, y.closed.Keys, y.wires.Keys)
  {
  }

  /** One turn after the other, each in the state its predecessors leave. */
  ghost function InTurn(x: Outside, h: seq<HubHistory.Handled>, ts: seq<HubTurn>): (y: Outside)
    requires AllSuit(ts, x)
    ensures SameObjects(x, y)
  {
    if ts == [] then x
    else
      var front, last := ts[..|ts| - 1], ts[|ts| - 1];
      var y := InTurn(x, h, front);
      LinkedSuits(last, x, y);
      OneHubTurn(y, h + AllHeard(front), last)
  }

  /** The clients a request may close, and the sockets it may write or close. */
  function Closing(j: Job): set<Client> {
    match j
    case Parts(c) => {c}
    case Departs(s, _) => {s.up}
    case _ => {}
  }

  function Writing(j: Job): set<Socket> {
    match j
    case Joins(_) => {}
    case Parts(c) => SocketOf(c)
    case Enters(s, _, _) => SocketOf(s.up)
    case Departs(s, f) => SocketOf(s.up) + if f.down == null then {} else SocketOf(f.down)
  }

  function SocketOf(c: Client): set<Socket> {
    if c.socket == null then {} else {c.socket}
  }

  predicate Within(j: Job, ends: set<Client>, sockets: set<Socket>) {
    Closing(j) <= ends && Writing(j) <= sockets
  }

  /** Jobs leave alone what they do not name. */
  lemma ElsewhereNothing(j: Job, h: seq<HubHistory.Handled>)
    ensures forall o: Socket, w: Wire :: o !in Writing(j) ==> WireOnce(o, w, h, j) == w
    ensures forall c: Client, closed: bool :: c !in Closing(j) ==> ClosedOnce(c, closed, h, j) == closed
  {
  }

  lemma SuitPrefix(ts: seq<HubTurn>, n: nat, x: Outside)
    requires n <= |ts| && AllSuit(ts, x)
    ensures AllSuit(ts[..n], x)
  {
  }

  /** What the first `n` turns amount to. */
  ghost function AfterTurns(x: Outside, h: seq<HubHistory.Handled>, ts: seq<HubTurn>, n: nat): Outside
    requires n <= |ts| && AllSuit(ts, x)
  {
    SuitPrefix(ts, n, x);
    InTurn(x, h, ts[..n])
  }

  lemma OneMoreTurn(x: Outside, h: seq<HubHistory.Handled>, ts: seq<HubTurn>, n: nat)
    requires n < |ts| && AllSuit(ts, x)
    ensures var y := AfterTurns(x, h, ts, n);
            && Suits(ts[n], y.fields, x.closed.Keys, x.wires.Keys)
            && SameObjects(x, y)
            && AfterTurns(x, h, ts, n + 1) == OneHubTurn(y, h + AllHeard(ts[..n]), ts[n])
    ensures h + AllHeard(ts[..n + 1]) == h + AllHeard(ts[..n]) + Heard(ts[n])
  {
    SuitPrefix(ts, n, x);
    SuitPrefix(ts, n + 1, x);
    assert ts[..n + 1][..n] == ts[..n] && ts[..n + 1][n] == ts[n];
    LinkedSuits(ts[n], x, InTurn(x, h, ts[..n]));
  }

  lemma NoTurn(x: Outside, h: seq<HubHistory.Handled>, ts: seq<HubTurn>)
    requires AllSuit(ts, x)
    ensures AfterTurns(x, h, ts, 0) == x && h + AllHeard(ts[..0]) == h
    ensures AfterTurns(x, h, ts, |ts|) == InTurn(x, h, ts) && ts[..|ts|] == ts
  {
    assert ts[..0] == [] && ts[..|ts|] == ts;
  }

  // ---------- reasons ----------

  /** The agent's reason for leaving is what the relay annotates the session with. */
  lemma ReasonArrives(id: SessionId, status: SessionStatus, reason: Bytes, p: Progress)
    ensures status.UpstreamClosed? ==> WithdrawEffect(id, status, reason) == []
    ensures !status.UpstreamClosed? ==>
              var sent := WithdrawEffect(id, status, reason);
              && |sent| == 1 && sent[0].session == id && sent[0].action == CLOSE_MESSAGE && sent[0].payload == reason
              && Once(p, sent[0]).annotation == reason && !Once(p, sent[0]).goesOn
  {
  }

  /** ... and what the hub then writes upstream is that; if the upstream has closed, the agent is told instead. */
  lemma ReasonIsShown(id: SessionId, start: Progress, turns: seq<Turn<TunnelMessage>>, reason: Bytes,
                      protocol: Protocol)
    requires !protocol.Http?
    ensures var p, q := Relay(start, turns), Relay(start, turns + [Takes(Machine.CloseFor(id, reason))]);
            var e := UnregisterEffect(id, true, protocol, q.cell.status, q.annotation);
            && e.calls == [Unregistered(id)] && e.closesUpstream
            && (!p.cell.status.UpstreamClosed? ==> e.notes == [reason] && e.closes == [])
            && (p.cell.status.UpstreamClosed? ==>
                  e.notes == [] && e.closes == [TunnelMessage(id, Unset, CLOSE_MESSAGE, UPSTREAM_CLOSED_TEXT)])
  {
    CloseEndsRelay(start, turns, Machine.CloseFor(id, reason));
  }

  /** The acknowledgement the agent sends confirms a connecting session, which is then announced. */
  lemma AcknowledgementConfirms(id: SessionId, p: Progress)
    requires p.cell.status.Connecting?
    ensures var sent := EnrolEffect(id);
            && |sent| == 1 && sent[0].session == id
            && Once(p, sent[0]).cell.status.Connected? && Once(p, sent[0]).registers == p.registers + 1
            && RegisterEffect(id, Once(p, sent[0]).cell.status).calls == [Registered(id)]
            && RegisterEffect(id, p.cell.status).calls == []
  {
  }

  /** A connection that is shut keeps what went out and lets nothing more out. */
  lemma ShutIsFinal(w: Wire, more: seq<Frame>)
    ensures After(Shut(w, true), more) == Shut(w, true) && Shut(w, true).frames == w.frames && Shut(w, true).room == 0
    ensures Shut(w, false) == w
  {
  }

  // ---------- the inbound pump among the hub's turns ----------

  /** The messages for sessions that are not among `ids`, each turned into the close that goes back. */
  function Strays(ms: seq<TunnelMessage>, ids: set<SessionId>): seq<TunnelMessage> {
    if ms == [] then []
    else
      var m := ms[|ms| - 1];
      Strays(ms[..|ms| - 1], ids) + if m.session in ids then [] else [m.(action := CLOSE_MESSAGE)]
  }

  lemma StraysAppend(ms: seq<TunnelMessage>, m: TunnelMessage, ids: set<SessionId>)
    ensures Strays(ms + [m], ids) == Strays(ms, ids) + Strays([m], ids)
  {
    assert (ms + [m])[..|ms|] == ms;
    assert [m][..0] == [];
  }

  /** What happens while the inbound pump runs: a message arrives, or it is the hub's turn. */
  datatype PumpTurn = Arrives(m: TunnelMessage) | Meanwhile(turn: HubTurn)

  /** Every session on the map has its own end among the channels. */
  predicate Homes(x: Outside) {
    forall k :: k in x.sessions ==> x.sessions[k].up in x.queues && x.sessions[k].up in x.closed
  }

  /** A send on a closed channel. */
  predicate Panics(x: Outside, t: PumpTurn)
    requires Homes(x)
  {
    t.Arrives? && t.m.session in x.sessions && x.closed[x.sessions[t.m.session].up]
  }

  /**
   The message goes to the session that is on the map under its id, or a close goes back on connection `o`; a panic
   leaves everything as it is.
   */
  function Route(x: Outside, o: Socket, m: TunnelMessage, panics: bool): Outside {
    x.(queues := map u | u in x.queues :: QueueOnce(x.queues[u], u, x.sessions, m, panics),
       wires := map p | p in x.wires :: BounceOnce(x.wires[p], p, o, x.sessions.Keys, m))
  }

  function QueueOnce(q: seq<TunnelMessage>, u: Client, sessions: map<SessionId, Session>, m: TunnelMessage,
                     panics: bool): seq<TunnelMessage>
  {
    if m.session in sessions && sessions[m.session].up == u && !panics then q + [m] else q
  }

  function BounceOnce(w: Wire, p: Socket, o: Socket, ids: set<SessionId>, m: TunnelMessage): Wire {
    if m.session !in ids && p == o then After(w, Encoded(Strays([m], ids))) else w
  }

  predicate PumpSuits(t: PumpTurn, x: Outside, o: Socket) {
    o in x.wires && (t.Meanwhile? ==> Suits(t.turn, x.fields, x.closed.Keys, x.wires.Keys))
  }

  ghost predicate AllPumpSuit(ts: seq<PumpTurn>, x: Outside, o: Socket) {
    forall i :: 0 <= i < |ts| ==> PumpSuits(ts[i], x, o)
  }

  function HeardMeanwhile(t: PumpTurn): seq<HubHistory.Handled> {
    if t.Meanwhile? then Heard(t.turn) else []
  }

  function AllHeardMeanwhile(ts: seq<PumpTurn>): seq<HubHistory.Handled> {
    if ts == [] then [] else AllHeardMeanwhile(ts[..|ts| - 1]) + HeardMeanwhile(ts[|ts| - 1])
  }

  function OnePumpTurn(x: Outside, h: seq<HubHistory.Handled>, o: Socket, t: PumpTurn): Outside
    requires Homes(x) && x.closed.Keys == x.queues.Keys && PumpSuits(t, x, o)
  {
    match t
    case Arrives(m) => Route(x, o, m, Panics(x, t))
    case Meanwhile(turn) => OneHubTurn(x, h, turn)
  }

  lemma HubTurnKeepsHomes(x: Outside, h: seq<HubHistory.Handled>, t: HubTurn)
    requires Homes(x) && x.closed.Keys == x.queues.Keys && Suits(t, x.fields, x.closed.Keys, x.wires.Keys)
    ensures var y := OneHubTurn(x, h, t); Homes(y) && SameObjects(x, y)
  {
    hide WireOnce, ClosedOnce, EffectOf, Fits, Within;
  }

  lemma OnePumpTurnKeeps(x: Outside, h: seq<HubHistory.Handled>, o: Socket, t: PumpTurn)
    requires Homes(x) && x.closed.Keys == x.queues.Keys && PumpSuits(t, x, o)
    ensures var y := OnePumpTurn(x, h, o, t); Homes(y) && SameObjects(x, y)
  {
    if t.Meanwhile? {
      hide Homes, OneHubTurn;
      HubTurnKeepsHomes(x, h, t.turn);
    } else {
      hide After, Encoded, Strays;
    }
  }

  lemma PanicsChangeNothing(x: Outside, h: seq<HubHistory.Handled>, o: Socket, t: PumpTurn)
    requires Homes(x) && x.closed.Keys == x.queues.Keys && PumpSuits(t, x, o)
    ensures Panics(x, t) ==> OnePumpTurn(x, h, o, t) == x && HeardMeanwhile(t) == []
  {
  }

  lemma OneStray(m: TunnelMessage, ids: set<SessionId>)
    ensures Encoded(Strays([m], ids)) ==
              if m.session in ids then [] else [Frame(TEXT_MESSAGE, Json(m.(action := CLOSE_MESSAGE)))]
  {
    assert [m][..0] == [];
  }

  lemma LinkedPumpSuits(t: PumpTurn, x: Outside, y: Outside, o: Socket)
    requires PumpSuits(t, x, o) && SameObjects(x, y)
    ensures PumpSuits(t, y, o)
  {
    if t.Meanwhile? {
      LinkedSuits(t.turn, x, y);
    }
  }

  /** One turn after the other. */
  ghost function InPump(x: Outside, h: seq<HubHistory.Handled>, o: Socket, ts: seq<PumpTurn>): (y: Outside)
    requires Homes(x) && x.closed.Keys == x.queues.Keys && AllPumpSuit(ts, x, o)
    ensures Homes(y) && SameObjects(x, y)
  {
    if ts == [] then x
    else
      var front, last := ts[..|ts| - 1], ts[|ts| - 1];
      var y := InPump(x, h, o, front);
      LinkedPumpSuits(last, x, y, o);
      OnePumpTurnKeeps(y, h + AllHeardMeanwhile(front), o, last);
      OnePumpTurn(y, h + AllHeardMeanwhile(front), o, last)
  }

  /** What the first `n` turns amount to. */
  ghost function AfterPump(x: Outside, h: seq<HubHistory.Handled>, o: Socket, ts: seq<PumpTurn>, n: nat): (y: Outside)
    requires n <= |ts| && Homes(x) && x.closed.Keys == x.queues.Keys && AllPumpSuit(ts, x, o)
    ensures Homes(y) && SameObjects(x, y)
  {
    InPump(x, h, o, ts[..n])
  }

  lemma OneMorePumpTurn(x: Outside, h: seq<HubHistory.Handled>, o: Socket, ts: seq<PumpTurn>, n: nat)
    requires n < |ts| && Homes(x) && x.closed.Keys == x.queues.Keys && AllPumpSuit(ts, x, o)
    ensures var y := AfterPump(x, h, o, ts, n);
            && PumpSuits(ts[n], y, o)
            && AfterPump(x, h, o, ts, n + 1) == OnePumpTurn(y, h + AllHeardMeanwhile(ts[..n]), o, ts[n])
    ensures h + AllHeardMeanwhile(ts[..n + 1]) == h + AllHeardMeanwhile(ts[..n]) + HeardMeanwhile(ts[n])
  {
    assert ts[..n + 1][..n] == ts[..n] && ts[..n + 1][n] == ts[n];
    LinkedPumpSuits(ts[n], x, AfterPump(x, h, o, ts, n), o);
  }

  lemma NoPumpTurn(x: Outside, h: seq<HubHistory.Handled>, o: Socket, ts: seq<PumpTurn>)
    requires Homes(x) && x.closed.Keys == x.queues.Keys && AllPumpSuit(ts, x, o)
    ensures AfterPump(x, h, o, ts, 0) == x && h + AllHeardMeanwhile(ts[..0]) == h
  {
    assert ts[..0] == [];
  }

  /** Some session with this end has the id of the message. */
  ghost predicate Addressed(m: TunnelMessage, up: Client, subjects: set<Session>) {
    exists s :: s in subjects && s.up == up && s.id == m.session
  }

  predicate KeyedById(x: Outside) {
    forall k :: k in x.sessions ==> x.sessions[k].id == k && x.sessions[k] in x.fields
  }

  lemma OnePumpTurnIsolates(x: Outside, h: seq<HubHistory.Handled>, o: Socket, t: PumpTurn)
    requires Homes(x) && x.closed.Keys == x.queues.Keys && PumpSuits(t, x, o) && KeyedById(x)
    ensures var y := OnePumpTurn(x, h, o, t);
            && KeyedById(y) && y.queues.Keys == x.queues.Keys
            && forall u :: u in x.queues ==>
                 y.queues[u] == x.queues[u] ||
                 (t.Arrives? && y.queues[u] == x.queues[u] + [t.m] && Addressed(t.m, u, x.fields.Keys))
  {
    if t.Arrives? && t.m.session in x.sessions {
      assert Addressed(t.m, x.sessions[t.m.session].up, x.fields.Keys);
    }
  }

  /** Isolation: whatever registers and unregisters meanwhile, a session's queue only gets messages under its own id. */
  lemma {:induction false} PumpIsolates(x: Outside, h: seq<HubHistory.Handled>, o: Socket, ts: seq<PumpTurn>, u: Client)
    requires Homes(x) && x.closed.Keys == x.queues.Keys && AllPumpSuit(ts, x, o) && KeyedById(x) && u in x.queues
    ensures var y := InPump(x, h, o, ts);
            && KeyedById(y) && x.queues[u] <= y.queues[u]
            && forall i :: |x.queues[u]| <= i < |y.queues[u]| ==> Addressed(y.queues[u][i], u, x.fields.Keys)
  {
    hide OnePumpTurn, PumpSuits;
    if ts != [] {
      var front := ts[..|ts| - 1];
      PumpIsolates(x, h, o, front, u);
      LinkedPumpSuits(ts[|ts| - 1], x, InPump(x, h, o, front), o);
      OnePumpTurnIsolates(InPump(x, h, o, front), h + AllHeardMeanwhile(front), o, ts[|ts| - 1]);
    }
  }

  /** The messages among the turns. */
  function Arrived(ts: seq<PumpTurn>): seq<TunnelMessage> {
    if ts == [] then []
    else Arrived(ts[..|ts| - 1]) + if ts[|ts| - 1].Arrives? then [ts[|ts| - 1].m] else []
  }

  /** The sessions' own ends are different and open. */
  predicate Apart(x: Outside)
    requires Homes(x)
  {
    && (forall k :: k in x.sessions ==> !x.closed[x.sessions[k].up])
    && (forall j, k :: j in x.sessions && k in x.sessions && j != k ==> x.sessions[j].up != x.sessions[k].up)
  }

  lemma DemultiplexesOneMore(w: Wire, ms: seq<TunnelMessage>, m: TunnelMessage, ids: set<SessionId>)
    ensures After(w, Encoded(Strays(ms + [m], ids))) ==
              if m.session in ids then After(w, Encoded(Strays(ms, ids)))
              else After(After(w, Encoded(Strays(ms, ids))), Encoded(Strays([m], ids)))
  {
    StraysAppend(ms, m, ids);
    EncodedAppend(Strays(ms, ids), Strays([m], ids));
    AfterBoth(w, Encoded(Strays(ms, ids)), Encoded(Strays([m], ids)));
    if m.session in ids {
      assert [m][..0] == [];
      assert Strays(ms + [m], ids) == Strays(ms, ids);
    }
  }

  /** Each session has got exactly its own of these messages, and each other one has drawn a close. */
  predicate Demultiplexed(x: Outside, y: Outside, o: Socket, ms: seq<TunnelMessage>)
    requires Homes(x) && o in x.wires && SameObjects(x, y)
  {
    && y.sessions == x.sessions && y.closed == x.closed
    && y.wires[o] == After(x.wires[o], Encoded(Strays(ms, x.sessions.Keys)))
    && forall k :: k in x.sessions ==>
         y.queues[x.sessions[k].up] == x.queues[x.sessions[k].up] + Projection.Only(ms, k)
  }

  lemma DemultiplexesNext(x: Outside, y: Outside, h: seq<HubHistory.Handled>, o: Socket, ms: seq<TunnelMessage>,
                          m: TunnelMessage)
    requires Homes(x) && Homes(y) && Apart(x) && o in x.wires && SameObjects(x, y) && Demultiplexed(x, y, o, ms)
    requires x.closed.Keys == x.queues.Keys
    ensures var z := OnePumpTurn(y, h, o, Arrives(m)); SameObjects(x, z) && Demultiplexed(x, z, o, ms + [m])
  {
    hide Strays, Encoded, After, Projection.Only;
    DemultiplexesOneMore(x.wires[o], ms, m, x.sessions.Keys);
    forall k ensures Projection.Only(ms + [m], k) == Projection.Only(ms, k) + if m.session == k then [m] else [] {
      Projection.OnlyAppend(ms, m, k);
    }
  }

  /** If the hub does nothing meanwhile, each session gets exactly its own messages and each other one draws a close. */
  lemma {:induction false} PumpDemultiplexes(x: Outside, h: seq<HubHistory.Handled>, o: Socket, ts: seq<PumpTurn>)
    requires Homes(x) && x.closed.Keys == x.queues.Keys && AllPumpSuit(ts, x, o) && Apart(x)
    requires o in x.wires && forall i :: 0 <= i < |ts| ==> ts[i].Arrives?
    ensures Demultiplexed(x, InPump(x, h, o, ts), o, Arrived(ts))
  {
    if ts == [] {
      assert After(x.wires[o], Encoded([])) == x.wires[o];
    } else {
      var front, m := ts[..|ts| - 1], ts[|ts| - 1].m;
      PumpDemultiplexes(x, h, o, front);
      hide Demultiplexed, OnePumpTurn, Apart;
      DemultiplexesNext(x, InPump(x, h, o, front), h + AllHeardMeanwhile(front), o, Arrived(front), m);
    }
  }

  /** Where the inbound pump stands after `done` turns: nothing has panicked but perhaps the next one. */
  ghost predicate Pumped(x: Outside, h: seq<HubHistory.Handled>, o: Socket, ts: seq<PumpTurn>, done: nat, panics: bool,
                         y: Outside, handled: seq<HubHistory.Handled>)
    requires Homes(x) && x.closed.Keys == x.queues.Keys && AllPumpSuit(ts, x, o)
  {
    && done <= |ts|
    && handled == h + AllHeardMeanwhile(ts[..done])
    && y == AfterPump(x, h, o, ts, done)
    && (forall k :: 0 <= k < done ==> !Panics(AfterPump(x, h, o, ts, k), ts[k]))
    && (panics ==> done < |ts| && Panics(y, ts[done]))
  }

  lemma PumpedAtFirst(x: Outside, h: seq<HubHistory.Handled>, o: Socket, ts: seq<PumpTurn>)
    requires Homes(x) && x.closed.Keys == x.queues.Keys && AllPumpSuit(ts, x, o)
    ensures Pumped(x, h, o, ts, 0, false, x, h)
  {
    NoPumpTurn(x, h, o, ts);
  }

  lemma PumpedKeeps(x: Outside, h: seq<HubHistory.Handled>, o: Socket, ts: seq<PumpTurn>, done: nat, y: Outside,
                    handled: seq<HubHistory.Handled>)
    requires Homes(x) && x.closed.Keys == x.queues.Keys && AllPumpSuit(ts, x, o)
    requires Pumped(x, h, o, ts, done, false, y, handled) && done < |ts|
    ensures Homes(y) && SameObjects(x, y) && PumpSuits(ts[done], y, o)
  {
    LinkedPumpSuits(ts[done], x, y, o);
  }

  lemma PumpedNext(x: Outside, h: seq<HubHistory.Handled>, o: Socket, ts: seq<PumpTurn>, done: nat, y: Outside,
                   handled: seq<HubHistory.Handled>)
    requires Homes(x) && x.closed.Keys == x.queues.Keys && AllPumpSuit(ts, x, o)
    requires Pumped(x, h, o, ts, done, false, y, handled) && done < |ts|
    requires Homes(y) && SameObjects(x, y) && PumpSuits(ts[done], y, o)
    ensures var z := OnePumpTurn(y, handled, o, ts[done]);
            Pumped(x, h, o, ts, if Panics(y, ts[done]) then done else done + 1, Panics(y, ts[done]), z,
                   handled + HeardMeanwhile(ts[done]))
  {
    hide OnePumpTurn, AfterPump, Homes, PumpSuits, AllPumpSuit, Panics, AllHeardMeanwhile, HeardMeanwhile;
    OneMorePumpTurn(x, h, o, ts, done);
    PanicsChangeNothing(y, handled, o, ts[done]);
  }
}
