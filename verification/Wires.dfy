/** What goes out on a connection that may fail, and what the upstream pumps make of what they are given, as values. */
module Wires {
  import opened Protocol
  import opened Queues
  import Machine
  import Pipes

  /** A websocket frame holds plain text or an encoded message; encoding is lossless. */
  datatype Content = Plain(text: Bytes) | Json(message: TunnelMessage)
  datatype Frame = Frame(kind: int, content: Content)

  function Texts(notes: seq<Bytes>): seq<Frame> {
    seq(|notes|, i requires 0 <= i < |notes| => Frame(TEXT_MESSAGE, Plain(notes[i])))
  }

  function Encoded(messages: seq<TunnelMessage>): seq<Frame> {
    seq(|messages|, i requires 0 <= i < |messages| => Frame(TEXT_MESSAGE, Json(messages[i])))
  }

  /** A frame read from the upstream, and the message it becomes. */
  datatype Input = Input(kind: int, data: Bytes)

  const WAIT_TEXT: Bytes := Ascii("Wait for the session connection to complete")

  function Binaries(payloads: seq<Bytes>): seq<Frame> {
    seq(|payloads|, i requires 0 <= i < |payloads| => Frame(BINARY_MESSAGE, Plain(payloads[i])))
  }

  /** What went out on a connection, and how many more writes the network takes before it fails. */
  datatype Wire = Wire(frames: seq<Frame>, room: nat)

  /** The connection after these writes, of which the first that finds no room and all that follow fail. */
  function After(w: Wire, more: seq<Frame>): Wire {
    var n := Pipes.Min(|more|, w.room);
    Wire(w.frames + more[..n], w.room - n)
  }

  /** What is written goes out, as far as there is room, in order and after what went out before. */
  lemma WritesGoOut(w: Wire, more: seq<Frame>)
    ensures |more| <= w.room ==> After(w, more).frames == w.frames + more && After(w, more).room == w.room - |more|
    ensures |more| > w.room ==> After(w, more).frames == w.frames + more[..w.room] && After(w, more).room == 0
  {
  }

  /** Texts, messages and payloads are framed one by one, as they are. */
  lemma FramesSay(notes: seq<Bytes>, messages: seq<TunnelMessage>, payloads: seq<Bytes>)
    ensures |Texts(notes)| == |notes| && |Encoded(messages)| == |messages| && |Binaries(payloads)| == |payloads|
    ensures forall i :: 0 <= i < |notes| ==> Texts(notes)[i] == Frame(TEXT_MESSAGE, Plain(notes[i]))
    ensures forall i :: 0 <= i < |messages| ==> Encoded(messages)[i] == Frame(TEXT_MESSAGE, Json(messages[i]))
    ensures forall i :: 0 <= i < |payloads| ==> Binaries(payloads)[i] == Frame(BINARY_MESSAGE, Plain(payloads[i]))
  {
  }

  lemma AfterBoth(w: Wire, a: seq<Frame>, b: seq<Frame>)
    ensures After(After(w, a), b) == After(w, a + b)
  {
    var n := Pipes.Min(|a + b|, w.room);
    assert After(After(w, a), b).frames == After(w, a + b).frames by {
      if |a| <= w.room {
        assert (a + b)[..n] == a + b[..n - |a|];
      } else {
        assert (a + b)[..n] == a[..n];
      }
    }
  }

  lemma EncodedAppend(messages: seq<TunnelMessage>, more: seq<TunnelMessage>)
    ensures Encoded(messages + more) == Encoded(messages) + Encoded(more)
  {
  }

  lemma OneMoreWritten(w: Wire, messages: seq<TunnelMessage>, m: TunnelMessage)
    requires |messages| <= w.room
    ensures After(w, Encoded(messages)).room == w.room - |messages|
    ensures After(After(w, Encoded(messages)), [Frame(TEXT_MESSAGE, Json(m))]) ==
              if |messages| < w.room then After(w, Encoded(messages + [m])) else After(w, Encoded(messages))
  {
    AfterBoth(w, Encoded(messages), [Frame(TEXT_MESSAGE, Json(m))]);
    assert Encoded([m]) == [Frame(TEXT_MESSAGE, Json(m))];
    EncodedAppend(messages, [m]);
  }

  lemma NothingMoreWritten(w: Wire, messages: seq<TunnelMessage>, n: nat)
    requires n <= |messages| && (n == |messages| || n == w.room)
    ensures After(w, Encoded(messages[..n])) == After(w, Encoded(messages))
  {
    assert n == w.room ==> Encoded(messages)[..n] == Encoded(messages[..n]);
    assert n == |messages| ==> messages[..n] == messages;
  }

  lemma BinariesAppend(payloads: seq<Bytes>, more: seq<Bytes>)
    ensures Binaries(payloads + more) == Binaries(payloads) + Binaries(more)
  {
  }

  /** The text an upstream gets that writes too early. */
  lemma WaitText()
    ensures |WAIT_TEXT| == |"Wait for the session connection to complete"|
    ensures forall i :: 0 <= i < |WAIT_TEXT| ==>
              WAIT_TEXT[i] as int == "Wait for the session connection to complete"[i] as int
  {
    assert forall i :: 0 <= i < |"Wait for the session connection to complete"| ==>
        "Wait for the session connection to complete"[i] < 128 as char;
  }

  /** The status after messages that may confirm the session, and perhaps end it. */
  function Turned(before: Machine.StatusCell, confirmed: bool, ended: bool): Machine.StatusCell {
    var met := if confirmed then Machine.SetStatus(before, Connected) else before;
    if ended then Machine.SetStatus(met, DownstreamClosed) else met
  }

  lemma TurnedOnce(before: Machine.StatusCell, confirmed: bool, again: bool, ended: bool)
    ensures !(confirmed && again) ==>
              Turned(Turned(before, confirmed, false), again, ended) == Turned(before, confirmed || again, ended)
    ensures Turned(before, confirmed, false).status.Connecting? <==> before.status.Connecting? && !confirmed
  {
  }

  /** What one more message adds to what writeUpStreamPump has written and seen. */
  lemma TakenOneMore(w: Wire, taken: seq<TunnelMessage>, m: TunnelMessage)
    ensures |DataOf(taken + [m])| == |DataOf(taken)| + Machine.Weight(IsData(m))
    ensures Count(taken + [m], CONNECT_MESSAGE) > 0 <==>
              Count(taken, CONNECT_MESSAGE) > 0 || m.action == CONNECT_MESSAGE
    ensures After(w, Binaries(DataOf(taken))).room == w.room - Pipes.Min(|DataOf(taken)|, w.room)
    ensures After(After(w, Binaries(DataOf(taken))), Binaries(if IsData(m) then [m.payload] else []))
         == After(w, Binaries(DataOf(taken + [m])))
  {
    hide DataOf, Count;
    DataAppend(taken, m);
    CountAppend(taken, m, CONNECT_MESSAGE);
    var more := if IsData(m) then [m.payload] else [];
    BinariesAppend(DataOf(taken), more);
    AfterBoth(w, Binaries(DataOf(taken)), Binaries(more));
  }

  /** What a pump meets: an item to take, or a status another goroutine sets before the next one. */
  datatype Turn<+T> = Takes(item: T) | Sets(status: SessionStatus)

  // ---------- readUpStreamPump ----------

  function CellAfter(cell: Machine.StatusCell, turns: seq<Turn<Input>>): Machine.StatusCell {
    if turns == [] then cell
    else
      var before := CellAfter(cell, turns[..|turns| - 1]);
      var last := turns[|turns| - 1];
      if last.Sets? then Machine.SetStatus(before, last.status) else before
  }

  /** The frames that find the session connected become messages for the agent. */
  function Forwarded(id: SessionId, cell: Machine.StatusCell, turns: seq<Turn<Input>>): seq<TunnelMessage> {
    if turns == [] then []
    else
      var front, last := turns[..|turns| - 1], turns[|turns| - 1];
      Forwarded(id, cell, front) +
      if last.Takes? && CellAfter(cell, front).status.Connected?
      then [Machine.Forward(id, last.item.kind, last.item.data)] else []
  }

  /** The others are answered with the waiting text. */
  function Refused(cell: Machine.StatusCell, turns: seq<Turn<Input>>): seq<Bytes> {
    if turns == [] then []
    else
      var front, last := turns[..|turns| - 1], turns[|turns| - 1];
      Refused(cell, front) + if last.Takes? && !CellAfter(cell, front).status.Connected? then [WAIT_TEXT] else []
  }

  function Frames(turns: seq<Turn<Input>>): nat {
    if turns == [] then 0 else Frames(turns[..|turns| - 1]) + Machine.Weight(turns[|turns| - 1].Takes?)
  }

  /** Every frame is forwarded or refused. */
  lemma {:induction false} ForwardedOrRefused(id: SessionId, cell: Machine.StatusCell, turns: seq<Turn<Input>>)
    ensures |Forwarded(id, cell, turns)| + |Refused(cell, turns)| == Frames(turns)
  {
    if turns != [] {
      ForwardedOrRefused(id, cell, turns[..|turns| - 1]);
    }
  }

  /** The last turn on its own, from the status it finds. */
  lemma OneMoreRead(id: SessionId, cell: Machine.StatusCell, turns: seq<Turn<Input>>, t: Turn<Input>, w: Wire)
    ensures CellAfter(cell, turns + [t]) == CellAfter(CellAfter(cell, turns), [t])
    ensures Forwarded(id, cell, turns + [t]) == Forwarded(id, cell, turns) + Forwarded(id, CellAfter(cell, turns), [t])
    ensures After(w, Texts(Refused(cell, turns + [t]))) ==
              After(After(w, Texts(Refused(cell, turns))), Texts(Refused(CellAfter(cell, turns), [t])))
  {
    assert (turns + [t])[..|turns|] == turns && [t][..0] == [];
    var notes, more := Refused(cell, turns), Refused(CellAfter(cell, turns), [t]);
    assert Texts(notes + more) == Texts(notes) + Texts(more);
    AfterBoth(w, Texts(notes), Texts(more));
  }

  /** A single turn. */
  lemma OneRead(id: SessionId, cell: Machine.StatusCell, t: Turn<Input>)
    ensures CellAfter(cell, [t]) == if t.Sets? then Machine.SetStatus(cell, t.status) else cell
    ensures Forwarded(id, cell, [t]) == if t.Takes? && cell.status.Connected?
                                        then [TunnelMessage(id, Unset, t.item.kind, t.item.data)] else []
    ensures Texts(Refused(cell, [t])) == if t.Takes? && !cell.status.Connected?
                                         then [Frame(TEXT_MESSAGE, Plain(WAIT_TEXT))] else []
  {
    assert [t][..0] == [];
  }

  // ---------- writeUpStreamPump ----------

  /** Where writeUpStreamPump stands: does it go on, and how often has it asked the hub to register the session? */
  datatype Progress = Progress(cell: Machine.StatusCell, annotation: Bytes, wire: Wire, goesOn: bool, registers: nat)

  /** One message: a connect confirms a connecting session, a close ends it, data is written. */
  function Once(p: Progress, m: TunnelMessage): Progress {
    var confirms, ends := m.action == CONNECT_MESSAGE && p.cell.status.Connecting?, m.action == CLOSE_MESSAGE;
    Progress(Turned(p.cell, confirms, ends), if ends then m.payload else p.annotation,
             After(p.wire, Binaries(if IsData(m) then [m.payload] else [])),
             !ends && !(IsData(m) && p.wire.room == 0), p.registers + Machine.Weight(confirms))
  }

  function OneTurn(p: Progress, t: Turn<TunnelMessage>): Progress {
    match t
    case Takes(m) => Once(p, m)
    case Sets(wanted) => p.(cell := Machine.SetStatus(p.cell, wanted))
  }

  /** Having asked the hub before changes nothing but that. */
  lemma OneTurnRegisters(p: Progress, t: Turn<TunnelMessage>)
    ensures var q := OneTurn(p.(registers := 0), t);
            OneTurn(p, t) == q.(registers := p.registers + q.registers)
  {
  }

  /** One turn after the other. */
  function Relay(start: Progress, turns: seq<Turn<TunnelMessage>>): Progress {
    if turns == [] then start else OneTurn(Relay(start, turns[..|turns| - 1]), turns[|turns| - 1])
  }

  /** The messages among the turns. */
  function Items(turns: seq<Turn<TunnelMessage>>): seq<TunnelMessage> {
    if turns == [] then []
    else Items(turns[..|turns| - 1]) + if turns[|turns| - 1].Takes? then [turns[|turns| - 1].item] else []
  }

  lemma OneMoreRelayed(start: Progress, turns: seq<Turn<TunnelMessage>>, t: Turn<TunnelMessage>)
    ensures Relay(start, turns + [t]) == OneTurn(Relay(start, turns), t)
    ensures Items(turns + [t]) == Items(turns) + if t.Takes? then [t.item] else []
  {
    assert (turns + [t])[..|turns|] == turns;
  }

  predicate Ended(taken: seq<TunnelMessage>) {
    taken != [] && taken[|taken| - 1].action == CLOSE_MESSAGE
  }

  /** What the messages taken so far have made of the start, whatever happened to the status. */
  predicate Written(start: Progress, taken: seq<TunnelMessage>, p: Progress) {
    && (forall i :: 0 <= i < |taken| - 1 ==> taken[i].action != CLOSE_MESSAGE)
    && p.wire == After(start.wire, Binaries(DataOf(taken)))
    && p.annotation == (if Ended(taken) then taken[|taken| - 1].payload else start.annotation)
    && (p.goesOn ==> !Ended(taken) && |DataOf(taken)| <= start.wire.room)
    && (!p.goesOn ==> taken != [])
    && (!p.goesOn && !Ended(taken) ==> IsData(taken[|taken| - 1]) && |DataOf(taken)| > start.wire.room)
  }

  lemma WrittenNone(start: Progress)
    requires start.goesOn
    ensures Written(start, [], start)
  {
  }

  lemma WrittenOnce(start: Progress, taken: seq<TunnelMessage>, p: Progress, m: TunnelMessage)
    requires Written(start, taken, p) && p.goesOn
    ensures Written(start, taken + [m], Once(p, m))
  {
    hide DataOf, Binaries, Turned, After, Count;
    TakenOneMore(start.wire, taken, m);
    var next := taken + [m];
    assert |next| == |taken| + 1 && next[|taken|] == m;
    assert forall i :: 0 <= i < |taken| ==> next[i] == taken[i];
    assert !Ended(taken);
  }

  /** Where the pump stands after these turns, none of which but the last may have ended it. */
  predicate Stands(start: Progress, turns: seq<Turn<TunnelMessage>>, p: Progress) {
    && p == Relay(start, turns)
    && Written(start, Items(turns), p)
    && forall k :: 0 <= k < |turns| ==> Relay(start, turns[..k]).goesOn
  }

  lemma StandsAtFirst(start: Progress)
    requires start.goesOn
    ensures Stands(start, [], start)
  {
    WrittenNone(start);
  }

  lemma StandsNext(start: Progress, turns: seq<Turn<TunnelMessage>>, p: Progress, t: Turn<TunnelMessage>)
    requires Stands(start, turns, p) && p.goesOn
    ensures Stands(start, turns + [t], OneTurn(p, t))
  {
    OneMoreRelayed(start, turns, t);
    if t.Takes? {
      WrittenOnce(start, Items(turns), p, t.item);
    } else {
      assert Items(turns + [t]) == Items(turns);
    }
    assert Written(start, Items(turns + [t]), OneTurn(p, t));
    hide Relay, Items, Once;
    forall k | 0 <= k < |turns + [t]| ensures Relay(start, (turns + [t])[..k]).goesOn {
      assert (turns + [t])[..k] == turns[..k];
      assert turns[..|turns|] == turns;
    }
  }

  /** A session that is closed on one side stays so and is not registered, whatever comes afterwards. */
  lemma {:induction false} ClosedStaysClosed(start: Progress, turns: seq<Turn<TunnelMessage>>)
    requires Absorbing(start.cell.status)
    ensures Relay(start, turns).cell == start.cell && Relay(start, turns).registers == start.registers
  {
    if turns != [] {
      ClosedStaysClosed(start, turns[..|turns| - 1]);
    }
  }

  /** The turn is an acknowledgement that finds the session connecting. */
  predicate Confirms(start: Progress, turns: seq<Turn<TunnelMessage>>, k: nat) {
    && k < |turns| && turns[k].Takes? && turns[k].item.action == CONNECT_MESSAGE
    && Relay(start, turns[..k]).cell.status.Connecting?
  }

  /** Such an acknowledgement leaves the session connected. */
  lemma ConfirmedConnects(start: Progress, turns: seq<Turn<TunnelMessage>>, k: nat)
    requires Confirms(start, turns, k)
    ensures Relay(start, turns[..k + 1]).cell.status.Connected?
    ensures Relay(start, turns[..k + 1]).registers == Relay(start, turns[..k]).registers + 1
  {
    assert turns[..k + 1] == turns[..k] + [turns[k]];
    OneMoreRelayed(start, turns[..k], turns[k]);
  }

  /** A close ends the relay, leaves the downstream closed if neither side was, and its payload is the annotation. */
  lemma CloseEndsRelay(start: Progress, turns: seq<Turn<TunnelMessage>>, m: TunnelMessage)
    requires m.action == CLOSE_MESSAGE
    ensures var p, q := Relay(start, turns), Relay(start, turns + [Takes(m)]);
            && !q.goesOn && q.annotation == m.payload && q.wire == p.wire && q.registers == p.registers
            && q.cell.status == if Absorbing(p.cell.status) then p.cell.status else DownstreamClosed
  {
    OneMoreRelayed(start, turns, Takes(m));
  }

  /** Data with room is written to the upstream as it is, and changes nothing else; without room the relay ends. */
  lemma DataIsWritten(start: Progress, turns: seq<Turn<TunnelMessage>>, m: TunnelMessage)
    requires IsData(m)
    ensures var p, q := Relay(start, turns), Relay(start, turns + [Takes(m)]);
            && q.cell == p.cell && q.annotation == p.annotation && q.registers == p.registers
            && if p.wire.room > 0
               then q.goesOn
                    && q.wire == Wire(p.wire.frames + [Frame(BINARY_MESSAGE, Plain(m.payload))], p.wire.room - 1)
               else !q.goesOn && q.wire == p.wire
  {
    OneMoreRelayed(start, turns, Takes(m));
    assert Binaries([m.payload]) == [Frame(BINARY_MESSAGE, Plain(m.payload))];
  }

  /** A ping changes nothing. */
  lemma PingIsNothing(start: Progress, turns: seq<Turn<TunnelMessage>>, m: TunnelMessage)
    requires m.action == PING_MESSAGE
    ensures Relay(start, turns + [Takes(m)]) == Relay(start, turns).(goesOn := true)
  {
    OneMoreRelayed(start, turns, Takes(m));
  }

  /** A status another goroutine sets in between is there for the next message, and nothing else changes. */
  lemma SetInBetween(start: Progress, turns: seq<Turn<TunnelMessage>>, wanted: SessionStatus)
    ensures var p, q := Relay(start, turns), Relay(start, turns + [Sets(wanted)]);
            && q == p.(cell := q.cell)
            && q.cell.status == if Absorbing(p.cell.status) then p.cell.status else wanted
  {
    OneMoreRelayed(start, turns, Sets(wanted));
  }

  lemma ConfirmsEarlier(start: Progress, turns: seq<Turn<TunnelMessage>>, t: Turn<TunnelMessage>, k: nat)
    ensures k < |turns| ==> (Confirms(start, turns + [t], k) <==> Confirms(start, turns, k))
    ensures Confirms(start, turns + [t], |turns|) <==>
              t.Takes? && t.item.action == CONNECT_MESSAGE && Relay(start, turns).cell.status.Connecting?
  {
    hide Relay;
    assert (turns + [t])[..|turns|] == turns;
    assert k < |turns| ==> (turns + [t])[..k] == turns[..k];
  }

  /** The hub is asked to register the session if and only if some acknowledgement finds it connecting. */
  lemma {:induction false} RegistersIff(start: Progress, turns: seq<Turn<TunnelMessage>>)
    ensures Relay(start, turns).registers > start.registers ==> exists k: nat :: Confirms(start, turns, k)
    ensures (exists k: nat :: Confirms(start, turns, k)) ==> Relay(start, turns).registers > start.registers
    ensures Relay(start, turns).registers >= start.registers
  {
    if turns != [] {
      var front, t := turns[..|turns| - 1], turns[|turns| - 1];
      assert turns == front + [t];
      RegistersIff(start, front);
      OneMoreRelayed(start, front, t);
      forall k: nat ensures k < |front| ==> (Confirms(start, turns, k) <==> Confirms(start, front, k)) {
        ConfirmsEarlier(start, front, t, k);
      }
      ConfirmsEarlier(start, front, t, 0);
      assert forall k: nat :: Confirms(start, turns, k) ==> k <= |front| by {
        assert forall k: nat :: Confirms(start, turns, k) ==> k < |turns|;
      }
      hide Relay, Confirms;
    }
  }

  /** ... and at most once, as long as nobody sets the status back. */
  lemma {:induction false} RegistersOnce(start: Progress, turns: seq<Turn<TunnelMessage>>)
    requires forall t :: t in turns && t.Sets? ==> !t.status.Connecting?
    ensures var p := Relay(start, turns);
            && p.registers <= start.registers + Machine.Weight(start.cell.status.Connecting?)
            && (p.cell.status.Connecting? ==> start.cell.status.Connecting? && p.registers == start.registers)
  {
    if turns != [] {
      RegistersOnce(start, turns[..|turns| - 1]);
    }
  }

  /** What undisturbed messages make of the status: the first acknowledgement registers, a close ends. */
  predicate Alone(start: Progress, taken: seq<TunnelMessage>, p: Progress) {
    && p.registers == start.registers +
         Machine.Weight(start.cell.status.Connecting? && Count(taken, CONNECT_MESSAGE) > 0)
    && p.cell == Turned(start.cell, p.registers > start.registers, Ended(taken))
  }

  lemma AloneOnce(start: Progress, taken: seq<TunnelMessage>, p: Progress, m: TunnelMessage)
    requires Alone(start, taken, p) && !Ended(taken)
    ensures Alone(start, taken + [m], Once(p, m))
  {
    hide After, Binaries, Turned, Count;
    CountAppend(taken, m, CONNECT_MESSAGE);
    TurnedOnce(start.cell, p.registers > start.registers, m.action == CONNECT_MESSAGE && p.cell.status.Connecting?,
               m.action == CLOSE_MESSAGE);
  }

  /**
   If no other goroutine sets the status, the first acknowledgement registers a connecting session, and a close, which
   can only come last, ends it.
   */
  lemma {:induction false} RelayAlone(start: Progress, turns: seq<Turn<TunnelMessage>>)
    requires forall t :: t in turns ==> t.Takes?
    requires forall i :: 0 <= i < |turns| - 1 ==> turns[i].item.action != CLOSE_MESSAGE
    ensures Alone(start, Items(turns), Relay(start, turns))
    ensures |Items(turns)| == |turns| && forall i :: 0 <= i < |turns| ==> Items(turns)[i] == turns[i].item
  {
    if turns != [] {
      var front, m := turns[..|turns| - 1], turns[|turns| - 1].item;
      RelayAlone(start, front);
      assert !Ended(Items(front));
      hide Alone, Once;
      assert turns == front + [Takes(m)];
      OneMoreRelayed(start, front, Takes(m));
      AloneOnce(start, Items(front), Relay(start, front), m);
    }
  }
}
