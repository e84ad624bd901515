/**
 The server's sessions and connections and the methods that change them: the close-once guard, the status field, the
 loops of the upstream pumps over what they are given.
 */
module ServerObjects {
  import opened Protocol
  import opened Queues
  import opened Wires
  import Machine

  /** One end of a websocket connection. */
  class Socket {
    var isOpen: bool
    var lasts: nat
    var frames: seq<Frame>

    constructor (lasts: nat)
      ensures isOpen && View() == Wire([], lasts)
    {
      isOpen, this.lasts, frames := true, lasts, [];
    }

    function View(): Wire
      reads this
    {
      Wire(frames, if isOpen then lasts else 0)
    }

    method WriteMessage(kind: int, content: Content) returns (ok: bool)
      modifies this
      ensures ok == (old(View()).room > 0) && View() == After(old(View()), [Frame(kind, content)])
      ensures frames == old(frames) + if ok then [Frame(kind, content)] else []
    {
      ok := isOpen && lasts > 0;
      if ok {
        frames, lasts := frames + [Frame(kind, content)], lasts - 1;
      }
    }

    method Close()
      modifies this
      ensures View() == old(View()).(room := 0)
    {
      isOpen := false;
    }
  }

  /** Either end of a session as the server sees it: the upstream of one session, or an agent. */
  class Client {
    const id: string
    const socket: Socket?
    var isClosed: bool
    var closings: nat               // how often the channel Send has been closed
    var queue: seq<TunnelMessage>   // what has been received on Send

    constructor (id: string, socket: Socket?)
      ensures Valid() && !isClosed && queue == [] && this.id == id && this.socket == socket
    {
      this.id, this.socket := id, socket;
      isClosed, closings, queue := false, 0, [];
    }

    /** Closing a closed channel would panic: the guard keeps that from happening. */
    predicate Valid()
      reads this
    {
      closings == if isClosed then 1 else 0
    }

    method WsLockWriteMessage(kind: int, content: Content) returns (ok: bool)
      requires socket != null
      modifies socket
      ensures ok == (old(socket.View()).room > 0)
      ensures socket.View() == After(old(socket.View()), [Frame(kind, content)])
      ensures socket.frames == old(socket.frames) + if ok then [Frame(kind, content)] else []
    {
      ok := socket.WriteMessage(kind, content);
    }

    method Close()
      requires Valid()
      modifies this, socket
      ensures Valid() && isClosed && queue == old(queue)
      ensures socket != null ==> socket.View() == old(socket.View()).(room := 0)
    {
      if !isClosed {
        closings, isClosed := closings + 1, true;
      }
      if socket != null {
        socket.Close();
      }
    }
  }

  class Session {
    const id: SessionId
    const protocol: Protocol
    const up: Client
    var down: Client?
    var status: SessionStatus
    var annotation: Bytes
    ghost var log: seq<SessionStatus>   // every value the status has had

    constructor (id: SessionId, protocol: Protocol, up: Client)
      ensures this.id == id && this.protocol == protocol && this.up == up && down == null && annotation == []
      ensures Cell() == Machine.StatusCell(Connecting, [Connecting])
    {
      this.id, this.protocol, this.up, down := id, protocol, up, null;
      status, annotation, log := Connecting, [], [Connecting];
    }

    /** The status field the way the machine keeps it. */
    ghost function Cell(): Machine.StatusCell
      reads this
    {
      Machine.StatusCell(status, log)
    }

    /** Both ends are connected; an HTTP request has no upstream socket. */
    predicate Wired()
      reads this
    {
      down != null && down.socket != null && (up.socket == null <==> protocol.Http?) && down.socket != up.socket
    }

    method SetStatus(wanted: SessionStatus)
      modifies this`status, this`log
      ensures Cell() == Machine.SetStatus(old(Cell()), wanted) && status == AfterSet(old(status), wanted)
    {
      if status.SessionClosed? || status.DownstreamClosed? || status.UpstreamClosed? {
        return;
      }
      log := if wanted == status then log else log + [wanted];
      status := wanted;
    }

    method GetStatus() returns (current: SessionStatus)
      ensures current == status
    {
      current := status;
    }

    method SetAnnotation(text: Bytes)
      modifies this`annotation
      ensures annotation == if status.SessionClosed? then old(annotation) else text
    {
      if status.SessionClosed? {
        return;
      }
      annotation := text;
    }

    method Close()
      requires up.Valid()
      modifies up, up.socket
      ensures up.Valid() && up.isClosed && up.queue == old(up.queue)
      ensures up.socket != null ==> up.socket.View() == old(up.socket.View()).(room := 0)
    {
      up.Close();
    }

    /** The body of readUpStreamPump for one turn. */
    method ReadUpStream(turn: Turn<Input>)
      requires Wired() && up.socket != null && down != up
      modifies this`status, this`log, down`queue, up.socket
      ensures Cell() == CellAfter(old(Cell()), [turn])
      ensures down.queue == old(down.queue) + Forwarded(id, old(Cell()), [turn])
      ensures up.socket.View() == After(old(up.socket.View()), Texts(Refused(old(Cell()), [turn])))
    {
      OneRead(id, Cell(), turn);
      assert After(up.socket.View(), []) == up.socket.View();
      hide CellAfter, Forwarded, Refused, Texts, After;
      match turn
      case Sets(wanted) => SetStatus(wanted);
      case Takes(input) =>
        var current := GetStatus();
        if !current.Connected? {
          var _ := up.WsLockWriteMessage(TEXT_MESSAGE, Plain(WAIT_TEXT));
        } else {
          down.queue := down.queue + [Machine.Forward(id, input.kind, input.data)];
        }
    }

    /** readUpStreamPump over what it reads and the status changes in between, until the read fails. */
    method ReadUpStreamPump(turns: seq<Turn<Input>>)
      requires Wired() && up.socket != null && down != up
      modifies this`status, this`log, down`queue, up.socket
      ensures down.queue == old(down.queue) + Forwarded(id, old(Cell()), turns)
      ensures up.socket.View() == After(old(up.socket.View()), Texts(Refused(old(Cell()), turns)))
      ensures Cell() == Machine.SetStatus(CellAfter(old(Cell()), turns), UpstreamClosed)
    {
      ghost var cell, wire := Cell(), up.socket.View();
      assert turns[..0] == [];
      assert After(wire, Texts([])) == wire;
      for n := 0 to |turns|
        invariant Cell() == CellAfter(cell, turns[..n])
        invariant down.queue == old(down.queue) + Forwarded(id, cell, turns[..n])
        invariant up.socket.View() == After(wire, Texts(Refused(cell, turns[..n])))
      {
        hide CellAfter, Forwarded, Refused, Texts, After;
        assert turns[..n + 1] == turns[..n] + [turns[n]];
        OneMoreRead(id, cell, turns[..n], turns[n], wire);
        ReadUpStream(turns[n]);
      }
      assert turns[..|turns|] == turns;
      SetStatus(UpstreamClosed);
    }

    /** Where writeUpStreamPump stands. */
    ghost function Standing(goesOn: bool, registers: nat): Progress
      requires up.socket != null
      reads this, up.socket
    {
      Progress(Cell(), annotation, up.socket.View(), goesOn, registers)
    }

    /** The body of writeUpStreamPump for one message: does the loop go on, is the session to be registered again? */
    method WriteUpStream(m: TunnelMessage) returns (goesOn: bool, registers: bool)
      requires up.socket != null
      modifies this`status, this`log, this`annotation, up.socket
      ensures Standing(goesOn, Machine.Weight(registers)) == Once(old(Standing(true, 0)), m)
    {
      goesOn, registers := true, false;
      if m.action == CONNECT_MESSAGE {
        var current := GetStatus();
        if current.Connecting? {
          SetStatus(Connected);
          registers := true;
        }
      } else if m.action == CLOSE_MESSAGE {
        SetStatus(DownstreamClosed);
        annotation := m.payload;
        goesOn := false;
      } else if m.action != PING_MESSAGE {
        goesOn := up.WsLockWriteMessage(BINARY_MESSAGE, Plain(m.payload));
      }
    }

    /** One turn of writeUpStreamPump. */
    method WriteTurn(turn: Turn<TunnelMessage>) returns (goesOn: bool, registers: bool)
      requires up.socket != null
      modifies this`status, this`log, this`annotation, up.socket
      ensures Standing(goesOn, Machine.Weight(registers)) == OneTurn(old(Standing(true, 0)), turn)
    {
      goesOn, registers := true, false;
      match turn
      case Sets(wanted) => SetStatus(wanted);
      case Takes(m) => goesOn, registers := WriteUpStream(m);
    }

    /**
     writeUpStreamPump over the messages it is given and the status changes in between: how many turns it goes through,
     and how often it asks the hub to register the session.
     */
    method WriteUpStreamPump(turns: seq<Turn<TunnelMessage>>) returns (done: nat, registers: nat)
      requires up.socket != null
      modifies this`status, this`log, this`annotation, up.socket
      ensures done <= |turns|
      ensures var p := Relay(old(Standing(true, 0)), turns[..done]);
              && Stands(old(Standing(true, 0)), turns[..done], p) && Standing(p.goesOn, registers) == p
              && (done < |turns| ==> !p.goesOn)
    {
      done, registers := 0, 0;
      var goesOn := true;
      ghost var start := Standing(goesOn, registers);
      StandsAtFirst(start);
      assert turns[..0] == [];
      while goesOn && done < |turns|
        invariant done <= |turns|
        invariant Stands(start, turns[..done], Standing(goesOn, registers))
      {
        hide Stands, OneTurn;
        ghost var p := Standing(goesOn, registers);
        assert turns[..done + 1] == turns[..done] + [turns[done]];
        StandsNext(start, turns[..done], p, turns[done]);
        OneTurnRegisters(p, turns[done]);
        var again: bool;
        goesOn, again := WriteTurn(turns[done]);
        done, registers := done + 1, if again then registers + 1 else registers;
      }
    }
  }
}
