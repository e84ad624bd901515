/** The protocol alphabet shared by server and agent: messages, session states and timing constants. */
module Protocol {
  newtype byte = x: int | 0 <= x < 256
  type Bytes = seq<byte>

  /** Session identifiers are fresh random strings in the program; here they are numbers in creation order. */
  type SessionId = nat

  const CONNECT_MESSAGE := 0
  const TEXT_MESSAGE := 1
  const BINARY_MESSAGE := 2
  const CLOSE_MESSAGE := 8
  const PING_MESSAGE := 9

  /** Times in seconds. */
  const PONG_WAIT: real := 60.0
  const PING_PERIOD: real := PONG_WAIT * 9.0 / 10.0

  /** The `protocol` field of a message; `Unset` is the empty string. */
  datatype Protocol = Unset | Http | Ssh | Websocket | Exec | Logs | Other(name: string)

  /** `NoStatus` is the zero value an agent session starts with. */
  datatype SessionStatus =
    | NoStatus | Connecting | Connected | UpstreamClosed | DownstreamClosed
    | SessionClosed | ConnectFailed | ProcessFailed

  datatype TunnelMessage = TunnelMessage(session: SessionId, protocol: Protocol, action: int, payload: Bytes)

  /** The states a session never leaves once SetStatus has put it there. */
  predicate Absorbing(status: SessionStatus) {
    status.SessionClosed? || status.DownstreamClosed? || status.UpstreamClosed?
  }

  /** The value of a status cell that held `current` after SetStatus(`wanted`). */
  function AfterSet(current: SessionStatus, wanted: SessionStatus): SessionStatus {
    if Absorbing(current) then current else wanted
  }

  /** Anything that is not a control message carries data. */
  predicate IsData(m: TunnelMessage) {
    m.action != CONNECT_MESSAGE && m.action != CLOSE_MESSAGE && m.action != PING_MESSAGE
  }

  function Ascii(text: string): Bytes {
    seq(|text|, i requires 0 <= i < |text| => if text[i] < 128 as char then text[i] as byte else 63)
  }

  /** The text of the status that makes the server's hub tell the agent. */
  const UPSTREAM_CLOSED_TEXT: Bytes := Ascii("upstream closed")

  /** The values on the wire, and the text of the one status that is sent. */
  lemma Alphabet()
    ensures CONNECT_MESSAGE == 0 && TEXT_MESSAGE == 1 && BINARY_MESSAGE == 2 && CLOSE_MESSAGE == 8 && PING_MESSAGE == 9
    ensures |UPSTREAM_CLOSED_TEXT| == |"upstream closed"|
    ensures forall i :: 0 <= i < |"upstream closed"| ==>
              UPSTREAM_CLOSED_TEXT[i] as int == "upstream closed"[i] as int
  {
    assert forall i :: 0 <= i < |"upstream closed"| ==> "upstream closed"[i] < 128 as char;
  }

  /** Three statuses stay, whatever is set afterwards; every other one gives way. */
  lemma StatusesThatStay(wanted: SessionStatus, other: SessionStatus)
    ensures AfterSet(UpstreamClosed, wanted) == UpstreamClosed
    ensures AfterSet(DownstreamClosed, wanted) == DownstreamClosed
    ensures AfterSet(SessionClosed, wanted) == SessionClosed
    ensures !(other.UpstreamClosed? || other.DownstreamClosed? || other.SessionClosed?) ==>
              AfterSet(other, wanted) == wanted
  {
  }

  datatype Callback = Registered(id: SessionId) | Unregistered(id: SessionId)

  datatype Option<+T> = None | Some(value: T)
}
