/** Values shared by the relay, the connector and the client: Go strings, control
    messages and bridge events, all in decoded form. */
module Protocol {

  datatype Option<+T> = None | Some(value: T)

  datatype Result<+T> = Ok(value: T) | Err

  /** A Go string is a byte string; a byte is a character below 256. */
  type byte = c: char | c as int < 256

  type Bytes = seq<byte>

  type SessionId = Bytes

  datatype Caps = Caps(e2ee: bool)

  /** A decoded control message. CONNECT carries the SHA-256 of its access code,
      because the hash function itself is not part of the model. */
  datatype Control =
    | Register(accessCodeHash: Bytes, generation: int, caps: Option<Caps>)
    | Connect(accessCode: Bytes, codeHash: Bytes, e2ee: bool)
    | ConnectOk(sessionId: SessionId, caps: Option<Caps>)
    | SessionOpen(sessionId: SessionId, e2ee: bool)
    | CloseSession(sessionId: SessionId)
    | Heartbeat
    | Error(code: string)
    | Unknown

  /** The bridge events that travel, JSON-encoded, inside DATA payloads. */
  datatype Event =
    | UserMessage(content: Bytes)
    | ControlAction(action: string)
    | Token(content: Bytes)
    | End
    | Failure(code: string, message: Bytes)
    | OtherEvent

  predicate IsTerminal(e: Event) {
    e.End? || e.Failure?
  }
}
