/** Values exchanged between the session objects and the relay, as datatypes
    instead of JSON text. */
module Wire {

  datatype Option<T> = None | Some(value: T)

  /** A field of a decoded JSON object: missing (`undefined`), `null`, or a value. */
  datatype Field<T> = Absent | Null | Present(value: T)

  /** A `roomID` as it reaches the relay: a string, `null`, or missing. Both
      non-string forms are distinct keys of a JavaScript `Map`. */
  datatype Key = NullKey | UndefinedKey | Named(name: string)

  /** A message object whose `message` field names its kind. `Ready` is what the
      relay emits; `Sdp`, `Ice` and `Params` are what the session helpers put
      inside a `pass`; `Other(n)` is any other object whose `message` field is `n`. */
  datatype Message =
    | Ready
    | Sdp(kind: string, sdp: string)
    | Ice(candidate: string)
    | Params(maxBitrate: Field<real>, crisp: Field<bool>)
    | Other(name: string)

  /** The value of the `message` field, which receivers dispatch on. */
  function Name(m: Message): string
  {
    match m
    case Ready => "ready"
    case Sdp(_, _) => "sdp"
    case Ice(_) => "ice"
    case Params(_, _) => "params"
    case Other(n) => n
  }

  /** A JSON value sent as one frame: the literal `null` or a message object. */
  datatype Payload = NullPayload | Msg(msg: Message)

  /** A client-to-relay frame `{message, roomID, payload}`; `payload` is
      `None` when the field is missing. */
  datatype Envelope = Envelope(message: string, roomID: Key, payload: Option<Payload>)
}
