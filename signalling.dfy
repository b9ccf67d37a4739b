/** The client session of `src/common/signalling.js`: one socket to the relay,
    a single-slot handler map, the hello sent when the socket opens, and the
    `pass` envelope around every payload. The socket is an identity plus a log
    of the frames sent on it; handlers are opaque identities and every call
    into one is recorded. */
module Signalling {
  import opened Wire

  type SocketId = nat
  /** A callback passed to `on`. */
  type Handler = nat

  /** One invocation of a registered handler: `data` is the decoded message,
      or `None` for the argument-less `closed` call. */
  datatype Call = Call(handler: Handler, data: Option<Message>)

  /** The hello sent when the socket opens: `receiver-hello` exactly for the
      role `"receiver"`, `sender-hello` for every other role. */
  function HelloFor(role: string, roomID: Key): (e: Envelope)
    ensures e.message == "receiver-hello" <==> role == "receiver"
    ensures e.message == "receiver-hello" || e.message == "sender-hello"
    ensures e.roomID == roomID && e.payload.None?
  {
    Envelope(if role == "receiver" then "receiver-hello" else "sender-hello", roomID, None)
  }

  /** `packMessage`: the payload goes, unchanged, into a `pass` envelope. */
  function PackMessage(roomID: Key, msg: Message): (e: Envelope)
    ensures e.message == "pass" && e.roomID == roomID && e.payload == Some(Msg(msg))
  {
    Envelope("pass", roomID, Some(Msg(msg)))
  }

  class Session {
    /** `type` and `roomID`, fixed by the constructor. */
    const role: string
    const roomID: Key
    /** `this.socket`: `None` is `undefined`. */
    var socket: Option<SocketId>
    var nextSocket: SocketId
    /** Every `socket.send` so far, with the socket it went to. */
    var sent: seq<(SocketId, Envelope)>
    /** Every `socket.close()` so far. */
    var closed: seq<SocketId>
    /** `cbMap`. */
    var handlers: map<string, Handler>
    /** Every handler invocation so far. */
    var calls: seq<Call>

    constructor (roomID: Key, role: string)
      ensures this.role == role && this.roomID == roomID
      ensures socket.None? && sent == [] && closed == [] && handlers == map[] && calls == []
    {
      this.role := role;
      this.roomID := roomID;
      socket := None;
      nextSocket := 0;
      sent := [];
      closed := [];
      handlers := map[];
      calls := [];
    }

    /** `on`: replaces any handler for `name` and leaves every other key alone. */
    method On(name: string, cb: Handler)
      modifies this`handlers
      ensures handlers == old(handlers)[name := cb]
      ensures name in handlers && handlers[name] == cb
      ensures forall n | n in old(handlers) && n != name :: n in handlers && handlers[n] == old(handlers)[n]
    {
      handlers := handlers[name := cb];
    }

    /** `close`: closes and forgets the socket; without a socket it does nothing. */
    method Close()
      modifies this`socket, this`closed
      ensures socket.None?
      ensures closed == old(closed) + (if old(socket).Some? then [old(socket).value] else [])
    {
      if socket.Some? {
        closed := closed + [socket.value];
        socket := None;
      }
    }

    /** The first half of `init`, up to the awaited `open` event: a new
        socket, with `error`, `close` and `message` routed to `OnClosed` and
        `OnSocketMessage`. */
    method Init()
      modifies this`socket, this`nextSocket
      ensures socket == Some(old(nextSocket)) && nextSocket == old(nextSocket) + 1
    {
      socket := Some(nextSocket);
      nextSocket := nextSocket + 1;
    }

    /** The second half of `init`, run when the awaited `open` arrives: one hello frame on the current socket. With no socket (closed
        meanwhile) `this.socket.send` throws and nothing is sent. */
    method Opened() returns (ok: bool)
      modifies this`sent
      ensures ok <==> socket.Some?
      ensures sent == old(sent) + (if ok then [(socket.value, HelloFor(role, roomID))] else [])
    {
      ok := socket.Some?;
      if ok {
        sent := sent + [(socket.value, HelloFor(role, roomID))];
      }
    }

    /** `send`: one `pass` frame carrying `msg`; throws when there is no socket. */
    method Send(msg: Message) returns (ok: bool)
      modifies this`sent
      ensures ok <==> socket.Some?
      ensures sent == old(sent) + (if ok then [(socket.value, PackMessage(roomID, msg))] else [])
    {
      ok := socket.Some?;
      if ok {
        sent := sent + [(socket.value, PackMessage(roomID, msg))];
      }
    }

    method SendLocalSdp(kind: string, sdp: string) returns (ok: bool)
      modifies this`sent
      ensures ok <==> socket.Some?
      ensures sent == old(sent) + (if ok then [(socket.value, PackMessage(roomID, Sdp(kind, sdp)))] else [])
    {
      ok := Send(Sdp(kind, sdp));
    }

    method SendIce(candidate: string) returns (ok: bool)
      modifies this`sent
      ensures ok <==> socket.Some?
      ensures sent == old(sent) + (if ok then [(socket.value, PackMessage(roomID, Ice(candidate)))] else [])
    {
      ok := Send(Ice(candidate));
    }

    method SendParams(maxBitrate: Field<real>, crisp: Field<bool>) returns (ok: bool)
      modifies this`sent
      ensures ok <==> socket.Some?
      ensures sent == old(sent) + (if ok then [(socket.value, PackMessage(roomID, Params(maxBitrate, crisp)))] else [])
    {
      ok := Send(Params(maxBitrate, crisp));
    }

    /** `_onSocketMessage`: the handler registered under `data.message` is
        called once with `data`; no handler, no call. The body `null` makes
        `data.message` throw before any lookup. */
    method OnSocketMessage(data: Payload) returns (threw: bool)
      modifies this`calls
      ensures threw <==> data.NullPayload?
      ensures calls == old(calls) + (if data.Msg? && Name(data.msg) in handlers
                                     then [Call(handlers[Name(data.msg)], Some(data.msg))] else [])
    {
      if data.NullPayload? {
        return true;
      }
      threw := false;
      var name := Name(data.msg);
      if name in handlers {
        calls := calls + [Call(handlers[name], Some(data.msg))];
      }
    }

    /** `_onClosed`, reached from both the `error` and the `close` listener:
        calls the `closed` handler, if any, with no argument. */
    method OnClosed()
      modifies this`calls
      ensures calls == old(calls) + (if "closed" in handlers then [Call(handlers["closed"], None)] else [])
    {
      if "closed" in handlers {
        calls := calls + [Call(handlers["closed"], None)];
      }
    }
  }
}
