/** The relay of `src/signalling_server/server.js`: a table from room ID to a
    two-slot room, the per-connection closure variables, and the handlers for
    `request`, `message` and `close`. Node runs each callback to completion, so
    each handler is one method. */
module Relay {
  import opened Wire

  type ConnId = nat

  const SenderRole := "sender"
  const ReceiverRole := "receiver"

  /** Only the two listed prefixes are allowed; the test is a plain prefix test. */
  const AllowedPrefixes: set<string> := {"https://localhost", "https://napiorkowskim.xyz"}

  /** `originIsAllowed`: true exactly when some allowed prefix starts the origin. */
  function OriginIsAllowed(origin: string): (r: bool)
    ensures r <==> exists p :: p in AllowedPrefixes && p <= origin
  {
    "https://localhost" <= origin || "https://napiorkowskim.xyz" <= origin
  }

  /** Any port of localhost passes, and so does any host name that merely
      begins with `localhost`; other schemes and hosts are refused. */
  lemma OriginExamples(rest: string)
    ensures OriginIsAllowed("https://localhost" + rest)
    ensures OriginIsAllowed("https://napiorkowskim.xyz" + rest)
    ensures OriginIsAllowed("https://localhost.evil")
    ensures !OriginIsAllowed("https://evil.example")
    ensures !OriginIsAllowed("http://localhost")
  {
    assert ("https://localhost" + rest)[..17] == "https://localhost";
    assert ("https://napiorkowskim.xyz" + rest)[..25] == "https://napiorkowskim.xyz";
    assert "https://localhost.evil"[..17] == "https://localhost";
    assert "https://evil.example"[8] != "https://localhost"[8];
    assert "https://evil.example"[8] != "https://napiorkowskim.xyz"[8];
    assert "http://localhost"[4] != "https://localhost"[4];
  }

  /** `typeToPipeEnd`: the receiver sits in slot 0, any other role in slot 1. */
  function TypeToPipeEnd(t: string): (r: nat)
    ensures r < 2
    ensures r == 0 <==> t == ReceiverRole
  {
    if t == ReceiverRole then 0 else 1
  }

  function Opposite(t: string): string
  {
    if t == ReceiverRole then SenderRole else ReceiverRole
  }

  /** The closure variables `type`, `otherType`, `roomID`, `pipeEnd` and
      `otherPipeEnd` of one accepted connection. */
  datatype ConnState = ConnState(
    role: Option<string>,
    otherRole: Option<string>,
    roomID: Key,
    pipeEnd: Option<nat>,
    otherPipeEnd: Option<nat>)

  const Initial := ConnState(None, None, NullKey, None, None)

  /** What the handlers keep true of the closure variables: either nothing is
      set yet, or the two roles are sender and receiver in some order and the
      two pipe ends are their slots. */
  predicate WellFormed(st: ConnState)
  {
    match st.role
    case None =>
      st.otherRole.None? && st.pipeEnd.None? && st.otherPipeEnd.None? && st.roomID == NullKey
    case Some(t) =>
      (t == SenderRole || t == ReceiverRole)
      && st.otherRole == Some(Opposite(t))
      && st.pipeEnd == Some(TypeToPipeEnd(t))
      && st.otherPipeEnd == Some(TypeToPipeEnd(Opposite(t)))
  }

  /** The closure variables after a `receiver-hello` (`isReceiver`) or a
      `sender-hello` for room `rid`: receiver is sticky, sender is only taken
      when no role was set, and the room is always re-targeted. */
  function AfterHello(st: ConnState, isReceiver: bool, rid: Key): (r: ConnState)
    requires WellFormed(st)
    ensures WellFormed(r)
    ensures r.roomID == rid
    ensures r.role == Some(if isReceiver || st.role == Some(ReceiverRole) then ReceiverRole else SenderRole)
    ensures st.role.Some? && !isReceiver ==> r.role == st.role
    ensures r.pipeEnd.Some? && r.otherPipeEnd.Some? && r.pipeEnd.value != r.otherPipeEnd.value
  {
    var role := if isReceiver then Some(ReceiverRole) else st.role;
    var otherRole := if isReceiver then Some(SenderRole) else st.otherRole;
    var role := if role.None? then Some(SenderRole) else role;
    var otherRole := if otherRole.None? then Some(ReceiverRole) else otherRole;
    ConnState(role, otherRole, rid, Some(TypeToPipeEnd(role.value)), Some(TypeToPipeEnd(otherRole.value)))
  }

  /** An inbound WebSocket frame. A text frame's body is not JSON, the JSON
      literal `null`, or a decoded object. A body that is some other JSON value
      behaves like an object whose `message` is none of the handled names. */
  datatype Frame = Binary | Text(body: Body)
  datatype Body = Unparseable | JsonNull | Parsed(env: Envelope)

  /** Which branch of the `message` handler a frame takes. */
  datatype Event =
    | Ignored
    | Throws
    | HelloEvent(isReceiver: bool, roomID: Key)
    | PassEvent(payload: Option<Payload>)

  function Classify(f: Frame): (e: Event)
    ensures e.Throws? <==> f == Text(JsonNull)
    ensures e.Ignored? <==> (f.Binary? || f == Text(Unparseable)
                             || (f.Text? && f.body.Parsed?
                                 && f.body.env.message !in {"receiver-hello", "sender-hello", "pass"}))
    ensures e.HelloEvent? ==> f.Text? && f.body.Parsed? && e.roomID == f.body.env.roomID
                              && (e.isReceiver <==> f.body.env.message == "receiver-hello")
    ensures e.PassEvent? ==> f.Text? && f.body.Parsed? && f.body.env.message == "pass"
                             && e.payload == f.body.env.payload
  {
    match f
    case Binary => Ignored
    case Text(Unparseable) => Ignored
    case Text(JsonNull) => Throws
    case Text(Parsed(env)) =>
      if env.message == "receiver-hello" then HelloEvent(true, env.roomID)
      else if env.message == "sender-hello" then HelloEvent(false, env.roomID)
      else if env.message == "pass" then PassEvent(env.payload)
      else Ignored
  }

  /** The frames a `pass` hands to `sendUTF`: nothing for an unjoined
      connection, a missing payload or an empty counterpart slot, and otherwise
      the payload itself to the counterpart. */
  function PassFrames(st: ConnState, slots: seq<Option<ConnId>>, payload: Option<Payload>): (out: seq<(ConnId, Payload)>)
    requires WellFormed(st) && |slots| == 2
    ensures |out| <= 1
    ensures |out| == 1 <==> st.roomID != NullKey && payload.Some? && slots[st.otherPipeEnd.value].Some?
    ensures |out| == 1 ==> out[0] == (slots[st.otherPipeEnd.value].value, payload.value)
  {
    if st.roomID == NullKey then []
    else if payload.None? then []
    else match slots[st.otherPipeEnd.value]
      case None => []
      case Some(peer) => [(peer, payload.value)]
  }

  class Server {
    /** `roomIDMap`: each value is a two-element JavaScript array shared by
        reference, so two keys can hold the same room. */
    var rooms: map<Key, array<Option<ConnId>>>
    /** The closure variables of every accepted connection. */
    var conns: map<ConnId, ConnState>
    var nextConn: ConnId
    /** Every `sendUTF` call so far: the target connection and the value sent. */
    var outbox: seq<(ConnId, Payload)>

    ghost predicate Valid()
      reads this
    {
      && (forall k | k in rooms :: rooms[k].Length == 2)
      && (forall c | c in conns :: c < nextConn)
      && (forall c | c in conns :: WellFormed(conns[c]))
      && (forall c | c in conns :: conns[c].roomID != NullKey ==> conns[c].roomID in rooms)
    }

    constructor ()
      ensures Valid()
      ensures rooms == map[] && conns == map[] && outbox == []
    {
      rooms := map[];
      conns := map[];
      nextConn := 0;
      outbox := [];
    }

    /** The `request` handler: a disallowed origin is rejected and gets no
        connection; an allowed one gets fresh closure variables. */
    method Request(origin: string) returns (c: Option<ConnId>)
      requires Valid()
      modifies this
      ensures Valid()
      ensures c.None? <==> !OriginIsAllowed(origin)
      ensures c.None? ==> conns == old(conns) && nextConn == old(nextConn)
      ensures c.Some? ==> c.value !in old(conns) && conns == old(conns)[c.value := Initial]
      ensures rooms == old(rooms) && outbox == old(outbox)
    {
      if !OriginIsAllowed(origin) {
        return None;
      }
      c := Some(nextConn);
      conns := conns[nextConn := Initial];
      nextConn := nextConn + 1;
    }

    /** The `*-hello` branch of the `message` handler. */
    method Hello(c: ConnId, isReceiver: bool, rid: Key)
      requires Valid() && c in conns
      modifies this, rooms.Values
      ensures Valid()
      ensures conns == old(conns)[c := AfterHello(old(conns[c]), isReceiver, rid)]
      ensures nextConn == old(nextConn)
      ensures rid in rooms && rooms == old(rooms)[rid := rooms[rid]]
      ensures rid in old(rooms) ==> rooms[rid] == old(rooms[rid])
      ensures rid !in old(rooms) ==> fresh(rooms[rid])
      ensures var slots := if rid in old(rooms) then old(rooms[rid][..]) else [None, None];
              rooms[rid][..] == slots[conns[c].pipeEnd.value := Some(c)]
      ensures forall a | a in old(rooms.Values) && a != rooms[rid] :: a[..] == old(a[..])
      ensures var room := rooms[rid];
              if room[conns[c].otherPipeEnd.value].Some?
              then room[1].Some? && outbox == old(outbox) + [(room[1].value, Msg(Ready))]
              else outbox == old(outbox)
    {
      var st := conns[c];
      var role, otherRole := Roles(st, isReceiver);
      var pipeEnd := TypeToPipeEnd(role);
      var otherPipeEnd := TypeToPipeEnd(otherRole);
      conns := conns[c := ConnState(Some(role), Some(otherRole), rid, Some(pipeEnd), Some(otherPipeEnd))];
      assert conns[c] == AfterHello(st, isReceiver, rid);
      var room := Store(rid, pipeEnd, c);
      NotifySender(room, otherPipeEnd);
    }

    /** The `roomIDMap.get`/`set` of the hello branch: fetch the room or
        create `[null, null]`, write this connection into its slot, and store
        the room under `rid`. */
    method Store(rid: Key, slot: nat, c: ConnId) returns (room: array<Option<ConnId>>)
      requires slot < 2 && forall k | k in rooms :: rooms[k].Length == 2
      modifies this`rooms, rooms.Values
      ensures forall k | k in rooms :: rooms[k].Length == 2
      ensures rooms == old(rooms)[rid := room]
      ensures rid in old(rooms) ==> room == old(rooms[rid])
      ensures rid !in old(rooms) ==> fresh(room)
      ensures room[..] == (if rid in old(rooms) then old(rooms[rid][..]) else [None, None])[slot := Some(c)]
      ensures forall a | a in old(rooms.Values) && a != room :: a[..] == old(a[..])
    {
      if rid in rooms {
        room := rooms[rid];
      } else {
        room := NewRoom();
      }
      room[slot] := Some(c);
      rooms := rooms[rid := room];
    }

    /** The `ready` notice of the hello branch: when the counterpart slot is
        filled, `ready` goes to the sender's slot, which is filled too because
        one of the two slots is this connection's. */
    method NotifySender(room: array<Option<ConnId>>, otherPipeEnd: nat)
      requires room.Length == 2 && otherPipeEnd < 2
      requires room[otherPipeEnd].Some? ==> room[1].Some?
      modifies this`outbox
      ensures if room[otherPipeEnd].Some?
              then outbox == old(outbox) + [(room[1].value, Msg(Ready))]
              else outbox == old(outbox)
    {
      if room[otherPipeEnd].Some? {
        var target := room[TypeToPipeEnd(SenderRole)];
        outbox := outbox + [(target.value, Msg(Ready))];
      }
    }

    /** The role assignment of the hello branch: `receiver-hello` sets both
        roles, and either hello fills in the roles that are still `null`. */
    static method Roles(st: ConnState, isReceiver: bool) returns (role: string, otherRole: string)
      requires WellFormed(st)
      ensures var r := AfterHello(st, isReceiver, st.roomID);
              r.role == Some(role) && r.otherRole == Some(otherRole)
    {
      var t, o := st.role, st.otherRole;
      if isReceiver {
        t := Some(ReceiverRole);
        o := Some(SenderRole);
      }
      if t.None? { t := Some(SenderRole); }
      if o.None? { o := Some(ReceiverRole); }
      role, otherRole := t.value, o.value;
    }

    /** The `[null, null]` the hello branch stores for an unknown room ID. */
    static method NewRoom() returns (room: array<Option<ConnId>>)
      ensures fresh(room) && room[..] == [None, None]
    {
      room := new Option<ConnId>[2];
      room[0], room[1] := None, None;
    }

    /** The `pass` branch of the `message` handler: forwards `payload`, never
        the envelope, and leaves the table alone. The room lookup cannot miss
        (`Valid`), so the `TypeError` on a missing room never happens. */
    method Pass(c: ConnId, payload: Option<Payload>)
      requires Valid() && c in conns
      modifies this
      ensures Valid()
      ensures rooms == old(rooms) && conns == old(conns) && nextConn == old(nextConn)
      ensures old(conns[c].roomID) != NullKey ==> old(conns[c].roomID) in rooms
      ensures var st := conns[c];
              outbox == old(outbox) + (if st.roomID == NullKey then [] else PassFrames(st, rooms[st.roomID][..], payload))
    {
      var st := conns[c];
      if st.roomID == NullKey { return; }
      var room := rooms[st.roomID];
      if payload.None? { return; }
      var peer := room[st.otherPipeEnd.value];
      if peer.Some? {
        outbox := outbox + [(peer.value, payload.value)];
      }
    }

    /** The `message` handler: drops non-text and unparseable frames, throws
        on the body `null` before touching anything, and dispatches on
        `data.message`. */
    method OnMessage(c: ConnId, f: Frame) returns (threw: bool)
      requires Valid() && c in conns
      modifies this, rooms.Values
      ensures Valid()
      ensures threw <==> Classify(f).Throws?
      ensures nextConn == old(nextConn)
      ensures (Classify(f).Ignored? || Classify(f).Throws?) ==>
                rooms == old(rooms) && conns == old(conns) && outbox == old(outbox)
                && forall a | a in old(rooms.Values) :: a[..] == old(a[..])
      // a hello acts as `Hello`
      ensures Classify(f).HelloEvent? ==>
                var e := Classify(f);
                && conns == old(conns)[c := AfterHello(old(conns[c]), e.isReceiver, e.roomID)]
                && e.roomID in rooms && rooms == old(rooms)[e.roomID := rooms[e.roomID]]
                && (e.roomID in old(rooms) ==> rooms[e.roomID] == old(rooms[e.roomID]))
                && (e.roomID !in old(rooms) ==> fresh(rooms[e.roomID]))
      ensures Classify(f).HelloEvent? ==>
                var rid := Classify(f).roomID;
                var slots := if rid in old(rooms) then old(rooms[rid][..]) else [None, None];
                rid in rooms && c in conns && conns[c].pipeEnd.Some?
                && rooms[rid][..] == slots[conns[c].pipeEnd.value := Some(c)]
      ensures Classify(f).HelloEvent? ==>
                Classify(f).roomID in rooms
                && forall a | a in old(rooms.Values) && a != rooms[Classify(f).roomID] :: a[..] == old(a[..])
      ensures Classify(f).HelloEvent? ==>
                var room := rooms[Classify(f).roomID];
                c in conns && conns[c].otherPipeEnd.Some? && conns[c].otherPipeEnd.value < room.Length
                && if room[conns[c].otherPipeEnd.value].Some?
                   then room[1].Some? && outbox == old(outbox) + [(room[1].value, Msg(Ready))]
                   else outbox == old(outbox)
      // a pass acts as `Pass`
      ensures Classify(f).PassEvent? ==>
                rooms == old(rooms) && conns == old(conns)
                && forall a | a in old(rooms.Values) :: a[..] == old(a[..])
      ensures Classify(f).PassEvent? ==>
                var st := old(conns[c]);
                WellFormed(st) && (st.roomID != NullKey ==> st.roomID in rooms && rooms[st.roomID].Length == 2)
                && outbox == old(outbox) + (if st.roomID == NullKey then []
                                            else PassFrames(st, rooms[st.roomID][..], Classify(f).payload))
    {
      threw := false;
      match Classify(f)
      case Ignored =>
      case Throws =>
        threw := true;
      case HelloEvent(isReceiver, rid) =>
        Hello(c, isReceiver, rid);
      case PassEvent(payload) =>
        Pass(c, payload);
    }

    /** The `close` handler as written: `roomID` is set to `null` before it is
        used as the key, so the slot is cleared in the shared room array, the
        entry under the real ID stays, and the `null` key is deleted (both slots
        empty) or made to point to the room. */
    method Close(c: ConnId)
      requires Valid() && c in conns
      modifies this, rooms.Values
      ensures Valid()
      ensures nextConn == old(nextConn) && outbox == old(outbox)
      ensures old(conns[c].roomID) == NullKey ==>
                rooms == old(rooms) && conns == old(conns)
                && forall a | a in old(rooms.Values) :: a[..] == old(a[..])
      ensures old(conns[c].roomID) != NullKey ==>
                var rid := old(conns[c].roomID);
                var room := old(rooms[rid]);
                var slot := old(conns[c].pipeEnd.value);
                && conns == old(conns)[c := old(conns[c]).(roomID := NullKey)]
                && room[..] == old(room[..])[slot := None]
                && rid in rooms && rooms[rid] == room
                && rooms == (if room[0].None? && room[1].None? then old(rooms) - {NullKey}
                             else old(rooms)[NullKey := room])
                && forall a | a in old(rooms.Values) && a != room :: a[..] == old(a[..])
    {
      var st := conns[c];
      if st.roomID == NullKey { return; }
      var room := rooms[st.roomID];
      conns := conns[c := st.(roomID := NullKey)];
      var roomID := NullKey;
      room[st.pipeEnd.value] := None;
      if room[0].None? && room[1].None? {
        rooms := rooms - {roomID};
      } else {
        rooms := rooms[roomID := room];
      }
    }
  }
}
