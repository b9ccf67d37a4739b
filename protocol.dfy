/** How the session object and the relay fit together, and runs of the relay
    that show what its handlers do in sequence. */
module Protocol {
  import opened Wire
  import Relay
  import Signalling

  /** A session's hello takes the relay's hello branch for the session's room,
      and a fresh connection lands in the slot that its role string maps to. */
  lemma HelloReachesOwnSlot(role: string, roomID: Key)
    ensures var e := Relay.Classify(Relay.Text(Relay.Parsed(Signalling.HelloFor(role, roomID))));
            && e.HelloEvent? && e.roomID == roomID
            && (e.isReceiver <==> role == Relay.ReceiverRole)
            && Relay.AfterHello(Relay.Initial, e.isReceiver, e.roomID).pipeEnd == Some(Relay.TypeToPipeEnd(role))
  {
  }

  /** What a session packs reaches the relay as a `pass` whose payload is the
      message itself; when the counterpart slot is filled the relay sends that
      message and nothing else, so the peer dispatches on the message's own
      name (`sdp`, `ice`, `params`), never on `pass`. */
  lemma PassDeliversMessage(roomID: Key, m: Message, st: Relay.ConnState, slots: seq<Option<Relay.ConnId>>)
    requires Relay.WellFormed(st) && |slots| == 2 && st.roomID != NullKey
    requires slots[st.otherPipeEnd.value].Some?
    ensures var e := Relay.Classify(Relay.Text(Relay.Parsed(Signalling.PackMessage(roomID, m))));
            && e == Relay.PassEvent(Some(Msg(m)))
            && Relay.PassFrames(st, slots, e.payload) == [(slots[st.otherPipeEnd.value].value, Msg(m))]
  {
  }

  /** An accepted connection from the local development origin. */
  method Connect(relay: Relay.Server) returns (c: Relay.ConnId)
    requires relay.Valid()
    modifies relay
    ensures relay.Valid()
    ensures c !in old(relay.conns) && relay.conns == old(relay.conns)[c := Relay.Initial]
    ensures relay.rooms == old(relay.rooms) && relay.outbox == old(relay.outbox)
  {
    Relay.OriginExamples(":8081");
    var r := relay.Request("https://localhost" + ":8081");
    c := r.value;
  }

  /** A sender and then a receiver join one room: `ready` goes once, to the
      sender, after the second hello. A `pass` before the receiver joined is
      dropped; one afterwards arrives as its bare payload. */
  method PairingRun(payload: Message)
  {
    var relay := new Relay.Server();
    var sender := Connect(relay);
    var receiver := Connect(relay);
    var room := Named("office");
    relay.Hello(sender, false, room);
    assert relay.outbox == [];
    relay.Pass(sender, Some(Msg(payload)));
    assert relay.outbox == [];
    relay.Hello(receiver, true, room);
    assert relay.outbox == [(sender, Msg(Ready))];
    relay.Pass(sender, Some(Msg(payload)));
    assert relay.outbox == [(sender, Msg(Ready)), (receiver, Msg(payload))];
  }

  /** A sender and a receiver in room `office`, as after `PairingRun`'s hellos. */
  method PairedRoom() returns (relay: Relay.Server, sender: Relay.ConnId, receiver: Relay.ConnId)
    ensures fresh(relay) && relay.Valid()
    ensures forall a | a in relay.rooms.Values :: fresh(a)
    ensures sender in relay.conns && receiver in relay.conns && sender != receiver
    ensures relay.conns[sender].roomID == Named("office") && relay.conns[sender].pipeEnd == Some(1)
    ensures relay.conns[receiver].roomID == Named("office") && relay.conns[receiver].pipeEnd == Some(0)
    ensures relay.rooms.Keys == {Named("office")}
    ensures relay.rooms[Named("office")][..] == [Some(receiver), Some(sender)]
  {
    relay := new Relay.Server();
    sender := Connect(relay);
    receiver := Connect(relay);
    relay.Hello(sender, false, Named("office"));
    relay.Hello(receiver, true, Named("office"));
  }

  /** After both peers close, the room is still in the table under its own ID,
      with both slots empty, and the `null` key is gone. */
  method EmptiedRoomStays()
  {
    var relay, sender, receiver := PairedRoom();
    var room := Named("office");
    relay.Close(sender);
    assert relay.rooms[room][..] == [Some(receiver), None];
    relay.Close(receiver);
    assert room in relay.rooms && relay.rooms[room][..] == [None, None];
    assert NullKey !in relay.rooms;
  }

  /** The sender of room `office` has closed; `stranger` is connected but has
      sent nothing. */
  method HalfClosedRoom() returns (relay: Relay.Server, receiver: Relay.ConnId, stranger: Relay.ConnId)
    ensures fresh(relay) && relay.Valid()
    ensures forall a | a in relay.rooms.Values :: fresh(a)
    ensures receiver in relay.conns && stranger in relay.conns && receiver != stranger
    ensures relay.conns[stranger] == Relay.Initial
    ensures relay.conns[receiver].roomID == Named("office") && relay.conns[receiver].pipeEnd == Some(0)
    ensures Named("office") in relay.rooms && NullKey in relay.rooms
    ensures relay.rooms[NullKey] == relay.rooms[Named("office")]
    ensures relay.rooms[Named("office")][..] == [Some(receiver), None]
  {
    var sender;
    relay, sender, receiver := PairedRoom();
    stranger := Connect(relay);
    relay.Close(sender);
  }

  /** Closing the sender of a room leaves that room under the `null` key too,
      so a later hello whose `roomID` is `null` joins it: the new connection
      gets `ready`, and the receiver's next `pass` goes to it. */
  method NullKeyJoinsClosedRoom(payload: Message)
  {
    var relay, receiver, stranger := HalfClosedRoom();
    var room := relay.rooms[Named("office")];
    relay.Hello(stranger, false, NullKey);
    assert room[..] == [Some(receiver), Some(stranger)];
    assert relay.outbox[|relay.outbox| - 1] == (stranger, Msg(Ready));
    var before := relay.outbox;
    relay.Pass(receiver, Some(Msg(payload)));
    assert relay.outbox == before + [(stranger, Msg(payload))];
  }

  /** The same half-closed room: a `receiver-hello` whose `roomID` is `null`
      takes the remaining receiver's slot 0, gets no `ready` because slot 1 is
      empty, and its `pass` goes nowhere. */
  method NullReceiverTakesSlot(payload: Message)
  {
    var relay, receiver, stranger := HalfClosedRoom();
    var room := relay.rooms[Named("office")];
    var before := relay.outbox;
    relay.Hello(stranger, true, NullKey);
    assert room[..] == [Some(stranger), None];
    assert relay.outbox == before;
    relay.Pass(stranger, Some(Msg(payload)));
    assert relay.outbox == before;
  }

  /** The relay leg: in a paired room, the sender's `pass` frame reaches the
      receiver's connection as its bare payload. The envelope's own `roomID`
      plays no part: the relay routes by the connection's room. */
  method RelayLeg(frame: Envelope, m: Message)
    returns (relay: Relay.Server, receiver: Relay.ConnId, target: Relay.ConnId, delivered: Payload)
    requires frame.message == "pass" && frame.payload == Some(Msg(m))
    ensures receiver in relay.conns && relay.conns[receiver].role == Some(Relay.ReceiverRole)
    ensures |relay.outbox| > 0 && relay.outbox[|relay.outbox| - 1] == (target, delivered)
    ensures target == receiver && delivered == Msg(m)
  {
    var sender;
    relay, sender, receiver := PairedRoom();
    var threw := relay.OnMessage(sender, Relay.Text(Relay.Parsed(frame)));
    target, delivered := relay.outbox[|relay.outbox| - 1].0, relay.outbox[|relay.outbox| - 1].1;
  }

  /** A local SDP goes the whole way: the sender's session frames it as a
      `pass`, the relay's `message` handler forwards its payload to the
      receiver's slot, and the receiver's session calls exactly the handler it
      registered under `sdp`, once, with the SDP message. */
  method SdpReachesPeer(kind: string, sdp: string, h: Signalling.Handler) returns (calls: seq<Signalling.Call>)
    ensures calls == [Signalling.Call(h, Some(Sdp(kind, sdp)))]
  {
    var senderSession := new Signalling.Session(Named("office"), Relay.SenderRole);
    senderSession.Init();
    var ok := senderSession.SendLocalSdp(kind, sdp);
    var _, _, _, delivered := RelayLeg(senderSession.sent[|senderSession.sent| - 1].1, Sdp(kind, sdp));
    var receiverSession := new Signalling.Session(Named("office"), Relay.ReceiverRole);
    receiverSession.On("sdp", h);
    var threw := receiverSession.OnSocketMessage(delivered);
    calls := receiverSession.calls;
  }
}
