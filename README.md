# office-view signalling core, modelled in Dafny

office-view streams a screen or camera from a *sender* page to a *receiver*
page over WebRTC. The two pages find each other through a small relay: each
opens a WebSocket, says hello with its role and a room ID, and from then on
the relay forwards opaque `pass` payloads (SDP, ICE candidates, stream
parameters) between the two slots of the room. This project models:

- **Relay** (`relay.dfy`, from `src/signalling_server/server.js`): the origin
  check, the role-to-slot mapping, and the `request`, `message` and `close`
  handlers. The class `Relay.Server` holds the room table
  (`map<Key, array<Option<ConnId>>>`, where each room is a shared two-slot
  array as in the JavaScript), each connection's closure variables, and an
  outbox that stands for `sendUTF`.
- **Session** (`signalling.dfy`, from `src/common/signalling.js`): the
  class `Signalling.Session` with its single-slot handler map, hello on
  open, `pass` packing, the send helpers, dispatch and close. Its socket is
  an identity plus logs of the frames sent and the `close()` calls. Handler
  invocations are logged too.
- **Rate estimator** (`stats.dfy`, from `src/common/utils.js`): `Stats.Step`
  is one `add` on the three fields; the class `Stats.Estimator` updates them
  step by step and is proved to follow `Step`.
- **Sender logic** (`sender.dfy`, from `src/sender/sender.js`): the
  supported-codec filter, the priority matcher over the fixed preference
  table, the stable sort by priority, and the `params` handler.
- **Wire** (`wire.dfy`): messages as datatypes instead of JSON text.
  **Protocol** (`protocol.dfy`) connects the session to the relay and
  replays short runs of the relay.

Every handler runs to completion before the next event, as in Node, so
each event is one method call.

## Where the code does not do what it appears meant to do

The model follows the code. In three places the code does not do what its
own structure suggests it is meant to do:

- `close` sets `roomID` to `null` before using it as the map key
  (server.js:105-111), although the empty-room test at server.js:108 is
  evidently there to remove an emptied room. The slot is cleared in the
  shared room array, but the entry under the real room ID is never removed,
  even when both slots are empty. Instead the entry under the `null` key is
  deleted, or made to point to the same room. `Protocol.EmptiedRoomStays`
  shows an emptied room staying in the table. The other effect: a later
  hello whose `roomID` is `null` lands in that room. The sender page sends
  `null` when its URL has no `roomId` parameter (sender.js:33). What happens
  depends on the role:
  - a `sender-hello` fills the free slot 1, receives `ready`, and then
    receives the remaining receiver's payloads
    (`Protocol.NullKeyJoinsClosedRoom`);
  - a `receiver-hello` overwrites the remaining receiver's slot 0
    (server.js:79). It gets no `ready`, because slot 1 is empty
    (server.js:81), and its `pass` frames are dropped
    (`Protocol.NullReceiverTakesSlot`).
- A second hello moves the connection to the new room without clearing its
  slot in the old one (server.js:72-80; `Relay.Server.Hello` states that
  every other room array is unchanged).
- `close` clears `room[pipeEnd]` even when another connection has since
  taken that slot (server.js:107).

A consequence of the first point: a `pass` whose room entry is missing
would throw at server.js:95, but only the `null` key is ever deleted, so
`Relay.Server.Valid` shows this cannot happen. For the same reason the
`if (!room) return;` at server.js:106 is dead code, and the model has no
branch for it.

## Model

| member | source | states |
|---|---|---|
| Relay.OriginIsAllowed | src/signalling_server/server.js:14-19 | true exactly when one of the two allowed prefixes starts the origin |
| Relay.OriginExamples | src/signalling_server/server.js:14-19 | localhost on any port and the production origin pass; `https://localhost.evil` passes too (a pure prefix test); `https://evil.example` and `http://localhost` are refused |
| Relay.TypeToPipeEnd | src/signalling_server/server.js:21-24 | the slot is 0 exactly for `"receiver"`, 1 for every other role string |
| Relay.AfterHello | src/signalling_server/server.js:65-74 | after a hello the role is receiver if this hello or an earlier one said so, otherwise sender; a set role is never changed by `sender-hello`; the room is always the hello's; the two pipe ends are distinct |
| Relay.Classify | src/signalling_server/server.js:50-64 | binary and unparseable frames and unknown `message` values are ignored; the body `null` throws; the two hellos and `pass` are told apart by `message` |
| Relay.PassFrames | src/signalling_server/server.js:90-96 | at most one frame; exactly one iff the connection has a room and a payload and the counterpart slot is filled; then it is the bare payload to that slot |
| Relay.Server.constructor | src/signalling_server/server.js:12 | the table starts empty, with no connections and nothing sent |
| Relay.Server.Request | src/signalling_server/server.js:35-48 | a rejected origin gets no connection and changes nothing; an accepted one gets a new connection with all closure variables `null` |
| Relay.Server.Roles | src/signalling_server/server.js:65-71 | the step-by-step role assignment gives the roles of `AfterHello` |
| Relay.Server.NewRoom | src/signalling_server/server.js:77 | a fresh room with both slots empty |
| Relay.Server.Store | src/signalling_server/server.js:75-80 | the room under the ID (existing or fresh) gets this connection in its slot; the other slot and every other room array are unchanged |
| Relay.Server.NotifySender | src/signalling_server/server.js:81-87 | `ready` is sent once, to slot 1, iff the counterpart slot is filled |
| Relay.Server.Hello | src/signalling_server/server.js:65-89 | new closure variables as `AfterHello`; the table entry for the hello's room has this connection in its slot and the other slot unchanged; all other room arrays unchanged, including an earlier room of this connection; `ready` to slot 1 iff the counterpart slot is filled, nothing else sent |
| Relay.Server.Pass | src/signalling_server/server.js:90-97 | table and closure variables unchanged; the outbox grows by `PassFrames` |
| Relay.Server.OnMessage | src/signalling_server/server.js:50-99 | ignored frames change nothing and send nothing; `null` throws without any change; a hello has the whole effect of `Hello` (closure variables, slot write in the shared array, other arrays unchanged, `ready` iff the counterpart slot is filled); a pass has the whole effect of `Pass` (table unchanged, outbox grows by `PassFrames`) |
| Relay.Server.Close | src/signalling_server/server.js:101-113 | an unjoined connection changes nothing; otherwise `roomID` becomes `null`, the connection's slot is emptied whoever holds it, the entry under the real ID stays, and the `null` key is deleted (both slots empty) or points to the room |
| Signalling.PackMessage | src/common/signalling.js:48-54 | a `pass` envelope with the session's `roomID` and the message, unchanged, as payload |
| Signalling.HelloFor | src/common/signalling.js:40-45 | `receiver-hello` iff the role is `"receiver"`, else `sender-hello`, with the session's `roomID` and no payload |
| Signalling.Session.constructor | src/common/signalling.js:4-9 | no socket, no handlers |
| Signalling.Session.On | src/common/signalling.js:11-13 | the handler for the name is replaced, every other key unchanged |
| Signalling.Session.Close | src/common/signalling.js:15-20 | with a socket: it is closed and cleared; without: nothing happens, so a second close is a no-op |
| Signalling.Session.Init | src/common/signalling.js:22-36 | a new socket becomes current |
| Signalling.Session.Opened | src/common/signalling.js:38-45 | exactly one frame, the hello for the session's role, on the current socket; none (a throw) when there is no socket |
| Signalling.Session.Send | src/common/signalling.js:56-58 | exactly one `pass` envelope carrying the message unchanged; none when there is no socket |
| Signalling.Session.SendLocalSdp | src/common/signalling.js:60-66 | one `pass` frame whose payload is an `sdp` message with the given type and SDP |
| Signalling.Session.SendIce | src/common/signalling.js:68-73 | one `pass` frame whose payload is an `ice` message with the candidate |
| Signalling.Session.SendParams | src/common/signalling.js:75-81 | one `pass` frame whose payload is a `params` message with both fields as given |
| Signalling.Session.OnSocketMessage | src/common/signalling.js:83-87 | the handler under the message's name is called once with it; no handler, no call; the body `null` throws |
| Signalling.Session.OnClosed | src/common/signalling.js:89-92 | each call invokes the `closed` handler once if present, so error and close can fire it twice |
| Protocol.HelloReachesOwnSlot | src/common/signalling.js:40-45 | a session's hello takes the relay's hello branch for its room and lands in the slot its role maps to |
| Protocol.PassDeliversMessage | src/common/signalling.js:48-54 | a packed message reaches the relay as `pass` with the message as payload, and is forwarded unchanged to a filled counterpart slot |
| Protocol.RelayLeg | src/signalling_server/server.js:90-96 | in a paired room, the relay's `message` handler turns any `pass` envelope of the sender, whatever its `roomID`, into the bare message as the last frame sent, and sends it to the connection in the receiver role |
| Protocol.SdpReachesPeer | src/common/signalling.js:60-66 | a local SDP sent by the sender's session, forwarded by the relay, makes the receiver's session call its `sdp` handler exactly once, with that SDP, and nothing else |
| Stats.RateBetween | src/common/utils.js:45-47 | the estimate times the interval is 1000 times the value gained; non-finite iff the interval is zero; never negative for monotone samples |
| Stats.Step | src/common/utils.js:25-58 | first sample only opens the window; an earlier or smaller sample resets everything; otherwise the rate against the window start, `_end` is the sample and `_start` stays defined; the consistency of the fields is preserved |
| Stats.Estimator.constructor | src/common/utils.js:12-17 | all three fields undefined |
| Stats.Estimator.Reset | src/common/utils.js:19-23 | all three fields undefined |
| Stats.Estimator.Add | src/common/utils.js:25-58 | the fields and the result are those of `Step` |
| Stats.SteadyStream | src/common/utils.js:45-47 | `(0,0)`, `(1000,10)`, `(2000,20)` give undefined, 10, 10 |
| Stats.WindowRollsForward | src/common/utils.js:49-56 | with `maxHistory` 1000, samples at 0, 200, 1000, 1001 move the start to the sample at 200, the baseline of the last estimate |
| Stats.ResetOnRestart | src/common/utils.js:32-44 | a decreasing timestamp or value empties all fields and returns undefined; the next sample opens a new window |
| Stats.NextStartKept | src/common/utils.js:49-51 | the pending start is taken only when the interval reaches a fifth of `maxHistory` and none is pending, and is not overwritten before roll-over |
| Stats.RollOver | src/common/utils.js:53-56 | at `maxHistory` the pending sample (this one if none was pending) becomes the start and nothing stays pending |
| Sender.Split | src/sender/sender.js:118 | never empty, and no piece contains the separator |
| Sender.JoinSplit | src/sender/sender.js:118 | joining the pieces gives back the line |
| Sender.SplitJoin | src/sender/sender.js:118 | splitting separator-free pieces joined by the separator gives them back |
| Sender.Supported | src/sender/sender.js:17-27 | a codec is kept iff it is in the input and its type is not `video/red`, `video/ulpfec` or `video/rtx` |
| Sender.SupportedAppend | src/sender/sender.js:17-27 | the filter commutes with concatenation, so the kept codecs stay in input order |
| Sender.SupportedKeepsAllowed | src/sender/sender.js:20-25 | a list with no dropped type comes out unchanged |
| Sender.GetSupportedCodecs | src/sender/sender.js:17-27 | the `forEach` loop computes `Supported` |
| Sender.Matches | src/sender/sender.js:112-122 | a different MIME type never matches; an entry with no required options matches every codec of its type; an entry with required options never matches a codec without `sdpFmtpLine` |
| Sender.PriorityFromSameOptions | src/sender/sender.js:118-121 | the options are compared as a set: two codecs of one type whose `sdpFmtpLine`s list the same options, in any order or repetition, get the same priority |
| Sender.PriorityFrom | src/sender/sender.js:110-124 | the first matching index from `i` on, or the table length |
| Sender.Priority | src/sender/sender.js:109-125 | a value in 0..7 |
| Sender.PriorityIsFirstMatch | src/sender/sender.js:109-125 | the priority is the first matching entry, and 7 exactly when none matches |
| Sender.AllPresent | src/sender/sender.js:117-121 | the `&=` loop is true iff every required option is among the codec's options |
| Sender.GetCodecPriority | src/sender/sender.js:109-125 | the loop with early returns finds the first match (or 7) and equals `Priority` |
| Sender.VP8Priority | src/sender/sender.js:89-91 | every VP8 codec gets 2 |
| Sender.VP9Priority | src/sender/sender.js:82-88 | VP9 gets 0 when `profile-id=2` is among its options, 1 otherwise (also without `sdpFmtpLine`) |
| Sender.H264Priority | src/sender/sender.js:92-106 | every H264 codec gets a value in 3..6 |
| Sender.OtherPriority | src/sender/sender.js:124 | any other type gets 7 |
| Sender.Insert | src/sender/sender.js:127 | inserting adds exactly the element |
| Sender.InsertSorted | src/sender/sender.js:127 | inserting into a priority-sorted list keeps it sorted |
| Sender.SortByPriority | src/sender/sender.js:127 | a permutation of the input in non-decreasing priority |
| Sender.InsertStable | src/sender/sender.js:127 | insertion keeps the order of each priority class |
| Sender.SortStable | src/sender/sender.js:127 | the sort is stable: codecs of equal priority keep their relative order |
| Sender.OrderCodecs | src/sender/sender.js:126-127 | the result is a permutation of the supported codecs, sorted by priority, stable, with exactly the non-dropped codecs |
| Sender.Scaled | src/sender/sender.js:144 | kilobits per second to bits per second (dividing by 1000 gives back the value); 0 exactly for `null` or 0 |
| Sender.UpdateParameters | src/sender/sender.js:135-147 | missing `maxBitrate`: no call; an empty `encodings` array: a `TypeError`; otherwise missing `encodings` becomes `[{}]`, `0` deletes `encodings[0].maxBitrate`, any other value (`null` as 0) sets it to 1000 times the value, and everything else is kept |
| Sender.Requested | src/sender/sender.js:148-160 | a missing `crisp` keeps the stream; otherwise the clone iff `crisp` is `true` |
| Sender.ParamsHandler.constructor | src/sender/sender.js:77-79 | the current stream starts as the camera stream, with no calls made |
| Sender.ParamsHandler.OnParams | src/sender/sender.js:134-161 | `setParameters` is called as `UpdateParameters` says; after a throw nothing else happens; otherwise the current stream becomes the requested one, and `replaceTrack` is called exactly when it changes |

## Left out

- TLS files, the https server, the `websocket` library, the sub-protocol
  name and the port choice (server.js:3-10, 25-33, 116-120), and all
  `console.log` output. `reject`/`accept` are the `Option` result of
  `Relay.Server.Request`.
- JSON text: frames are datatypes. A `roomID` is a string, `null` or
  missing; numbers or objects as room IDs are not modelled. A payload is
  `null` or a message object; other JSON values behave like an object with
  an unknown `message` and are not listed separately.
- What the browser does after an uncaught exception in a page: a send
  without a socket (signalling.js:57), or an empty `encodings` in the sender
  page (sender.js:142-144). The model reports `threw`/`TypeError` and
  changes nothing further.
- Relay.Server.OnMessage: for the body `null`, `data.message` (server.js:64)
  throws outside the `try` of server.js:57-62, and nothing in server.js
  catches the `TypeError`. It escapes the `message` listener, so any client
  from an allowed origin can raise an uncaught exception in the relay process
  with one frame. The model reports `threw` and leaves the state unchanged;
  what happens to the process afterwards is not modelled.
- Connection liveness: the relay accepts events for any accepted
  connection, and the outbox does not distinguish closed targets.
- `singleShotWaitForEvent` and the `await` in `init`: `Init` and `Opened`
  are the two halves around the suspension. The endpoint URL choice by
  `NODE_ENV` is left out.
- WebSocket `readyState`: a send only fails when `this.socket` is
  undefined. Sends on a connecting socket (which throw) and on a closed one
  (which are dropped) are not modelled.
- Handlers are opaque identities: what a handler does, and registering a
  falsy value as a handler, are not modelled.
- WebRTC and media calls (`RTCPeerConnection`, offers/answers,
  `getUserMedia`, `setCodecPreferences`, `setVideoTrackContentHints`,
  `getCapabilities`): `getParameters` and the capability list are inputs,
  and `setParameters`/`replaceTrack` are logged. The peer-connection
  callbacks of `main` (sender.js:35-67) and its `this.pc` uses are not part
  of this model.
- Codec fields other than `mimeType`, `clockRate` and `sdpFmtpLine`;
  non-numeric `maxBitrate` values, `NaN`, and non-boolean `crisp` values
  other than `null`.
- Floating point: timestamps, values, bitrates and the estimate are exact
  reals. A zero interval gives the `NonFinite` estimate instead of
  `Infinity`/`NaN`.
- `office-view.py` and `vue.config.js` (process launch and build
  configuration) are not part of this model.
