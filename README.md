# WebRTC camera hooks: a Dafny model

This project models the logic of a small SolidJS video-call app: the
validator of signaling messages, and six small state holders. Those are the
signaling client, the peer-connection hook, the call-session stub, the
QR-scanner camera hook, the local-stream hook, and the status machine of the
video component. The browser objects the hooks hold are replaced by stand-ins
(`browser.dfy`). The stand-ins record what the hooks ask of them and nothing
more:

- a WebSocket with a log of the text frames it transmitted, and flags for the open event and for `close`;
- an RTCPeerConnection with a log of calls and a `closed` flag;
- a MediaStream as its sequence of tracks, each track with a `stopped` flag;
- a video element with `srcObject`, `muted`, `playsInline` and `paused`;
- a settled `getUserMedia` as `Granted(stream)` or `Denied(DomException(name, message) | OtherError)`.

Modules, one per source file:

- `SignalingMessages` (`signaling_message.dfy`): the arktype schema is stated
  twice. `Accepts` is the accept/reject predicate, written key by key. `Decode`
  is an independent decoder into typed messages. `Encode` builds the envelope.
  The lemmas prove that `Decode` and `Accepts` agree, that `Encode` round-trips
  through `Decode`, and each accept/reject rule of the schema.
- `Signaling` (`signaling.dfy`): `useSignalingClient` as a class. The handlers
  the caller registers are observed through a log of their invocations.
- `PeerConnection` (`peer_connection.dfy`): `usePeerConnection` as a class. What
  it passes to the injected `sendMessage` is an outbox.
- `CallSession`, `Scanner`, `LocalStream`, `VideoComponent`: the remaining hooks
  and the video component's status machine.

Conventions:

- A hook call together with its `onMount` is the class constructor.
- Each `onCleanup` is an explicit method.
- Each async function is one atomic step. The settled outcome of every awaited
  call is a parameter: None or false when the promise rejects.
- What travels over a socket is text. `JSON.stringify` is a function parameter
  `stringify: Json -> string`, so the text itself is not modelled. Likewise
  `JSON.parse` is a parameter `jsonParse: string -> Option<Json>`, None when it
  throws.
- A WebSocket's `send` throws `InvalidStateError` while the socket is still
  connecting. Once `close` was called it discards the data. Both outcomes are modelled.

The code makes these choices, and the model follows them:

- remote candidates are applied at once, never buffered;
- offers and answers are created without negotiation-state guards;
- the remote stream is replaced on each track, not aggregated;
- the call session is not wired to the other hooks, and no transition reaches `connected`;
- signaling cleanup releases no handlers;
- the signaling handler validates `event.data` without parsing it (see Findings).

## Model

| member | source | states |
|---|---|---|
| `SignalingMessages.IsIceCandidate` | src/features/camera/model/signalingMessage.ts:3-18 | A value passes the candidate schema only if it is an object carrying all 14 declared keys. |
| `SignalingMessages.IsSessionDescriptionInit` | src/features/camera/model/signalingMessage.ts:20-23 | A value that passes the description schema is one the independent decoder reads. |
| `SignalingMessages.Accepts` | src/features/camera/model/signalingMessage.ts:26-45 | An accepted value is an object with a `payload` key and a `type` of exactly "candidate", "offer" or "answer". |
| `SignalingMessages.Decode` | src/features/camera/model/signalingMessage.ts:26-45 | A decoded message has the variant its `type` string names, and comes from an object with a `payload` key. |
| `SignalingMessages.Encode` | src/features/camera/hooks/useSignaling.ts:29-32 | The `{ type, payload }` envelope built for a typed message decodes back to that message. |
| `SignalingMessages.DecodeAgreesWithSchema` | src/features/camera/model/signalingMessage.ts:3-45 | The typed decoder succeeds on exactly the values the three-way union accepts, in both directions. |
| `SignalingMessages.DecodeIceCandidateAgrees` | src/features/camera/model/signalingMessage.ts:3-18 | A candidate payload decodes exactly when it has a string `candidate` and all 13 other keys, each null or of its declared kind. |
| `SignalingMessages.DecodeSessionDescriptionAgrees` | src/features/camera/model/signalingMessage.ts:20-23 | A description decodes exactly when `type` is one of the four SDP literals and `sdp` is absent or a string. |
| `SignalingMessages.DecodedVariantIsTagged` | src/features/camera/model/signalingMessage.ts:26-45 | An accepted value matches exactly one variant, the one its `type` string names. |
| `SignalingMessages.CandidateRoundTrip` | src/features/camera/model/signalingMessage.ts:3-18 | Every typed candidate, written as its 14-key object, decodes back to itself. |
| `SignalingMessages.DescriptionRoundTrip` | src/features/camera/model/signalingMessage.ts:20-23 | Every typed description decodes back to itself; an absent `sdp` stays absent. |
| `SignalingMessages.DecodeEnvelope` | src/features/camera/model/signalingMessage.ts:26-45 | An envelope decodes by its tag alone: "candidate" uses the candidate schema, "offer" and "answer" the description schema, and any other tag fails. |
| `SignalingMessages.DecodedCandidateHolds` | src/features/camera/model/signalingMessage.ts:3-18 | A decoded candidate is what the payload holds: each of the 14 keys carries the decoded field, with null for an absent value. |
| `SignalingMessages.DecodedPayloadHolds` | src/features/camera/model/signalingMessage.ts:26-45 | A decoded message is read off the data's own `payload`: the candidate key by key, or the description's `type` and its `sdp` exactly when present. Undeclared keys are allowed besides. |
| `SignalingMessages.EncodeAccepted` | src/features/camera/model/signalingMessage.ts:26-45 | Every typed message encodes to a value the schema accepts, so the validation inside the sends always passes. |
| `SignalingMessages.UnknownTagRejected` | src/features/camera/model/signalingMessage.ts:26-45 | An object whose `type` is missing or not exactly "candidate", "offer" or "answer" is rejected. |
| `SignalingMessages.OfferAndAnswerShareSchema` | src/features/camera/model/signalingMessage.ts:31-39 | The same payload is accepted under "offer" exactly when it is accepted under "answer", and decodes to the same description. |
| `SignalingMessages.DescriptionRules` | src/features/camera/model/signalingMessage.ts:20-23 | A present non-string `sdp` is rejected; a `type` outside the four literals is rejected; an absent `sdp` is allowed and read as none. |
| `SignalingMessages.MissingCandidateKeyRejected` | src/features/camera/model/signalingMessage.ts:3-18 | Removing any one of the 14 declared candidate keys makes the payload invalid. |
| `SignalingMessages.StringInNumericKeyRejected` | src/features/camera/model/signalingMessage.ts:8-13 | A string in `port`, `priority`, `relatedPort` or `sdpMLineIndex` is rejected. |
| `SignalingMessages.EnumeratedKeysRejectOtherLiterals` | src/features/camera/model/signalingMessage.ts:6-16 | `component`, `protocol`, `tcpType` and `type` reject every string outside their listed literals. |
| `SignalingMessages.NullCandidateStringRejected` | src/features/camera/model/signalingMessage.ts:4 | The `candidate` key must be a string; null is rejected there. |
| `SignalingMessages.ExtraEnvelopeKeysIgnored` | src/features/camera/model/signalingMessage.ts:26-45 | Adding an undeclared key to an envelope changes neither acceptance nor the decoded message. |
| `SignalingMessages.StringValueRejected` | src/features/camera/model/signalingMessage.ts:43-45 | A bare string value is never a signaling message. |
| `SignalingMessages.ParseSignalingMessage` | src/features/camera/model/signalingMessage.ts:49-51 | A non-string input is refused before parsing. A string whose `JSON.parse` throws propagates the exception. Otherwise the input is accepted exactly when the union accepts the parsed value. |
| `SignalingMessages.ParseAppliesSchema` | src/features/camera/model/signalingMessage.ts:49-51 | The message parsed from a string is exactly the one the decoder reads from the `JSON.parse` result. |
| `Signaling.SignalingClient.constructor` | src/features/camera/hooks/useSignaling.ts:56-58 | Mounting opens one fresh, still-connecting socket to the URL and holds it, with no error and no handler called yet. |
| `Signaling.SignalingClient.SendMessage` | src/features/camera/hooks/useSignaling.ts:18-24 | Without a socket nothing happens. With a socket the text is transmitted while it is open, the call throws while it is connecting, and the text is discarded once it is closed. |
| `Signaling.SignalingClient.SendEnvelope` | src/features/camera/hooks/useSignaling.ts:25-53 | The envelope passes the schema. With no socket nothing is sent; otherwise its `JSON.stringify` text goes to `sendMessage`, with that function's outcomes. |
| `Signaling.SignalingClient.SendOffer` | src/features/camera/hooks/useSignaling.ts:25-34 | Sends the text of the envelope tagged "offer" only while a socket is held, and throws exactly while that socket is connecting. |
| `Signaling.SignalingClient.SendAnswer` | src/features/camera/hooks/useSignaling.ts:36-44 | Sends the text of the envelope tagged "answer" only while a socket is held, and throws exactly while that socket is connecting. |
| `Signaling.SignalingClient.SendIceCandidate` | src/features/camera/hooks/useSignaling.ts:45-53 | Sends the text of the envelope tagged "candidate" only while a socket is held, and throws exactly while that socket is connecting. |
| `Signaling.SignalingClient.OnMessage` | src/features/camera/hooks/useSignaling.ts:64-85 | The handler log grows by exactly the dispatch of `event.data`, and not at all for a text frame. Socket and error are unchanged. |
| `Signaling.SignalingClient.OnError` | src/features/camera/hooks/useSignaling.ts:87-90 | Sets the error to "WebSocket error occurred." and keeps the socket. |
| `Signaling.SignalingClient.OnClose` | src/features/camera/hooks/useSignaling.ts:92-96 | Drops the socket and sets the error to "WebSocket connection closed.". |
| `Signaling.SignalingClient.Cleanup` | src/features/camera/hooks/useSignaling.ts:99-106 | With a socket: closes it and clears socket and error. Without one: changes nothing. |
| `Signaling.CleanupTwice` | src/features/camera/hooks/useSignaling.ts:99-106 | A second cleanup changes neither the error nor the socket. |
| `Signaling.HandlerFor` | src/features/camera/hooks/useSignaling.ts:71-84 | Each variant goes to its own handler, and that handler receives the message's payload. |
| `Signaling.Dispatch` | src/features/camera/hooks/useSignaling.ts:64-70 | Incoming data reaches at most one handler, and reaches one exactly when the schema accepts it; rejected data is dropped. |
| `Signaling.DispatchFollowsTag` | src/features/camera/hooks/useSignaling.ts:71-84 | Accepted data goes to `onOffer`, `onAnswer` or `onIceCandidate` exactly when its tag is "offer", "answer" or "candidate". |
| `Signaling.HandlerGetsPayload` | src/features/camera/hooks/useSignaling.ts:71-84 | The handler receives the data's own payload, field by field, for any accepted data and not only for encoded messages. |
| `Signaling.TextFrameDropped` | src/features/camera/hooks/useSignaling.ts:66 | Data handed over as a raw string never reaches a handler, because it is validated without `JSON.parse`. |
| `Signaling.SentEnvelopeDropped` | src/features/camera/hooks/useSignaling.ts:66 | As written, the text of every envelope a client sends reaches no handler of the receiving client. |
| `Signaling.DispatchText` | src/features/camera/model/signalingMessage.ts:49-51 | The intended dispatch parses the text first. It reaches at most one handler, and one exactly when the text parses to an accepted value; that handler is the one `Dispatch` picks for the value. |
| `Signaling.DeliveredTextIsDispatched` | src/features/camera/hooks/useSignaling.ts:25-53 | With the parsing dispatch, and a `JSON.parse` that reads back the text of this envelope, every sent message reaches the matching handler of the peer unchanged. |
| `PeerConnection.PeerConnectionHook.constructor` | src/features/camera/hooks/usePeerConnection.ts:9-55 | Mounting creates one fresh, open native connection with no calls made, and holds it; no remote stream and nothing sent. |
| `PeerConnection.PeerConnectionHook.OnIceCandidate` | src/features/camera/hooks/usePeerConnection.ts:18-23 | A gathered candidate is forwarded once, as the text of its envelope tagged "iceCandidate"; a null candidate sends nothing. |
| `PeerConnection.PeerConnectionHook.OnTrack` | src/features/camera/hooks/usePeerConnection.ts:25-34 | The remote stream is replaced by the event's first stream, or by a fresh stream holding only the track. |
| `PeerConnection.PeerConnectionHook.OnIceConnectionStateChange` | src/features/camera/hooks/usePeerConnection.ts:36-42 | Disconnected, failed or closed closes the native connection; both hook fields stay as they were. |
| `PeerConnection.PeerConnectionHook.OnNegotiationNeeded` | src/features/camera/hooks/usePeerConnection.ts:44-52 | Creates an offer and, if that resolved, sets it locally; nothing is sent. |
| `PeerConnection.PeerConnectionHook.ClosePeerConnection` | src/features/camera/hooks/usePeerConnection.ts:57-65 | With a connection: closes it and clears connection and remote stream. Without one: changes nothing, so a second call is harmless. |
| `PeerConnection.PeerConnectionHook.AddLocalTrack` | src/features/camera/hooks/usePeerConnection.ts:68-75 | Nothing without a connection or a stream. On an open connection: exactly the `addTrack` calls for the stream's tracks, in order. On a closed one: only the first `addTrack`, which throws and ends the loop. |
| `PeerConnection.PeerConnectionHook.CreateAndSend` | src/features/camera/hooks/usePeerConnection.ts:77-103 | Calls create, then `setLocalDescription` only if create resolved; sends the tagged description only if both resolved. |
| `PeerConnection.PeerConnectionHook.CreateAndSendOffer` | src/features/camera/hooks/usePeerConnection.ts:77-89 | An "offer" message is sent only after `createOffer` and `setLocalDescription` both resolved; nothing without a connection. The connection's closed flag is kept. |
| `PeerConnection.PeerConnectionHook.CreateAndSendAnswer` | src/features/camera/hooks/usePeerConnection.ts:91-103 | An "answer" message is sent only after `createAnswer` and `setLocalDescription` both resolved; nothing without a connection. The connection's closed flag is kept. |
| `PeerConnection.PeerConnectionHook.SetRemoteDescription` | src/features/camera/hooks/usePeerConnection.ts:105-118 | Applies the description; creates and sends an answer only when applying resolved and the type is offer. The connection's closed flag is kept. |
| `PeerConnection.PeerConnectionHook.AddCandidate` | src/features/camera/hooks/usePeerConnection.ts:120-130 | Applies the candidate at once, without buffering; nothing without a connection or a candidate. |
| `PeerConnection.IsIceFailure` | src/features/camera/hooks/usePeerConnection.ts:38 | A new, checking, connected or completed connection is never closed by the ICE handler. |
| `PeerConnection.NegotiationCalls` | src/features/camera/hooks/usePeerConnection.ts:82-83 | At most two calls, and `create…()` is always the first. `setLocalDescription` follows with exactly the created description, and only when creation resolved. |
| `PeerConnection.AddTrackCalls` | src/features/camera/hooks/usePeerConnection.ts:72-74 | One `addTrack` call per track, each with the local stream, and no other kind of call. |
| `PeerConnection.AddTrackCallsInOrder` | src/features/camera/hooks/usePeerConnection.ts:72-74 | The `addTrack` calls add each track exactly once, at its own position in `getTracks` order. |
| `PeerConnection.SentOfferIsDropped` | src/features/camera/hooks/usePeerConnection.ts:85 | As written, the offer text the hook sends reaches no handler of the peer's signaling client. |
| `PeerConnection.SentOfferReachesOnOffer` | src/features/camera/hooks/usePeerConnection.ts:85 | With the intended parsing dispatch, and a `JSON.parse` that reads back the text of this envelope, the offer the hook sends reaches the peer's `onOffer` unchanged. |
| `PeerConnection.SentAnswerReachesOnAnswer` | src/features/camera/hooks/usePeerConnection.ts:99 | With the intended parsing dispatch, and a `JSON.parse` that reads back the text of this envelope, the answer the hook sends reaches the peer's `onAnswer` unchanged. |
| `PeerConnection.ForwardedCandidateIsDropped` | src/features/camera/hooks/usePeerConnection.ts:21 | A forwarded local candidate is tagged "iceCandidate", which the signaling schema rejects. Even the parsing dispatch, with a `JSON.parse` that reads back the text of this envelope, calls no handler for it. |
| `CallSession.CallSessionHook.constructor` | src/features/camera/hooks/useCallSession.ts:16-17 | The session starts in "idle". |
| `CallSession.CallSessionHook.StartCall` | src/features/camera/hooks/useCallSession.ts:21-24 | Sets "calling" from any state; never "connected". |
| `CallSession.CallSessionHook.AcceptCall` | src/features/camera/hooks/useCallSession.ts:26-29 | Sets "receiving", not "connected", from any state. |
| `CallSession.CallSessionHook.RejectCall` | src/features/camera/hooks/useCallSession.ts:30-33 | Sets "idle" from any state. |
| `CallSession.CallSessionHook.HungUpCall` | src/features/camera/hooks/useCallSession.ts:35-38 | Sets "disconnected" from any state. |
| `Scanner.CameraScanner.constructor` | src/features/cameraScan/hooks/useScanner.ts:14-17 | Initially no stream, no error, no element, so the camera is inactive. |
| `Scanner.CameraScanner.IsCameraActive` | src/features/cameraScan/hooks/useScanner.ts:25 | The camera is active exactly while a stream is held. |
| `Scanner.CameraScanner.SetVideoRef` | src/features/cameraScan/hooks/useScanner.ts:20-22 | Stores the element. |
| `Scanner.CameraScanner.StartCamera` | src/features/cameraScan/hooks/useScanner.ts:28-68 | Clears the error. Without an element it sets the missing-element error. While active it requests nothing and keeps the stream. Otherwise one request: success stores the stream, failure leaves no stream and the cause's message. |
| `Scanner.CameraScanner.StopCamera` | src/features/cameraScan/hooks/useScanner.ts:71-79 | Stops every track of a held stream, then no stream and no error; without a stream it only clears the error. |
| `Scanner.CameraScanner.SyncVideo` | src/features/cameraScan/hooks/useScanner.ts:82-107 | A held stream is attached muted and inline and played. A failed play ends with no stream, no error, stopped tracks and a detached, paused element. No stream detaches and pauses. No element changes nothing. Only a failed play stops tracks. |
| `Scanner.AccessErrorMessage` | src/features/cameraScan/hooks/useScanner.ts:53-65 | No access failure is reported with the missing-element or the playback message. |
| `Scanner.MessageIdentifiesCause` | src/features/cameraScan/hooks/useScanner.ts:53-65 | Two access failures show the same message exactly when they have the same cause. The three named DOMExceptions, any other DOMException with its message, and a non-DOMException are told apart. |
| `Scanner.FixedMessagesDiffer` | src/features/cameraScan/hooks/useScanner.ts:53-65 | Each fixed message belongs to exactly one cause, and only other DOMExceptions get the prefixed message. |
| `Scanner.TestScenarios` | src/features/cameraScan/hooks/__tests__/useScanner.test.ts:26-105 | The test file's four scenarios hold of the model. A new scanner is inactive with no error. A start without an element reports the missing element. A granted stream is attached muted and inline, and stopping stops its track and detaches it. A NotAllowedError leaves the camera inactive with the permission message. |
| `Browser.StopTracks` | src/features/cameraScan/hooks/useScanner.ts:74 | `getTracks().forEach(track => track.stop())` leaves every track of the stream stopped and no other track touched. |
| `LocalStream.LocalStreamHook.constructor` | src/features/camera/hooks/useLocalStream.ts:4 | Initially no stream, so the stream is inactive. |
| `LocalStream.LocalStreamHook.IsStreamActive` | src/features/camera/hooks/useLocalStream.ts:23 | The stream is active exactly while one is held. |
| `LocalStream.LocalStreamHook.StartStream` | src/features/camera/hooks/useLocalStream.ts:6-16 | Success replaces the held stream without stopping its tracks; failure changes nothing. |
| `LocalStream.LocalStreamHook.StopStream` | src/features/camera/hooks/useLocalStream.ts:17-22 | Stops every track of a held stream and forgets it; without a stream it does nothing. |
| `LocalStream.StopStreamTwice` | src/features/camera/hooks/useLocalStream.ts:17-22 | Stopping twice ends like stopping once. |
| `VideoComponent.Video.constructor` | src/features/video/ui/video.tsx:12-21 | Status starts Idle with no socket held. |
| `VideoComponent.Video.OnOpen` | src/features/video/ui/video.tsx:23-27 | Records the completed handshake on the socket, stores the socket and sets Connected. |
| `VideoComponent.Video.OnMessage` | src/features/video/ui/video.tsx:29-47 | The new status is a function of the parsed message alone. A handler that throws leaves the status unchanged. |
| `VideoComponent.Video.OnClose` | src/features/video/ui/video.tsx:49-53 | Clears the socket and sets Disconnected. |
| `VideoComponent.Video.Cleanup` | src/features/video/ui/video.tsx:54-59 | Closes the socket and leaves status and socket field to the close event. |
| `VideoComponent.StatusForTag` | src/features/video/ui/video.tsx:32-45 | No message type returns the component to Idle. |
| `VideoComponent.StatusForMessage` | src/features/video/ui/video.tsx:29-47 | Only a null message, where reading `type` throws, leaves the status untouched. Every other value sets a status, and never Idle. |
| `VideoComponent.OtherTagsSetError` | src/features/video/ui/video.tsx:42-45 | Any `type` other than "offer", "answer" and "iceCandidate" sets Error. |
| `VideoComponent.ValidatedMessageStatus` | src/features/video/ui/video.tsx:32-45 | For schema-valid messages: an offer sets Disconnected, an answer Connected, and a "candidate" sets Error. |
| `VideoComponent.ForwardedCandidateConnects` | src/features/video/ui/video.tsx:39-41 | The "iceCandidate" message the peer-connection hook forwards sets Connected. |

## Findings

| source | as written | input that shows it | evidently intended | confidence | as-written member | corrected member |
|---|---|---|---|---|---|---|
| src/features/camera/hooks/useSignaling.ts:66 | `onmessage` validates `event.data`, the text of the frame, without parsing it | any `sendOffer(o)` on the peer: the frame is the string `JSON.stringify({type: "offer", payload: o})`, which the union rejects | parse the text before validating it, as `parseSignalingMessage` (signalingMessage.ts:49-51) does | high; not executed | `Signaling.SentEnvelopeDropped` | `Signaling.DeliveredTextIsDispatched` |

## Left out

- Browser behaviour is not modelled: WebSocket networking, RTCPeerConnection negotiation and ICE, getUserMedia, MediaStream, and video playback. The stand-ins record calls. Awaited outcomes are parameters. The synchronous throws modelled are `send` on a connecting socket and `addTrack` on a closed connection.
- JSON text is not modelled. `JSON.stringify` and `JSON.parse` are function parameters.
- Binary frames, whose `event.data` is a Blob or an ArrayBuffer, are not modelled. Incoming data is a JSON value, and a text frame is its string.
- The browser's `RTCIceCandidate.toJSON`, which keeps only four keys, is not modelled. A candidate is encoded with all 14 keys. In the browser the forwarded candidate object would therefore also fail the 14-key schema, whatever its tag.
- The error objects arktype returns are not modelled. Rejection is None, or a `ParseOutcome` tag.
- Logging: every `console.*` call.
- Solid reactivity: signals are fields, and `onMount` is part of the constructor. The scanner's effect is the explicit `SyncVideo`, to be called after each change. The short window before `onMount` runs is not modelled.
- Async interleaving: each async function is one atomic step.
- PeerConnection.PeerConnectionHook.SetRemoteDescription: the un-awaited `createAndSendAnswer()` runs inside the same step. In the source it is fire-and-forget: it reads `peerConnection()` again, and its `setLocalDescription` and send can interleave with other events.
- PeerConnection.PeerConnectionHook.AddLocalTrack: the `InvalidAccessError` of adding a track that already has a sender, as a second call with the same stream would, is not modelled. Only the closed-connection throw is.
- Signaling.SignalingClient.SendEnvelope: a typed message always passes the schema. So the path where `SignalingMessage(...)` returns an `ArkErrors` object, and that object is stringified and sent, is unreachable in the model.
- The STUN server list and the hard-coded socket URL. The URL is a constructor parameter.
- The `useSignalingClient` call inside `useCallSession` is left out. It passes a function where a handler object is expected, and the hook returns nothing.
- `startLocalStream` and the JSX of the video component; the UI-only files; the `useConnection` stub; the `Counter` test.
- Signaling.SignalingClient.OnMessage: the handler log holds the decoded typed payload. The source passes the validated object itself, which may still carry undeclared keys. `Signaling.HandlerGetsPayload` ties the two together.
- Scanner.CameraScanner.SyncVideo: a play attempt is one atomic step. Its promise settling later, after other changes, is not modelled.
- JSON numbers are reals. NaN and infinities cannot be written in JSON text, though `JSON.parse` reads an overflowing literal such as `1e999` as `Infinity`. No arithmetic is done on numbers.
