/**
 * `usePeerConnection`: one RTCPeerConnection, the remote stream, and the
 * guarded operations that drive negotiation through the injected
 * `sendMessage` capability.
 *
 * The hook call together with its `onMount` is the constructor: it creates
 * the native connection and attaches the event handlers, which are the
 * `On…` methods here and act on that connection (`native`) whatever the
 * `peerConnection` field holds later. Each async operation is one atomic
 * step; the outcome of each awaited call is a parameter (None or false
 * when the promise rejects). `outbox` records the text passed to
 * `sendMessage`; `stringify` stands for `JSON.stringify`.
 */
module PeerConnection {
  import opened Wrappers
  import opened Json
  import opened SignalingMessages
  import opened Browser
  import Signaling

  /** `RTCIceConnectionState`. */
  datatype IceConnectionState = New | Checking | Connected | Completed | Disconnected | Failed | Closed

  /** The ICE states on which the handler closes the connection. */
  predicate IsIceFailure(state: IceConnectionState)
    ensures IsIceFailure(state) ==> state != New && state != Checking && state != Connected && state != Completed
  {
    state == Disconnected || state == Failed || state == Closed
  }

  /** The native calls of `create…()` followed, when it resolved, by `setLocalDescription`. */
  function NegotiationCalls(create: PeerCall, created: Option<SessionDescription>): (calls: seq<PeerCall>)
    ensures 0 < |calls| <= 2 && calls[0] == create
    ensures forall d :: SetLocalDescription(d) in calls[1..] <==> created == Some(d)
  {
    [create] + if created.Some? then [SetLocalDescription(created.value)] else []
  }

  /** The `addTrack` calls of `tracks.forEach(track => pc.addTrack(track, stream))`. */
  function AddTrackCalls(tracks: seq<MediaStreamTrack>, stream: MediaStream): (calls: seq<PeerCall>)
    ensures |calls| == |tracks|
    ensures forall c :: c in calls ==> c.AddTrack? && c.stream == stream
  {
    if |tracks| == 0 then []
    else AddTrackCalls(tracks[..|tracks| - 1], stream) + [AddTrack(tracks[|tracks| - 1], stream)]
  }

  /** The tracks `forEach` reaches: all of them, or only the first when `addTrack` throws on a closed connection. */
  function AttemptedTracks(tracks: seq<MediaStreamTrack>, closed: bool): seq<MediaStreamTrack> {
    if closed && |tracks| > 0 then tracks[..1] else tracks
  }

  class PeerConnectionHook {
    /** The connection `onMount` created; the event handlers close over it. */
    const native: RTCPeerConnection
    var peerConnection: RTCPeerConnection?
    var remoteStream: MediaStream?
    var outbox: seq<string>

    ghost predicate Valid()
      reads this
    {
      peerConnection == null || peerConnection == native
    }

    constructor ()
      ensures Valid()
      ensures fresh(native) && native.calls == [] && !native.closed
      ensures peerConnection == native && remoteStream == null && outbox == []
    {
      native := new RTCPeerConnection();
      peerConnection := native;
      remoteStream := null;
      outbox := [];
    }

    /** `pc.onicecandidate`: forwards a gathered candidate under the tag "iceCandidate"; the end of gathering (null) is ignored. */
    method OnIceCandidate(candidate: Option<IceCandidate>, stringify: Json -> string)
      modifies this`outbox
      ensures outbox == old(outbox) + if candidate.Some? then [stringify(Envelope("iceCandidate", CandidateJson(candidate.value)))] else []
    {
      if candidate.Some? {
        outbox := outbox + [stringify(Envelope("iceCandidate", CandidateJson(candidate.value)))];
      }
    }

    /** `pc.ontrack`: the remote stream becomes the event's first stream, or a new stream holding only the track. */
    method OnTrack(track: MediaStreamTrack, streams: seq<MediaStream>)
      modifies this`remoteStream
      ensures |streams| > 0 ==> remoteStream == streams[0]
      ensures |streams| == 0 ==> remoteStream != null && fresh(remoteStream) && remoteStream.tracks == [track]
      ensures peerConnection == old(peerConnection)
    {
      if |streams| > 0 {
        remoteStream := streams[0];
      } else {
        var newStream := new MediaStream([track]);
        remoteStream := newStream;
      }
    }

    /** `pc.oniceconnectionstatechange`: a failed ICE state closes the native connection but leaves both fields as they are. */
    method OnIceConnectionStateChange(state: IceConnectionState)
      modifies native
      ensures native.calls == old(native.calls) + if IsIceFailure(state) then [Close] else []
      ensures native.closed == (old(native.closed) || IsIceFailure(state))
      ensures peerConnection == old(peerConnection) && remoteStream == old(remoteStream)
    {
      if IsIceFailure(state) {
        native.Call(Close);
      }
    }

    /** `pc.onnegotiationneeded`: creates an offer and sets it locally; nothing is sent. */
    method OnNegotiationNeeded(created: Option<SessionDescription>)
      modifies native
      ensures native.calls == old(native.calls) + NegotiationCalls(CreateOffer, created)
      ensures native.closed == old(native.closed)
      ensures outbox == old(outbox)
    {
      native.Call(CreateOffer);
      if created.Some? {
        native.Call(SetLocalDescription(created.value));
      }
    }

    /** `closePeerConnection`: closes and forgets a held connection and drops the remote stream; otherwise does nothing. */
    method ClosePeerConnection()
      requires Valid()
      modifies this`peerConnection, this`remoteStream, native
      ensures Valid() && peerConnection == null
      ensures old(peerConnection) != null ==>
                remoteStream == null && native.closed && native.calls == old(native.calls) + [Close]
      ensures old(peerConnection) == null ==>
                remoteStream == old(remoteStream) && native.closed == old(native.closed)
                && native.calls == old(native.calls)
    {
      if peerConnection != null {
        peerConnection.Call(Close);
        peerConnection := null;
        remoteStream := null;
      }
    }

    /**
     * `addLocalTrack`: adds every track of the stream once, in `getTracks`
     * order, when both connection and stream exist. On a closed connection
     * the first `addTrack` throws `InvalidStateError`, which ends the
     * `forEach` and leaves `addLocalTrack`: `threw`.
     */
    method AddLocalTrack(localStream: MediaStream?) returns (threw: bool)
      requires Valid()
      modifies native
      ensures threw <==> peerConnection != null && localStream != null && native.closed && |localStream.tracks| > 0
      ensures native.calls == old(native.calls) +
                if peerConnection != null && localStream != null
                then AddTrackCalls(AttemptedTracks(localStream.tracks, native.closed), localStream) else []
      ensures native.closed == old(native.closed)
    {
      threw := false;
      var pc := peerConnection;
      if pc == null || localStream == null {
        return;
      }
      var tracks := localStream.tracks;
      for i := 0 to |tracks|
        invariant native.calls == old(native.calls) + AddTrackCalls(tracks[..i], localStream)
        invariant native.closed == old(native.closed)
        invariant native.closed ==> i == 0
      {
        pc.Call(AddTrack(tracks[i], localStream));
        if pc.closed {
          threw := true;
          return;
        }
        assert tracks[..i + 1][..i] == tracks[..i];
      }
      assert tracks[..|tracks|] == tracks;
    }

    /** The shared body of `createAndSendOffer` and `createAndSendAnswer`. */
    method CreateAndSend(create: PeerCall, tag: string, created: Option<SessionDescription>, setLocalOk: bool,
                         stringify: Json -> string)
      requires Valid()
      requires create == CreateOffer || create == CreateAnswer
      modifies this`outbox, native
      ensures native.calls == old(native.calls) + if peerConnection != null then NegotiationCalls(create, created) else []
      ensures native.closed == old(native.closed)
      ensures outbox == old(outbox) +
                if peerConnection != null && created.Some? && setLocalOk
                then [stringify(Envelope(tag, DescriptionJson(created.value)))] else []
    {
      var pc := peerConnection;
      if pc == null {
        return;
      }
      pc.Call(create);
      if created.None? {
        return;
      }
      pc.Call(SetLocalDescription(created.value));
      if !setLocalOk {
        return;
      }
      outbox := outbox + [stringify(Envelope(tag, DescriptionJson(created.value)))];
    }

    /** `createAndSendOffer`: sends an "offer" message only after `createOffer` and `setLocalDescription` both resolved. */
    method CreateAndSendOffer(created: Option<SessionDescription>, setLocalOk: bool, stringify: Json -> string)
      requires Valid()
      modifies this`outbox, native
      ensures native.calls == old(native.calls) + if peerConnection != null then NegotiationCalls(CreateOffer, created) else []
      ensures native.closed == old(native.closed)
      ensures outbox == old(outbox) +
                if peerConnection != null && created.Some? && setLocalOk
                then [stringify(Envelope("offer", DescriptionJson(created.value)))] else []
    {
      CreateAndSend(CreateOffer, "offer", created, setLocalOk, stringify);
    }

    /** `createAndSendAnswer`: sends an "answer" message only after `createAnswer` and `setLocalDescription` both resolved. */
    method CreateAndSendAnswer(created: Option<SessionDescription>, setLocalOk: bool, stringify: Json -> string)
      requires Valid()
      modifies this`outbox, native
      ensures native.calls == old(native.calls) + if peerConnection != null then NegotiationCalls(CreateAnswer, created) else []
      ensures native.closed == old(native.closed)
      ensures outbox == old(outbox) +
                if peerConnection != null && created.Some? && setLocalOk
                then [stringify(Envelope("answer", DescriptionJson(created.value)))] else []
    {
      CreateAndSend(CreateAnswer, "answer", created, setLocalOk, stringify);
    }

    /**
     * `setRemoteDescription`: applies the description and, only when that
     * resolved and the description is an offer, runs `createAndSendAnswer`.
     * No negotiation-state guard is checked.
     */
    method SetRemoteDescription(description: SessionDescription, applied: bool,
                                answer: Option<SessionDescription>, answerSetOk: bool, stringify: Json -> string)
      requires Valid()
      modifies this`outbox, native
      ensures native.calls == old(native.calls) +
                if peerConnection == null then []
                else [PeerCall.SetRemoteDescription(description)] +
                     if applied && description.sdpType == SdpOffer then NegotiationCalls(CreateAnswer, answer) else []
      ensures native.closed == old(native.closed)
      ensures outbox == old(outbox) +
                if peerConnection != null && applied && description.sdpType == SdpOffer && answer.Some? && answerSetOk
                then [stringify(Envelope("answer", DescriptionJson(answer.value)))] else []
    {
      var pc := peerConnection;
      if pc == null {
        return;
      }
      pc.Call(PeerCall.SetRemoteDescription(description));
      if applied && description.sdpType == SdpOffer {
        CreateAndSendAnswer(answer, answerSetOk, stringify);
      }
    }

    /** `addCandidate`: applies a candidate at once (no buffering); nothing without a connection or a candidate. */
    method AddCandidate(candidate: Option<IceCandidate>)
      requires Valid()
      modifies native
      ensures native.calls == old(native.calls) +
                if peerConnection != null && candidate.Some? then [AddIceCandidate(candidate.value)] else []
      ensures native.closed == old(native.closed)
    {
      var pc := peerConnection;
      if pc == null || candidate.None? {
        return;
      }
      pc.Call(AddIceCandidate(candidate.value));
    }
  }

  // -----------------------------------------------------------------------
  // Lemmas
  // -----------------------------------------------------------------------

  /** `addLocalTrack` adds each track exactly once, at its own position in `getTracks` order. */
  lemma {:induction false} AddTrackCallsInOrder(tracks: seq<MediaStreamTrack>, stream: MediaStream)
    ensures |AddTrackCalls(tracks, stream)| == |tracks|
    ensures forall i :: 0 <= i < |tracks| ==> AddTrackCalls(tracks, stream)[i] == AddTrack(tracks[i], stream)
  {
    if |tracks| > 0 {
      AddTrackCallsInOrder(tracks[..|tracks| - 1], stream);
    }
  }

  /**
   * As written, the offer `createAndSendOffer` sends never reaches the peer's
   * `onOffer`: it travels as text, which the peer's handler validates unparsed.
   */
  lemma SentOfferIsDropped(offer: SessionDescription, stringify: Json -> string)
    ensures Signaling.Dispatch(JString(stringify(Envelope("offer", DescriptionJson(offer))))) == []
  {
    Signaling.SentEnvelopeDropped(OfferMessage(offer), stringify);
  }

  /** With the intended parsing dispatch, the offer `createAndSendOffer` sends reaches the peer's `onOffer` unchanged. */
  lemma {:induction false} SentOfferReachesOnOffer(offer: SessionDescription, stringify: Json -> string,
                                                   jsonParse: string -> Option<Json>)
    requires jsonParse(stringify(Envelope("offer", DescriptionJson(offer)))) == Some(Envelope("offer", DescriptionJson(offer)))
    ensures Signaling.DispatchText(stringify(Envelope("offer", DescriptionJson(offer))), jsonParse) == [Signaling.OnOffer(offer)]
  {
    Signaling.DeliveredTextIsDispatched(OfferMessage(offer), stringify, jsonParse);
  }

  /** With the intended parsing dispatch, the answer `createAndSendAnswer` sends reaches the peer's `onAnswer` unchanged. */
  lemma {:induction false} SentAnswerReachesOnAnswer(answer: SessionDescription, stringify: Json -> string,
                                                     jsonParse: string -> Option<Json>)
    requires jsonParse(stringify(Envelope("answer", DescriptionJson(answer)))) == Some(Envelope("answer", DescriptionJson(answer)))
    ensures Signaling.DispatchText(stringify(Envelope("answer", DescriptionJson(answer))), jsonParse) == [Signaling.OnAnswer(answer)]
  {
    Signaling.DeliveredTextIsDispatched(AnswerMessage(answer), stringify, jsonParse);
  }

  /**
   * A forwarded local candidate carries the tag "iceCandidate", which the
   * signaling schema rejects: even a handler that parses the text first
   * calls no handler for it.
   */
  lemma {:induction false} ForwardedCandidateIsDropped(c: IceCandidate, stringify: Json -> string,
                                                       jsonParse: string -> Option<Json>)
    requires jsonParse(stringify(Envelope("iceCandidate", CandidateJson(c)))) == Some(Envelope("iceCandidate", CandidateJson(c)))
    ensures !Accepts(Envelope("iceCandidate", CandidateJson(c)))
    ensures Signaling.DispatchText(stringify(Envelope("iceCandidate", CandidateJson(c))), jsonParse) == []
  {
    var e := Envelope("iceCandidate", CandidateJson(c));
    assert e.fields["type"] == JString("iceCandidate");
    UnknownTagRejected(e);
  }
}
