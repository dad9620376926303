/**
 * Stand-ins for the browser objects the hooks hold: they record what the
 * hooks ask of them and nothing more. None of the browser's own behaviour
 * (networking, media capture, negotiation, rendering) is modelled.
 */
module Browser {
  import opened Json
  import opened SignalingMessages

  /**
   * A WebSocket: the text frames `send` transmitted, whether the open event
   * has happened, and whether `close` was called. `send` throws
   * `InvalidStateError` while the socket is still connecting, and silently
   * discards its data once `close` was called.
   */
  class WebSocket {
    const url: string
    var sent: seq<string>
    var established: bool
    var closed: bool

    constructor (url: string)
      ensures this.url == url && sent == [] && !established && !closed
    {
      this.url := url;
      sent := [];
      established := false;
      closed := false;
    }

    /** `readyState` is `CONNECTING`. */
    predicate Connecting()
      reads this
    {
      !established && !closed
    }

    /** `readyState` is `OPEN`. */
    predicate IsOpen()
      reads this
    {
      established && !closed
    }

    /**
     * The handshake completes and the open event fires. On a socket that was
     * closed already the state stays `CLOSED`, since `IsOpen` needs `!closed`.
     */
    method Open()
      modifies this
      ensures established && closed == old(closed) && sent == old(sent)
    {
      established := true;
    }

    /** `send(message)`: `threw` is the `InvalidStateError` of a connecting socket. */
    method Send(message: string) returns (threw: bool)
      modifies this
      ensures threw <==> old(Connecting())
      ensures sent == if old(IsOpen()) then old(sent) + [message] else old(sent)
      ensures established == old(established) && closed == old(closed)
    {
      threw := Connecting();
      if IsOpen() {
        sent := sent + [message];
      }
    }

    method Close()
      modifies this
      ensures closed && sent == old(sent) && established == old(established)
    {
      closed := true;
    }
  }

  class MediaStreamTrack {
    const id: nat
    var stopped: bool

    constructor (id: nat)
      ensures this.id == id && !stopped
    {
      this.id := id;
      stopped := false;
    }

    method Stop()
      modifies this
      ensures stopped
    {
      stopped := true;
    }
  }

  /** A MediaStream; `tracks` is what `getTracks()` returns, in order. */
  class MediaStream {
    const tracks: seq<MediaStreamTrack>

    constructor (tracks: seq<MediaStreamTrack>)
      ensures this.tracks == tracks
    {
      this.tracks := tracks;
    }
  }

  /** The tracks of a nullable stream, as a frame. */
  function TracksOf(s: MediaStream?): set<MediaStreamTrack> {
    if s == null then {} else set t | t in s.tracks
  }

  /** `stream.getTracks().forEach(track => track.stop())`. */
  method StopTracks(s: MediaStream)
    modifies TracksOf(s)
    ensures forall t :: t in s.tracks ==> t.stopped
  {
    for i := 0 to |s.tracks|
      invariant forall j :: 0 <= j < i ==> s.tracks[j].stopped
    {
      s.tracks[i].Stop();
    }
  }

  /** Why `getUserMedia` rejected: a DOMException with its `name` and `message`, or any other thrown value. */
  datatype AccessError = DomException(name: string, message: string) | OtherError

  /** The settled `getUserMedia` promise. */
  datatype UserMedia = Granted(stream: MediaStream) | Denied(error: AccessError)

  /** The calls a hook makes on an RTCPeerConnection. */
  datatype PeerCall =
    | CreateOffer
    | CreateAnswer
    | SetLocalDescription(local: SessionDescription)
    | SetRemoteDescription(remote: SessionDescription)
    | AddIceCandidate(candidate: IceCandidate)
    | AddTrack(track: MediaStreamTrack, stream: MediaStream)
    | Close

  /** An RTCPeerConnection: the calls made on it, in order, and whether it was closed. */
  class RTCPeerConnection {
    var calls: seq<PeerCall>
    var closed: bool

    constructor ()
      ensures calls == [] && !closed
    {
      calls := [];
      closed := false;
    }

    method Call(c: PeerCall)
      modifies this
      ensures calls == old(calls) + [c]
      ensures closed == (old(closed) || c.Close?)
    {
      calls := calls + [c];
      if c.Close? {
        closed := true;
      }
    }
  }

  /** An HTMLVideoElement, reduced to the four properties the scanner touches. */
  class VideoElement {
    var srcObject: MediaStream?
    var muted: bool
    var playsInline: bool
    var paused: bool

    constructor ()
      ensures srcObject == null && !muted && !playsInline && paused
    {
      srcObject := null;
      muted := false;
      playsInline := false;
      paused := true;
    }
  }
}
