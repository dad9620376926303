/**
 * The status machine of the `Video` component: the socket handlers of its
 * `onMount` and the `VideoStatus` they set. The new status depends only on
 * the event, never on the previous status. The JSX and the unused
 * `startLocalStream` are not part of this model.
 */
module VideoComponent {
  import opened Wrappers
  import opened Json
  import opened Browser
  import opened SignalingMessages

  datatype VideoStatus = Idle | Connected | Disconnected | Error

  /** The `switch (message.type)`: matched by strict equality against three strings. */
  function StatusForTag(tag: Json): (status: VideoStatus)
    ensures status != Idle
  {
    if tag == JString("offer") then Disconnected
    else if tag == JString("answer") then Connected
    else if tag == JString("iceCandidate") then Connected
    else Error
  }

  /**
   * The status `onmessage` sets for the value `JSON.parse` returned, or None
   * when reading `message.type` throws (the value is null). A value without a
   * `type` key (any primitive, array, or object lacking it) reads undefined.
   */
  function StatusForMessage(message: Json): (status: Option<VideoStatus>)
    ensures status.None? <==> message.JNull?
    ensures status != Some(Idle)
  {
    match message
    case JNull => None
    case JObject(f) => Some(if "type" in f then StatusForTag(f["type"]) else Error)
    case _ => Some(Error)
  }

  class Video {
    /** The socket `onMount` opened; its handlers stay attached to it. */
    const socket: WebSocket
    var ws: WebSocket?
    var status: VideoStatus

    /** Component creation with its `onMount`; the endpoint is a parameter. */
    constructor (url: string)
      ensures fresh(socket) && socket.url == url && !socket.closed
      ensures ws == null && status == Idle
    {
      socket := new WebSocket(url);
      ws := null;
      status := Idle;
    }

    /** `websocket.onopen`: the handshake has completed; stores the socket and reports Connected. */
    method OnOpen()
      modifies this`ws, this`status, socket
      ensures ws == socket && status == Connected
      ensures socket.established && socket.closed == old(socket.closed) && socket.sent == old(socket.sent)
    {
      socket.Open();
      ws := socket;
      status := Connected;
    }

    /**
     * `websocket.onmessage`; `parsed` is None when `JSON.parse` threw. A
     * handler that throws (parse failure, or a null message) leaves the status
     * as it was; otherwise the status is a function of the message alone.
     */
    method OnMessage(parsed: Option<Json>)
      modifies this`status
      ensures parsed.Some? && StatusForMessage(parsed.value).Some? ==> status == StatusForMessage(parsed.value).value
      ensures parsed.None? || StatusForMessage(parsed.value).None? ==> status == old(status)
      ensures ws == old(ws)
    {
      if parsed.Some? {
        var next := StatusForMessage(parsed.value);
        if next.Some? {
          status := next.value;
        }
      }
    }

    /** `websocket.onclose`: forgets the socket and reports Disconnected. */
    method OnClose()
      modifies this`ws, this`status
      ensures ws == null && status == Disconnected
    {
      ws := null;
      status := Disconnected;
    }

    /** `onCleanup`: closes the socket; the fields change only when its close event arrives. */
    method Cleanup()
      modifies socket
      ensures socket.closed && socket.sent == old(socket.sent)
      ensures ws == old(ws) && status == old(status)
    {
      socket.Close();
    }
  }

  // -----------------------------------------------------------------------
  // Lemmas
  // -----------------------------------------------------------------------

  /** Any value with a `type` other than the three strings the switch knows sets Error. */
  lemma OtherTagsSetError(message: Json)
    requires message.JObject? && "type" in message.fields
    requires message.fields["type"] !in {JString("offer"), JString("answer"), JString("iceCandidate")}
    ensures StatusForMessage(message) == Some(Error)
  {
  }

  /**
   * On messages the signaling schema accepts: an offer sets Disconnected, an
   * answer Connected, and a candidate, whose tag the switch does not know, Error.
   */
  lemma {:induction false} ValidatedMessageStatus(message: Json, m: SignalingMessage)
    requires Decode(message) == Some(m)
    ensures StatusForMessage(message) == Some(
              match m
              case OfferMessage(_) => Disconnected
              case AnswerMessage(_) => Connected
              case CandidateMessage(_) => Error)
  {
    DecodedVariantIsTagged(message, m);
  }

  /** The "iceCandidate" message the peer-connection hook forwards sets Connected. */
  lemma ForwardedCandidateConnects(c: IceCandidate)
    ensures StatusForMessage(Envelope("iceCandidate", CandidateJson(c))) == Some(Connected)
  {
  }
}
