/**
 * `useSignalingClient`: one WebSocket, an error message, guarded sends of
 * the three envelopes, and dispatch of validated incoming messages to the
 * three handlers the caller registered.
 *
 * The hook call together with its `onMount` is the constructor: it opens
 * the socket. The socket's event handlers are the methods `OnMessage`,
 * `OnError` and `OnClose`; `onCleanup` is `Cleanup`. The handlers the caller
 * passes in are observed through `handled`, the log of their invocations.
 * What is sent is text: `stringify` stands for `JSON.stringify`, and
 * `socket.sent` holds the frames the socket transmitted.
 */
module Signaling {
  import opened Wrappers
  import opened Json
  import opened SignalingMessages
  import opened Browser

  const ErrorOccurred: string := "WebSocket error occurred."
  const ConnectionClosed: string := "WebSocket connection closed."

  /** One invocation of a handler passed to `useSignalingClient`. */
  datatype HandlerCall =
    | OnOffer(offer: SessionDescription)
    | OnAnswer(answer: SessionDescription)
    | OnIceCandidate(candidate: IceCandidate)

  /** The `switch (message.type)` of the message handler. */
  function HandlerFor(m: SignalingMessage): (call: HandlerCall)
    ensures call.OnOffer? ==> m == OfferMessage(call.offer)
    ensures call.OnAnswer? ==> m == AnswerMessage(call.answer)
    ensures call.OnIceCandidate? ==> m == CandidateMessage(call.candidate)
  {
    match m
    case OfferMessage(d) => OnOffer(d)
    case AnswerMessage(d) => OnAnswer(d)
    case CandidateMessage(c) => OnIceCandidate(c)
  }

  /**
   * The handler invocations one incoming `event.data` causes: none when the
   * schema rejects it, otherwise the one its tag selects. The data is
   * validated as it arrives, without `JSON.parse`.
   */
  function Dispatch(data: Json): (calls: seq<HandlerCall>)
    ensures |calls| <= 1
    ensures |calls| == 1 <==> Accepts(data)
  {
    DecodeAgreesWithSchema(data);
    match Decode(data)
    case None => []
    case Some(m) => [HandlerFor(m)]
  }

  class SignalingClient {
    /** The socket `onMount` established; its event handlers stay attached to it. */
    const socket: WebSocket
    var ws: WebSocket?
    var error: Option<string>
    var handled: seq<HandlerCall>

    ghost predicate Valid()
      reads this
    {
      ws == null || ws == socket
    }

    constructor (url: string)
      ensures Valid()
      ensures fresh(socket) && socket.url == url && socket.sent == [] && !socket.established && !socket.closed
      ensures ws == socket && error == None && handled == []
    {
      socket := new WebSocket(url);
      ws := socket;
      error := None;
      handled := [];
    }

    /** `sendMessage`: hands the text to the held socket; `threw` is the socket's `InvalidStateError`. */
    method SendMessage(message: string) returns (threw: bool)
      requires Valid()
      modifies socket
      ensures threw <==> ws != null && old(socket.Connecting())
      ensures socket.sent == if ws != null && old(socket.IsOpen()) then old(socket.sent) + [message] else old(socket.sent)
      ensures socket.established == old(socket.established) && socket.closed == old(socket.closed)
    {
      threw := false;
      if ws != null {
        threw := ws.Send(message);
      }
    }

    /**
     * The common body of `sendOffer`, `sendAnswer` and `sendIceCandidate`:
     * return while no socket is held, else validate the envelope and send the
     * text `stringify` (`JSON.stringify`) makes of it. A typed message always
     * passes the schema, so the text is that of the envelope itself.
     */
    method SendEnvelope(m: SignalingMessage, stringify: Json -> string) returns (threw: bool)
      requires Valid()
      modifies socket
      ensures Accepts(Encode(m))
      ensures threw <==> ws != null && old(socket.Connecting())
      ensures socket.sent == if ws != null && old(socket.IsOpen()) then old(socket.sent) + [stringify(Encode(m))] else old(socket.sent)
      ensures socket.established == old(socket.established) && socket.closed == old(socket.closed)
    {
      EncodeAccepted(m);
      threw := false;
      if ws == null {
        return;
      }
      var envelope := Encode(m);
      threw := SendMessage(stringify(envelope));
    }

    method SendOffer(offer: SessionDescription, stringify: Json -> string) returns (threw: bool)
      requires Valid()
      modifies socket
      ensures threw <==> ws != null && old(socket.Connecting())
      ensures socket.sent == if ws != null && old(socket.IsOpen())
                             then old(socket.sent) + [stringify(Envelope("offer", DescriptionJson(offer)))]
                             else old(socket.sent)
      ensures socket.established == old(socket.established) && socket.closed == old(socket.closed)
    {
      threw := SendEnvelope(OfferMessage(offer), stringify);
    }

    method SendAnswer(answer: SessionDescription, stringify: Json -> string) returns (threw: bool)
      requires Valid()
      modifies socket
      ensures threw <==> ws != null && old(socket.Connecting())
      ensures socket.sent == if ws != null && old(socket.IsOpen())
                             then old(socket.sent) + [stringify(Envelope("answer", DescriptionJson(answer)))]
                             else old(socket.sent)
      ensures socket.established == old(socket.established) && socket.closed == old(socket.closed)
    {
      threw := SendEnvelope(AnswerMessage(answer), stringify);
    }

    method SendIceCandidate(candidate: IceCandidate, stringify: Json -> string) returns (threw: bool)
      requires Valid()
      modifies socket
      ensures threw <==> ws != null && old(socket.Connecting())
      ensures socket.sent == if ws != null && old(socket.IsOpen())
                             then old(socket.sent) + [stringify(Envelope("candidate", CandidateJson(candidate)))]
                             else old(socket.sent)
      ensures socket.established == old(socket.established) && socket.closed == old(socket.closed)
    {
      threw := SendEnvelope(CandidateMessage(candidate), stringify);
    }

    /**
     * `websocket.onmessage`: the schema is applied to `event.data` itself,
     * without `JSON.parse`. A text frame arrives as its text, a string, which
     * is never one of the three objects: every text frame is dropped.
     */
    method OnMessage(data: Json)
      modifies this`handled
      ensures handled == old(handled) + Dispatch(data)
      ensures data.JString? ==> handled == old(handled)
      ensures ws == old(ws) && error == old(error)
    {
      match Decode(data)
      case None =>
      case Some(m) =>
        handled := handled + [HandlerFor(m)];
    }

    /** `websocket.onerror`: records the error, keeps the socket. */
    method OnError()
      modifies this`error
      ensures error == Some(ErrorOccurred) && ws == old(ws)
    {
      error := Some(ErrorOccurred);
    }

    /** `websocket.onclose`: drops the socket and records why. */
    method OnClose()
      requires Valid()
      modifies this`ws, this`error
      ensures Valid()
      ensures ws == null && error == Some(ConnectionClosed)
    {
      ws := null;
      error := Some(ConnectionClosed);
    }

    /** `onCleanup`: closes and forgets a held socket and clears the error; without a socket it does nothing. */
    method Cleanup()
      requires Valid()
      modifies this`ws, this`error, socket
      ensures Valid()
      ensures ws == null
      ensures old(ws) != null ==> socket.closed && error == None
      ensures old(ws) == null ==> error == old(error) && socket.closed == old(socket.closed)
      ensures socket.sent == old(socket.sent)
    {
      if ws == null {
        return;
      }
      ws.Close();
      ws := null;
      error := None;
    }
  }

  // -----------------------------------------------------------------------
  // Lemmas
  // -----------------------------------------------------------------------

  /** The handler chosen for accepted data is the one its `type` names, given the decoded payload. */
  lemma {:induction false} DispatchFollowsTag(data: Json)
    requires Accepts(data)
    ensures |Dispatch(data)| == 1
    ensures Dispatch(data)[0].OnOffer? <==> data.fields["type"] == JString("offer")
    ensures Dispatch(data)[0].OnAnswer? <==> data.fields["type"] == JString("answer")
    ensures Dispatch(data)[0].OnIceCandidate? <==> data.fields["type"] == JString("candidate")
  {
    DecodeAgreesWithSchema(data);
    DecodedVariantIsTagged(data, Decode(data).value);
  }

  /**
   * A handler receives the data's own payload: the candidate or description
   * it is given is read off `payload` field by field, whatever undeclared
   * keys the data has besides.
   */
  lemma {:induction false} HandlerGetsPayload(data: Json, call: HandlerCall)
    requires Dispatch(data) == [call]
    ensures data.JObject? && "payload" in data.fields && data.fields["payload"].JObject?
    ensures call.OnIceCandidate? ==> HoldsCandidate(data.fields["payload"].fields, call.candidate)
    ensures call.OnOffer? ==> HoldsDescription(data.fields["payload"].fields, call.offer)
    ensures call.OnAnswer? ==> HoldsDescription(data.fields["payload"].fields, call.answer)
  {
    DecodedPayloadHolds(data, Decode(data).value);
  }

  /** A text frame handed over as a raw string never reaches a handler, whatever text it holds. */
  lemma TextFrameDropped(s: string)
    ensures Dispatch(JString(s)) == []
  {
  }

  /**
   * As written, nothing a client sends is ever dispatched by the peer: every
   * envelope travels as `JSON.stringify` text, and the receiving handler
   * validates that text unparsed.
   */
  lemma SentEnvelopeDropped(m: SignalingMessage, stringify: Json -> string)
    ensures Dispatch(JString(stringify(Encode(m)))) == []
  {
    TextFrameDropped(stringify(Encode(m)));
  }

  /**
   * The dispatch the handler evidently intends: the frame's text goes through
   * `parseSignalingMessage` before the switch on its tag. Text that does not
   * parse or does not validate reaches no handler; otherwise the handler is
   * the one `Dispatch` picks for the parsed value.
   */
  function DispatchText(frame: string, jsonParse: string -> Option<Json>): (calls: seq<HandlerCall>)
    ensures |calls| <= 1
    ensures |calls| == 1 <==> jsonParse(frame).Some? && Accepts(jsonParse(frame).value)
    ensures calls != [] ==> calls == Dispatch(jsonParse(frame).value)
  {
    match ParseSignalingMessage(JString(frame), jsonParse)
    case Parsed(m) => [HandlerFor(m)]
    case _ => []
  }

  /**
   * With that dispatch, and a `JSON.parse` that reads back the envelope from
   * the text `JSON.stringify` wrote of it, what one client sends reaches the
   * matching handler of the other with its payload unchanged.
   */
  lemma {:induction false} DeliveredTextIsDispatched(m: SignalingMessage, stringify: Json -> string,
                                                     jsonParse: string -> Option<Json>)
    requires jsonParse(stringify(Encode(m))) == Some(Encode(m))
    ensures DispatchText(stringify(Encode(m)), jsonParse) == [HandlerFor(m)]
  {
    assert Decode(Encode(m)) == Some(m);
  }

  /** Repeated cleanup is harmless: the second call changes nothing. */
  method CleanupTwice(client: SignalingClient)
    requires client.Valid()
    modifies client, client.socket
    ensures client.Valid() && client.ws == null
    ensures old(client.ws) != null ==> client.socket.closed && client.error == None
    ensures old(client.ws) == null ==> client.error == old(client.error)
  {
    client.Cleanup();
    ghost var afterFirst := (client.error, client.socket.closed, client.socket.sent);
    client.Cleanup();
    assert (client.error, client.socket.closed, client.socket.sent) == afterFirst;
  }
}
