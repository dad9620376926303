/**
 * The signaling wire format: the arktype schema `SignalingMessage` (a union
 * of three object types discriminated by `type`) and `parseSignalingMessage`.
 *
 * The schema is stated twice on purpose. `Accepts` is the accept/reject
 * predicate, written key by key as the schema declares it. `Decode` is an
 * independent reading of a value into the typed `SignalingMessage`, built
 * the way a hand-written decoder would be. The lemmas at the end prove that
 * the two agree, that `Encode` is inverted by `Decode`, and the individual
 * accept/reject rules of the schema.
 *
 * Keys the schema does not declare are ignored, not rejected (arktype's
 * default), so both definitions look only at declared keys.
 */
module SignalingMessages {
  import opened Wrappers
  import opened Json

  // ---------------------------------------------------------------------
  // Typed view of an accepted message
  // ---------------------------------------------------------------------

  /** `RTCSdpType` of W3C WebRTC 1.0. */
  datatype SdpType = SdpAnswer | SdpOffer | SdpPranswer | SdpRollback

  /** `RTCSessionDescriptionInit`: `type` is required, `sdp` optional. */
  datatype SessionDescription = SessionDescription(sdpType: SdpType, sdp: Option<string>)

  datatype Component = Rtcp | Rtp
  datatype Protocol = Udp | Tcp
  datatype TcpType = Active | Passive | So
  datatype CandidateType = Host | Srflx | Prflx | Relay

  /** The `RTCIceCandidate` payload: `candidate` is a string, every other key is present and nullable. */
  datatype IceCandidate = IceCandidate(
    candidate: string,
    address: Option<string>,
    component: Option<Component>,
    foundation: Option<string>,
    port: Option<real>,
    priority: Option<real>,
    protocol: Option<Protocol>,
    relatedAddress: Option<string>,
    relatedPort: Option<real>,
    sdpMLineIndex: Option<real>,
    sdpMid: Option<string>,
    tcpType: Option<TcpType>,
    candidateType: Option<CandidateType>,
    usernameFragment: Option<string>)

  datatype SignalingMessage =
    | CandidateMessage(candidate: IceCandidate)
    | OfferMessage(offer: SessionDescription)
    | AnswerMessage(answer: SessionDescription)

  /** The value of the `type` discriminant of each variant. */
  function Tag(m: SignalingMessage): string {
    match m
    case CandidateMessage(_) => "candidate"
    case OfferMessage(_) => "offer"
    case AnswerMessage(_) => "answer"
  }

  // ---------------------------------------------------------------------
  // The schema as an accept/reject predicate
  // ---------------------------------------------------------------------

  const SdpTypeLiterals: set<string> := {"answer", "offer", "pranswer", "rollback"}
  const ComponentLiterals: set<string> := {"rtcp", "rtp"}
  const ProtocolLiterals: set<string> := {"udp", "tcp"}
  const TcpTypeLiterals: set<string> := {"active", "passive", "so"}
  const CandidateTypeLiterals: set<string> := {"host", "srflx", "prflx", "relay"}

  /** The keys of the candidate payload whose value must be `number | null`. */
  const NumericCandidateKeys: set<string> := {"port", "priority", "relatedPort", "sdpMLineIndex"}

  /** Every key the candidate payload declares; all of them are required. */
  const CandidateKeys: set<string> := {
    "candidate", "address", "component", "foundation", "port", "priority", "protocol",
    "relatedAddress", "relatedPort", "sdpMLineIndex", "sdpMid", "tcpType", "type", "usernameFragment"}

  predicate StringAt(f: map<string, Json>, k: string) {
    k in f && f[k].JString?
  }

  predicate NullableStringAt(f: map<string, Json>, k: string) {
    k in f && (f[k].JNull? || f[k].JString?)
  }

  predicate NullableNumberAt(f: map<string, Json>, k: string) {
    k in f && (f[k].JNull? || f[k].JNumber?)
  }

  predicate NullableLiteralAt(f: map<string, Json>, k: string, literals: set<string>) {
    k in f && (f[k].JNull? || (f[k].JString? && f[k].s in literals))
  }

  /** The `RTCIceCandidate` schema. */
  predicate IsIceCandidate(v: Json)
    ensures IsIceCandidate(v) ==> v.JObject? && CandidateKeys <= v.fields.Keys
  {
    && v.JObject?
    && StringAt(v.fields, "candidate")
    && NullableStringAt(v.fields, "address")
    && NullableLiteralAt(v.fields, "component", ComponentLiterals)
    && NullableStringAt(v.fields, "foundation")
    && NullableNumberAt(v.fields, "port")
    && NullableNumberAt(v.fields, "priority")
    && NullableLiteralAt(v.fields, "protocol", ProtocolLiterals)
    && NullableStringAt(v.fields, "relatedAddress")
    && NullableNumberAt(v.fields, "relatedPort")
    && NullableNumberAt(v.fields, "sdpMLineIndex")
    && NullableStringAt(v.fields, "sdpMid")
    && NullableLiteralAt(v.fields, "tcpType", TcpTypeLiterals)
    && NullableLiteralAt(v.fields, "type", CandidateTypeLiterals)
    && NullableStringAt(v.fields, "usernameFragment")
  }

  /** The `RTCSessionDescriptionInit` schema: optional string `sdp`, required `type` literal. */
  predicate IsSessionDescriptionInit(v: Json)
    ensures IsSessionDescriptionInit(v) ==> DecodeSessionDescription(v).Some?
  {
    && v.JObject?
    && ("sdp" in v.fields ==> v.fields["sdp"].JString?)
    && "type" in v.fields
    && v.fields["type"].JString?
    && v.fields["type"].s in SdpTypeLiterals
  }

  /** An object whose `type` is exactly the string `tag` and that has a `payload` key. */
  predicate TaggedWith(v: Json, tag: string) {
    && v.JObject?
    && "type" in v.fields
    && v.fields["type"] == JString(tag)
    && "payload" in v.fields
  }

  predicate IsCandidateMessage(v: Json) {
    TaggedWith(v, "candidate") && IsIceCandidate(v.fields["payload"])
  }

  predicate IsOfferMessage(v: Json) {
    TaggedWith(v, "offer") && IsSessionDescriptionInit(v.fields["payload"])
  }

  predicate IsAnswerMessage(v: Json) {
    TaggedWith(v, "answer") && IsSessionDescriptionInit(v.fields["payload"])
  }

  /** `CandidateMessage.or(OfferMessage).or(AnswerMessage)`. */
  predicate Accepts(v: Json)
    ensures Accepts(v) ==> v.JObject? && "payload" in v.fields && "type" in v.fields
    ensures Accepts(v) ==> v.fields["type"] in {JString("candidate"), JString("offer"), JString("answer")}
  {
    IsCandidateMessage(v) || IsOfferMessage(v) || IsAnswerMessage(v)
  }

  // ---------------------------------------------------------------------
  // The schema as a decoder into the typed view
  // ---------------------------------------------------------------------

  function Required(f: map<string, Json>, k: string): Option<Json> {
    if k in f then Some(f[k]) else None
  }

  function ReadString(j: Json): Option<string> {
    if j.JString? then Some(j.s) else None
  }

  function ReadNumber(j: Json): Option<real> {
    if j.JNumber? then Some(j.n) else None
  }

  function ReadSdpType(j: Json): Option<SdpType> {
    if j == JString("answer") then Some(SdpAnswer)
    else if j == JString("offer") then Some(SdpOffer)
    else if j == JString("pranswer") then Some(SdpPranswer)
    else if j == JString("rollback") then Some(SdpRollback)
    else None
  }

  function ReadComponent(j: Json): Option<Component> {
    if j == JString("rtcp") then Some(Rtcp)
    else if j == JString("rtp") then Some(Rtp)
    else None
  }

  function ReadProtocol(j: Json): Option<Protocol> {
    if j == JString("udp") then Some(Udp)
    else if j == JString("tcp") then Some(Tcp)
    else None
  }

  function ReadTcpType(j: Json): Option<TcpType> {
    if j == JString("active") then Some(Active)
    else if j == JString("passive") then Some(Passive)
    else if j == JString("so") then Some(So)
    else None
  }

  function ReadCandidateType(j: Json): Option<CandidateType> {
    if j == JString("host") then Some(Host)
    else if j == JString("srflx") then Some(Srflx)
    else if j == JString("prflx") then Some(Prflx)
    else if j == JString("relay") then Some(Relay)
    else None
  }

  /** A required key whose value is null (Some(None)) or readable by `read` (Some(Some(x))). */
  function Nullable<T>(f: map<string, Json>, k: string, read: Json -> Option<T>): Option<Option<T>> {
    var j :- Required(f, k);
    if j.JNull? then Some(None)
    else
      var x :- read(j);
      Some(Some(x))
  }

  function DecodeIceCandidate(v: Json): Option<IceCandidate> {
    if !v.JObject? then None
    else
      var f := v.fields;
      var candidate :- Required(f, "candidate");
      var candidate :- ReadString(candidate);
      var address :- Nullable(f, "address", ReadString);
      var component :- Nullable(f, "component", ReadComponent);
      var foundation :- Nullable(f, "foundation", ReadString);
      var port :- Nullable(f, "port", ReadNumber);
      var priority :- Nullable(f, "priority", ReadNumber);
      var protocol :- Nullable(f, "protocol", ReadProtocol);
      DecodeIceCandidateRest(f, candidate, address, component, foundation, port, priority, protocol)
  }

  /** The second half of `DecodeIceCandidate`: the keys from `relatedAddress` on. */
  function DecodeIceCandidateRest(
    f: map<string, Json>, candidate: string, address: Option<string>, component: Option<Component>,
    foundation: Option<string>, port: Option<real>, priority: Option<real>, protocol: Option<Protocol>)
    : Option<IceCandidate>
  {
    var relatedAddress :- Nullable(f, "relatedAddress", ReadString);
    var relatedPort :- Nullable(f, "relatedPort", ReadNumber);
    var sdpMLineIndex :- Nullable(f, "sdpMLineIndex", ReadNumber);
    var sdpMid :- Nullable(f, "sdpMid", ReadString);
    var tcpType :- Nullable(f, "tcpType", ReadTcpType);
    var candidateType :- Nullable(f, "type", ReadCandidateType);
    var usernameFragment :- Nullable(f, "usernameFragment", ReadString);
    Some(IceCandidate(candidate, address, component, foundation, port, priority, protocol,
                      relatedAddress, relatedPort, sdpMLineIndex, sdpMid, tcpType,
                      candidateType, usernameFragment))
  }

  function DecodeSessionDescription(v: Json): Option<SessionDescription> {
    if !v.JObject? then None
    else
      var sdpType :- Required(v.fields, "type");
      var sdpType :- ReadSdpType(sdpType);
      if "sdp" !in v.fields then Some(SessionDescription(sdpType, None))
      else
        var sdp :- ReadString(v.fields["sdp"]);
        Some(SessionDescription(sdpType, Some(sdp)))
  }

  /** Reads a value into a message, or None when the schema rejects it. */
  function Decode(v: Json): (r: Option<SignalingMessage>)
    ensures r.Some? ==> v.JObject? && "payload" in v.fields
    ensures r.Some? ==> "type" in v.fields && v.fields["type"] == JString(Tag(r.value))
  {
    if !v.JObject? then None
    else
      var tag :- Required(v.fields, "type");
      var payload :- Required(v.fields, "payload");
      if tag == JString("candidate") then
        var c :- DecodeIceCandidate(payload);
        Some(CandidateMessage(c))
      else if tag == JString("offer") then
        var d :- DecodeSessionDescription(payload);
        Some(OfferMessage(d))
      else if tag == JString("answer") then
        var d :- DecodeSessionDescription(payload);
        Some(AnswerMessage(d))
      else None
  }

  // ---------------------------------------------------------------------
  // Encoding: the value `JSON.stringify` is given for a typed message
  // ---------------------------------------------------------------------

  function SdpTypeName(t: SdpType): string {
    match t
    case SdpAnswer => "answer"
    case SdpOffer => "offer"
    case SdpPranswer => "pranswer"
    case SdpRollback => "rollback"
  }

  function StringOrNull(x: Option<string>): Json {
    if x.Some? then JString(x.value) else JNull
  }

  function NumberOrNull(x: Option<real>): Json {
    if x.Some? then JNumber(x.value) else JNull
  }

  function ComponentOrNull(x: Option<Component>): Json {
    match x
    case None => JNull
    case Some(Rtcp) => JString("rtcp")
    case Some(Rtp) => JString("rtp")
  }

  function ProtocolOrNull(x: Option<Protocol>): Json {
    match x
    case None => JNull
    case Some(Udp) => JString("udp")
    case Some(Tcp) => JString("tcp")
  }

  function TcpTypeOrNull(x: Option<TcpType>): Json {
    match x
    case None => JNull
    case Some(Active) => JString("active")
    case Some(Passive) => JString("passive")
    case Some(So) => JString("so")
  }

  function CandidateTypeOrNull(x: Option<CandidateType>): Json {
    match x
    case None => JNull
    case Some(Host) => JString("host")
    case Some(Srflx) => JString("srflx")
    case Some(Prflx) => JString("prflx")
    case Some(Relay) => JString("relay")
  }

  function DescriptionJson(d: SessionDescription): Json {
    var withType := map["type" := JString(SdpTypeName(d.sdpType))];
    match d.sdp
    case None => JObject(withType)
    case Some(s) => JObject(withType["sdp" := JString(s)])
  }

  function CandidateJson(c: IceCandidate): Json {
    JObject(map[
      "candidate" := JString(c.candidate),
      "address" := StringOrNull(c.address),
      "component" := ComponentOrNull(c.component),
      "foundation" := StringOrNull(c.foundation),
      "port" := NumberOrNull(c.port),
      "priority" := NumberOrNull(c.priority),
      "protocol" := ProtocolOrNull(c.protocol),
      "relatedAddress" := StringOrNull(c.relatedAddress),
      "relatedPort" := NumberOrNull(c.relatedPort),
      "sdpMLineIndex" := NumberOrNull(c.sdpMLineIndex),
      "sdpMid" := StringOrNull(c.sdpMid),
      "tcpType" := TcpTypeOrNull(c.tcpType),
      "type" := CandidateTypeOrNull(c.candidateType),
      "usernameFragment" := StringOrNull(c.usernameFragment)])
  }

  /** The object literal `{ type: tag, payload: payload }` the sources build before stringifying. */
  function Envelope(tag: string, payload: Json): Json {
    JObject(map["type" := JString(tag), "payload" := payload])
  }

  function PayloadJson(m: SignalingMessage): Json {
    match m
    case CandidateMessage(c) => CandidateJson(c)
    case OfferMessage(d) => DescriptionJson(d)
    case AnswerMessage(d) => DescriptionJson(d)
  }

  /** The envelope the sources build for a typed message; it decodes back to the message. */
  function Encode(m: SignalingMessage): (v: Json)
    ensures Decode(v) == Some(m)
  {
    DecodeEnvelope(Tag(m), PayloadJson(m));
    match m
    case CandidateMessage(c) =>
      CandidateRoundTrip(c);
      Envelope("candidate", CandidateJson(c))
    case OfferMessage(d) =>
      DescriptionRoundTrip(d);
      Envelope("offer", DescriptionJson(d))
    case AnswerMessage(d) =>
      DescriptionRoundTrip(d);
      Envelope("answer", DescriptionJson(d))
  }

  // ---------------------------------------------------------------------
  // parseSignalingMessage
  // ---------------------------------------------------------------------

  datatype ParseOutcome =
    | Parsed(message: SignalingMessage)
    | NotAString        // rejected by `type("string")`
    | ParseThrew        // `JSON.parse` threw; arktype does not catch it
    | SchemaMismatch    // rejected by `SignalingMessage`

  /**
   * `type("string").pipe(JSON.parse).to(SignalingMessage)`. `jsonParse` stands for
   * `JSON.parse`: None when it throws on the text.
   */
  function ParseSignalingMessage(input: Json, jsonParse: string -> Option<Json>): (outcome: ParseOutcome)
    ensures outcome.NotAString? <==> !input.JString?
    ensures outcome.ParseThrew? <==> input.JString? && jsonParse(input.s).None?
    ensures outcome.Parsed? <==> input.JString? && jsonParse(input.s).Some? && Accepts(jsonParse(input.s).value)
  {
    if !input.JString? then NotAString
    else
      match jsonParse(input.s)
      case None => ParseThrew
      case Some(v) =>
        DecodeAgreesWithSchema(v);
        match Decode(v)
        case None => SchemaMismatch
        case Some(m) => Parsed(m)
  }

  // ---------------------------------------------------------------------
  // Lemmas
  // ---------------------------------------------------------------------

  lemma NullableStringAgrees(f: map<string, Json>, k: string)
    ensures Nullable(f, k, ReadString).Some? <==> NullableStringAt(f, k)
  {
  }

  lemma NullableNumberAgrees(f: map<string, Json>, k: string)
    ensures Nullable(f, k, ReadNumber).Some? <==> NullableNumberAt(f, k)
  {
  }

  lemma NullableEnumsAgree(f: map<string, Json>)
    ensures Nullable(f, "component", ReadComponent).Some? <==> NullableLiteralAt(f, "component", ComponentLiterals)
    ensures Nullable(f, "protocol", ReadProtocol).Some? <==> NullableLiteralAt(f, "protocol", ProtocolLiterals)
    ensures Nullable(f, "tcpType", ReadTcpType).Some? <==> NullableLiteralAt(f, "tcpType", TcpTypeLiterals)
    ensures Nullable(f, "type", ReadCandidateType).Some? <==> NullableLiteralAt(f, "type", CandidateTypeLiterals)
  {
  }

  lemma {:induction false} DecodeIceCandidateAgrees(v: Json)
    ensures DecodeIceCandidate(v).Some? <==> IsIceCandidate(v)
  {
    if v.JObject? {
      var f := v.fields;
      NullableStringAgrees(f, "address");
      NullableStringAgrees(f, "foundation");
      NullableStringAgrees(f, "relatedAddress");
      NullableStringAgrees(f, "sdpMid");
      NullableStringAgrees(f, "usernameFragment");
      NullableNumberAgrees(f, "port");
      NullableNumberAgrees(f, "priority");
      NullableNumberAgrees(f, "relatedPort");
      NullableNumberAgrees(f, "sdpMLineIndex");
      NullableEnumsAgree(f);
    }
  }

  lemma {:induction false} DecodeSessionDescriptionAgrees(v: Json)
    ensures DecodeSessionDescription(v).Some? <==> IsSessionDescriptionInit(v)
  {
  }

  /** The decoder succeeds on exactly the values the schema accepts. */
  lemma {:induction false} DecodeAgreesWithSchema(v: Json)
    ensures Decode(v).Some? <==> Accepts(v)
  {
    if v.JObject? && "payload" in v.fields {
      DecodeIceCandidateAgrees(v.fields["payload"]);
      DecodeSessionDescriptionAgrees(v.fields["payload"]);
    }
  }

  /** An accepted value matches exactly one variant, the one its `type` names. */
  lemma {:induction false} DecodedVariantIsTagged(v: Json, m: SignalingMessage)
    requires Decode(v) == Some(m)
    ensures v.JObject? && "type" in v.fields && v.fields["type"] == JString(Tag(m))
    ensures m.CandidateMessage? <==> IsCandidateMessage(v)
    ensures m.OfferMessage? <==> IsOfferMessage(v)
    ensures m.AnswerMessage? <==> IsAnswerMessage(v)
  {
    DecodeAgreesWithSchema(v);
    DecodeIceCandidateAgrees(v.fields["payload"]);
    DecodeSessionDescriptionAgrees(v.fields["payload"]);
  }

  lemma {:induction false} DescriptionRoundTrip(d: SessionDescription)
    ensures DecodeSessionDescription(DescriptionJson(d)) == Some(d)
  {
  }

  lemma NullablesReadBack(f: map<string, Json>, k: string)
    requires k in f
    ensures forall x :: f[k] == StringOrNull(x) ==> Nullable(f, k, ReadString) == Some(x)
    ensures forall x :: f[k] == NumberOrNull(x) ==> Nullable(f, k, ReadNumber) == Some(x)
    ensures forall x :: f[k] == ComponentOrNull(x) ==> Nullable(f, k, ReadComponent) == Some(x)
    ensures forall x :: f[k] == ProtocolOrNull(x) ==> Nullable(f, k, ReadProtocol) == Some(x)
    ensures forall x :: f[k] == TcpTypeOrNull(x) ==> Nullable(f, k, ReadTcpType) == Some(x)
    ensures forall x :: f[k] == CandidateTypeOrNull(x) ==> Nullable(f, k, ReadCandidateType) == Some(x)
  {
  }

  /** `f` holds every declared key of the candidate payload with the value `c` gives it. */
  predicate HoldsCandidate(f: map<string, Json>, c: IceCandidate) {
    && "candidate" in f && f["candidate"] == JString(c.candidate)
    && "address" in f && f["address"] == StringOrNull(c.address)
    && "component" in f && f["component"] == ComponentOrNull(c.component)
    && "foundation" in f && f["foundation"] == StringOrNull(c.foundation)
    && "port" in f && f["port"] == NumberOrNull(c.port)
    && "priority" in f && f["priority"] == NumberOrNull(c.priority)
    && "protocol" in f && f["protocol"] == ProtocolOrNull(c.protocol)
    && "relatedAddress" in f && f["relatedAddress"] == StringOrNull(c.relatedAddress)
    && "relatedPort" in f && f["relatedPort"] == NumberOrNull(c.relatedPort)
    && "sdpMLineIndex" in f && f["sdpMLineIndex"] == NumberOrNull(c.sdpMLineIndex)
    && "sdpMid" in f && f["sdpMid"] == StringOrNull(c.sdpMid)
    && "tcpType" in f && f["tcpType"] == TcpTypeOrNull(c.tcpType)
    && "type" in f && f["type"] == CandidateTypeOrNull(c.candidateType)
    && "usernameFragment" in f && f["usernameFragment"] == StringOrNull(c.usernameFragment)
  }

  lemma CandidateJsonHolds(c: IceCandidate)
    ensures HoldsCandidate(CandidateJson(c).fields, c)
  {
  }

  lemma {:induction false} DecodeHeldCandidate(f: map<string, Json>, c: IceCandidate)
    requires HoldsCandidate(f, c)
    ensures DecodeIceCandidate(JObject(f)) == Some(c)
  {
    DecodeHeldCandidateRest(f, c);
    NullablesReadBack(f, "address");
    NullablesReadBack(f, "component");
    NullablesReadBack(f, "foundation");
    NullablesReadBack(f, "port");
    NullablesReadBack(f, "priority");
    NullablesReadBack(f, "protocol");
  }

  lemma {:induction false} DecodeHeldCandidateRest(f: map<string, Json>, c: IceCandidate)
    requires HoldsCandidate(f, c)
    ensures DecodeIceCandidateRest(f, c.candidate, c.address, c.component,
                                   c.foundation, c.port, c.priority, c.protocol) == Some(c)
  {
    NullablesReadBack(f, "relatedAddress");
    NullablesReadBack(f, "relatedPort");
    NullablesReadBack(f, "sdpMLineIndex");
    NullablesReadBack(f, "sdpMid");
    NullablesReadBack(f, "tcpType");
    NullablesReadBack(f, "type");
    NullablesReadBack(f, "usernameFragment");
  }

  lemma {:induction false} CandidateRoundTrip(c: IceCandidate)
    ensures DecodeIceCandidate(CandidateJson(c)) == Some(c)
  {
    CandidateJsonHolds(c);
    DecodeHeldCandidate(CandidateJson(c).fields, c);
  }

  /** Every typed message encodes to a value the schema accepts and decodes back to it. */
  lemma {:induction false} DecodeEnvelope(tag: string, payload: Json)
    ensures Decode(Envelope(tag, payload)) ==
      if tag == "candidate" then
        (match DecodeIceCandidate(payload) case None => None case Some(c) => Some(CandidateMessage(c)))
      else if tag == "offer" then
        (match DecodeSessionDescription(payload) case None => None case Some(d) => Some(OfferMessage(d)))
      else if tag == "answer" then
        (match DecodeSessionDescription(payload) case None => None case Some(d) => Some(AnswerMessage(d)))
      else None
  {
    var e := Envelope(tag, payload);
    assert "type" in e.fields && e.fields["type"] == JString(tag);
    assert "payload" in e.fields && e.fields["payload"] == payload;
  }

  /** Every typed message encodes to a value the schema accepts. */
  lemma {:induction false} EncodeAccepted(m: SignalingMessage)
    ensures Accepts(Encode(m))
  {
    DecodeAgreesWithSchema(Encode(m));
  }

  // Accept/reject rules of the schema, one per declared constraint

  /** A `type` other than the three literals (or none at all) is rejected. */
  lemma UnknownTagRejected(v: Json)
    requires v.JObject?
    requires "type" in v.fields ==> v.fields["type"] !in {JString("candidate"), JString("offer"), JString("answer")}
    ensures !Accepts(v) && Decode(v) == None
  {
    DecodeAgreesWithSchema(v);
  }

  /** Offer and answer share one payload schema: the same payload is accepted under both tags, read the same. */
  lemma {:induction false} OfferAndAnswerShareSchema(payload: Json, d: SessionDescription)
    ensures Accepts(Envelope("offer", payload)) <==> Accepts(Envelope("answer", payload))
    ensures Decode(Envelope("offer", payload)) == Some(OfferMessage(d))
            <==> Decode(Envelope("answer", payload)) == Some(AnswerMessage(d))
  {
    DecodeEnvelope("offer", payload);
    DecodeEnvelope("answer", payload);
    DecodeAgreesWithSchema(Envelope("offer", payload));
    DecodeAgreesWithSchema(Envelope("answer", payload));
  }

  /** `sdp` may be absent (read as None); when present it must be a string. `type` must be one of the four literals. */
  lemma DescriptionRules(f: map<string, Json>, x: Json, t: string)
    ensures !x.JString? ==> !IsSessionDescriptionInit(JObject(f["sdp" := x]))
    ensures t !in SdpTypeLiterals ==> !IsSessionDescriptionInit(JObject(f["type" := JString(t)]))
    ensures "sdp" !in f && t in SdpTypeLiterals ==>
              var g := f["type" := JString(t)];
              IsSessionDescriptionInit(JObject(g)) && DecodeSessionDescription(JObject(g)).value.sdp == None
  {
  }

  /** Every declared candidate key is required: removing any one of them makes the payload invalid. */
  lemma MissingCandidateKeyRejected(f: map<string, Json>, k: string)
    requires k in CandidateKeys
    ensures !IsIceCandidate(JObject(f - {k}))
  {
  }

  /** `port`, `priority`, `relatedPort` and `sdpMLineIndex` are `number | null`: a string there is rejected. */
  lemma StringInNumericKeyRejected(f: map<string, Json>, k: string, s: string)
    requires k in NumericCandidateKeys
    ensures !IsIceCandidate(JObject(f[k := JString(s)]))
  {
  }

  /** The enumerated keys accept only their listed literals (or null). */
  lemma EnumeratedKeysRejectOtherLiterals(f: map<string, Json>, s: string)
    ensures s !in ComponentLiterals ==> !IsIceCandidate(JObject(f["component" := JString(s)]))
    ensures s !in ProtocolLiterals ==> !IsIceCandidate(JObject(f["protocol" := JString(s)]))
    ensures s !in TcpTypeLiterals ==> !IsIceCandidate(JObject(f["tcpType" := JString(s)]))
    ensures s !in CandidateTypeLiterals ==> !IsIceCandidate(JObject(f["type" := JString(s)]))
  {
  }

  /** The `candidate` key itself must be a string; null is not allowed there. */
  lemma NullCandidateStringRejected(f: map<string, Json>)
    ensures !IsIceCandidate(JObject(f["candidate" := JNull]))
  {
  }

  /** Keys the envelope does not declare are ignored. */
  lemma ExtraEnvelopeKeysIgnored(f: map<string, Json>, k: string, x: Json)
    requires k != "type" && k != "payload"
    ensures Accepts(JObject(f[k := x])) <==> Accepts(JObject(f))
    ensures Decode(JObject(f[k := x])) == Decode(JObject(f))
  {
    DecodeAgreesWithSchema(JObject(f[k := x]));
    DecodeAgreesWithSchema(JObject(f));
  }

  /** A string-or-null key read as `x` holds `x` written back: null for None. */
  lemma StringWriteBack(f: map<string, Json>, k: string, x: Option<string>)
    requires Nullable(f, k, ReadString) == Some(x)
    ensures k in f && f[k] == StringOrNull(x)
  {
  }

  lemma NumberWriteBack(f: map<string, Json>, k: string, x: Option<real>)
    requires Nullable(f, k, ReadNumber) == Some(x)
    ensures k in f && f[k] == NumberOrNull(x)
  {
  }

  /** The enumerated keys: each listed literal reads back to itself. */
  lemma EnumsWriteBack(f: map<string, Json>)
    ensures forall x :: Nullable(f, "component", ReadComponent) == Some(x) ==> "component" in f && f["component"] == ComponentOrNull(x)
    ensures forall x :: Nullable(f, "protocol", ReadProtocol) == Some(x) ==> "protocol" in f && f["protocol"] == ProtocolOrNull(x)
    ensures forall x :: Nullable(f, "tcpType", ReadTcpType) == Some(x) ==> "tcpType" in f && f["tcpType"] == TcpTypeOrNull(x)
    ensures forall x :: Nullable(f, "type", ReadCandidateType) == Some(x) ==> "type" in f && f["type"] == CandidateTypeOrNull(x)
  {
  }

  /** The second half of the decoder keeps the fields it is given and reads the other seven off `f`. */
  lemma {:induction false} DecodedRestHolds(
    f: map<string, Json>, candidate: string, address: Option<string>, component: Option<Component>,
    foundation: Option<string>, port: Option<real>, priority: Option<real>, protocol: Option<Protocol>,
    c: IceCandidate)
    requires DecodeIceCandidateRest(f, candidate, address, component, foundation, port, priority, protocol) == Some(c)
    ensures c.candidate == candidate && c.address == address && c.component == component
    ensures c.foundation == foundation && c.port == port && c.priority == priority && c.protocol == protocol
    ensures "relatedAddress" in f && f["relatedAddress"] == StringOrNull(c.relatedAddress)
    ensures "relatedPort" in f && f["relatedPort"] == NumberOrNull(c.relatedPort)
    ensures "sdpMLineIndex" in f && f["sdpMLineIndex"] == NumberOrNull(c.sdpMLineIndex)
    ensures "sdpMid" in f && f["sdpMid"] == StringOrNull(c.sdpMid)
    ensures "tcpType" in f && f["tcpType"] == TcpTypeOrNull(c.tcpType)
    ensures "type" in f && f["type"] == CandidateTypeOrNull(c.candidateType)
    ensures "usernameFragment" in f && f["usernameFragment"] == StringOrNull(c.usernameFragment)
  {
    var relatedAddress := Nullable(f, "relatedAddress", ReadString).value;
    var relatedPort := Nullable(f, "relatedPort", ReadNumber).value;
    var sdpMLineIndex := Nullable(f, "sdpMLineIndex", ReadNumber).value;
    var sdpMid := Nullable(f, "sdpMid", ReadString).value;
    var usernameFragment := Nullable(f, "usernameFragment", ReadString).value;
    StringWriteBack(f, "relatedAddress", relatedAddress);
    NumberWriteBack(f, "relatedPort", relatedPort);
    NumberWriteBack(f, "sdpMLineIndex", sdpMLineIndex);
    StringWriteBack(f, "sdpMid", sdpMid);
    StringWriteBack(f, "usernameFragment", usernameFragment);
    EnumsWriteBack(f);
  }

  /** A decoded candidate is what the payload holds: every declared key carries the decoded field. */
  lemma {:induction false} DecodedCandidateHolds(v: Json, c: IceCandidate)
    requires DecodeIceCandidate(v) == Some(c)
    ensures v.JObject? && HoldsCandidate(v.fields, c)
  {
    var f := v.fields;
    var address := Nullable(f, "address", ReadString).value;
    var component := Nullable(f, "component", ReadComponent).value;
    var foundation := Nullable(f, "foundation", ReadString).value;
    var port := Nullable(f, "port", ReadNumber).value;
    var priority := Nullable(f, "priority", ReadNumber).value;
    var protocol := Nullable(f, "protocol", ReadProtocol).value;
    assert DecodeIceCandidateRest(f, f["candidate"].s, address, component, foundation, port, priority, protocol) == Some(c);
    DecodedRestHolds(f, f["candidate"].s, address, component, foundation, port, priority, protocol, c);
    StringWriteBack(f, "address", address);
    StringWriteBack(f, "foundation", foundation);
    NumberWriteBack(f, "port", port);
    NumberWriteBack(f, "priority", priority);
    EnumsWriteBack(f);
  }

  /** `f` holds the description `d`: its `type` literal, and `sdp` exactly when `d` has one. */
  predicate HoldsDescription(f: map<string, Json>, d: SessionDescription) {
    && "type" in f && f["type"] == JString(SdpTypeName(d.sdpType))
    && ("sdp" in f <==> d.sdp.Some?)
    && (d.sdp.Some? ==> f["sdp"] == JString(d.sdp.value))
  }

  /**
   * What a validated message carries is its own payload: the decoded
   * candidate or description is read off the `payload` key, field by field,
   * whatever undeclared keys the data has besides.
   */
  lemma {:induction false} DecodedPayloadHolds(v: Json, m: SignalingMessage)
    requires Decode(v) == Some(m)
    ensures v.JObject? && "payload" in v.fields && v.fields["payload"].JObject?
    ensures m.CandidateMessage? ==> HoldsCandidate(v.fields["payload"].fields, m.candidate)
    ensures m.OfferMessage? ==> HoldsDescription(v.fields["payload"].fields, m.offer)
    ensures m.AnswerMessage? ==> HoldsDescription(v.fields["payload"].fields, m.answer)
  {
    var payload := v.fields["payload"];
    if m.CandidateMessage? {
      DecodedCandidateHolds(payload, m.candidate);
    }
  }

  /** A raw string is never a message: the union only accepts objects. */
  lemma StringValueRejected(s: string)
    ensures !Accepts(JString(s)) && Decode(JString(s)) == None
  {
  }

  /** What `parseSignalingMessage` yields from a string is exactly the message the decoder reads from the parsed value. */
  lemma ParseAppliesSchema(s: string, jsonParse: string -> Option<Json>, v: Json)
    requires jsonParse(s) == Some(v)
    ensures forall m :: ParseSignalingMessage(JString(s), jsonParse) == Parsed(m) <==> Decode(v) == Some(m)
  {
  }
}
