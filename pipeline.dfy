// The request pipeline both handler packages run, as one specification:
// decode the body, authenticate it, branch on the interaction type,
// sub-decode and dispatch a command, encode the reply, and map the outcome
// to a status code. The handler classes in handler.dfy and
// service_handler.dfy are proved against `Respond`.

module Pipeline {
  import opened Base
  import opened Json
  import opened Hex
  import opened Model
  import opened Authorizer
  import opened Responses
  import opened Interactions

  /** An events.APIGatewayProxyRequest: the raw body and the headers. */
  datatype Request = Request(body: Bytes, headers: map<string, Bytes>)

  const SignatureHeader: string := "x-signature-ed25519"
  const TimestampHeader: string := "x-signature-timestamp"

  /** `event.Headers[name]`: a missing header reads as the empty string. */
  function Header(request: Request, name: string): (value: Bytes)
    ensures name !in request.headers ==> value == []
    ensures name in request.headers ==> value == request.headers[name]
  {
    if name in request.headers then request.headers[name] else []
  }

  /**
   * The library code the pipeline calls but that is not modelled: reading JSON
   * text into a value (None for text that is not JSON) and Ed25519
   * verification.
   */
  datatype Externals = Externals(parseJson: Bytes -> Option<Json>, verify: Verifier)

  /**
   * json.Unmarshal of the body into a zero Interaction: text that is not JSON
   * is a SyntaxError before UnmarshalJSON runs; otherwise UnmarshalJSON
   * decides.
   */
  function DecodeBody(ext: Externals, body: Bytes): (r: Result<Interaction, Error>)
    ensures ext.parseJson(body).None? ==> r == Failure(SyntaxError)
    ensures ext.parseJson(body).Some? ==> r == DecodeInteraction(ZeroInteraction, ext.parseJson(body).value)
  {
    match ext.parseJson(body)
    case None => Failure(SyntaxError)
    case Some(doc) => DecodeInteraction(ZeroInteraction, doc)
  }

  /** The signature check over the raw body and the two signature headers. */
  predicate Authentic(ext: Externals, publicKey: Bytes, request: Request) {
    ValidateRequest(ext.verify, publicKey, request.body, Header(request, SignatureHeader), Header(request, TimestampHeader))
  }

  /**
   * An error reaching a `return InternalServerError(err)`: a returned error
   * gives 500; a panic never returns and unwinds the invocation instead.
   */
  function Fail(e: Error): (r: Invocation)
    ensures e.IsPanic() ==> r == Panicked(e)
    ensures !e.IsPanic() ==> r == InternalServerError(Some(e))
  {
    if e.IsPanic() then Panicked(e) else InternalServerError(Some(e))
  }

  /**
   * What can follow a passed signature check: a 200, or a 500 with an empty
   * body; an error only with the 500; a panic only from a failed assertion.
   */
  predicate AnsweredAfterAuthentication(r: Invocation) {
    && (r.Returned? ==> r.response.statusCode == 200 || (r.response.statusCode == 500 && r.response.body.NoText?))
    && (r.Returned? && r.err.Some? ==> r.response.statusCode == 500)
    && (r.Panicked? ==> r.cause.IsPanic())
  }

  /**
   * The end of the application-command branch: a handler error is returned as
   * a 500; a reply is encoded and sent with 200. An encoding error is
   * assigned to the case-local `err` that shadows the outer one, so it is
   * never seen: the reply is then 200 with an empty body.
   */
  function Reply(outcome: Result<InteractionResponse, Error>): (r: Invocation)
    ensures AnsweredAfterAuthentication(r)
    ensures r.Returned? && r.response.statusCode == 500 <==> outcome.Failure? && !outcome.error.IsPanic()
  {
    match outcome
    case Failure(e) => Fail(e)
    case Success(response) =>
      match MarshalResponse(response)
      case Success(j) => Ok(Text(j))
      case Failure(_) => Ok(NoText)
  }

  /**
   * The switch on the interaction type after authentication. A command whose
   * `data` text does not decode is a 500 carrying the stale, nil `err`. The
   * switch has no default branch: any other type is a 200 with an empty body.
   */
  function RespondTo(handlers: map<string, Handler>, interaction: Interaction): (r: Invocation)
    ensures AnsweredAfterAuthentication(r)
  {
    if interaction.interactionType == 1 then
      match MarshalResponse(InteractionPing())
      case Success(j) => Ok(Text(j))
      case Failure(e) => InternalServerError(Some(e))
    else if interaction.interactionType == 2 then
      match UnmarshalCommand(interaction.data)
      case Failure(_) => InternalServerError(None)
      case Success(command) => Reply(Dispatched(handlers, command))
    else Ok(NoText)
  }

  /**
   * The handler closure: decode the body, then authenticate, then respond.
   * Every returned outcome is 200, 401 or 500; only a 500 carries an error
   * and only a 200 a body; 401 is given exactly to a well-formed body whose
   * signature does not check; a panic is always a failed type assertion.
   */
  function Respond(ext: Externals, config: BotConfig, request: Request): (r: Invocation)
    ensures r.Returned? ==> r.response.statusCode in {200, 401, 500}
    ensures r.Returned? && r.err.Some? ==> r.response.statusCode == 500
    ensures r.Returned? && r.response.statusCode != 200 ==> r.response.body.NoText?
    ensures (r.Returned? && r.response.statusCode == 401) <==>
            DecodeBody(ext, request.body).Success? && !Authentic(ext, config.publicKey, request)
    ensures r.Panicked? ==> r.cause.IsPanic()
  {
    match DecodeBody(ext, request.body)
    case Failure(e) => Fail(e)
    case Success(interaction) =>
      if !Authentic(ext, config.publicKey, request) then Unauthorized()
      else RespondTo(config.handlers, interaction)
  }

  // ---------------------------------------------------------------------
  // Properties of the pipeline

  /**
   * A body that does not decode is answered before any signature check: the
   * headers and the configuration play no part, so a bad body with bad
   * headers is a 500, not a 401.
   */
  lemma DecodeBeforeAuthentication(ext: Externals, c1: BotConfig, c2: BotConfig, r1: Request, r2: Request)
    requires r1.body == r2.body
    requires DecodeBody(ext, r1.body).Failure?
    ensures Respond(ext, c1, r1) == Respond(ext, c2, r2) == Fail(DecodeBody(ext, r1.body).error)
  {
  }

  /** Body text that is not JSON is a 500 that hands back the syntax error. */
  lemma MalformedBodyIsServerError(ext: Externals, config: BotConfig, request: Request)
    requires ext.parseJson(request.body).None?
    ensures Respond(ext, config, request) == InternalServerError(Some(SyntaxError))
  {
  }

  /**
   * A signature header with a byte that is not a hexadecimal digit is a 401
   * for any well-formed body, whatever the key.
   */
  lemma NonHexSignatureIsUnauthorized(ext: Externals, config: BotConfig, request: Request, i: int)
    requires DecodeBody(ext, request.body).Success?
    requires 0 <= i < |Header(request, SignatureHeader)| && !IsHexDigit(Header(request, SignatureHeader)[i])
    ensures Respond(ext, config, request) == Unauthorized()
  {
    var sig := Header(request, SignatureHeader);
    HexDecodeSucceeds(sig);
  }

  /**
   * Headers built from a raw key and signature with hex.Encode are accepted
   * exactly when Ed25519 accepts the signature over timestamp || body; an
   * altered timestamp or body that Ed25519 rejects is a 401.
   */
  lemma EncodedHeadersAuthenticate(ext: Externals, config: BotConfig, request: Request, key: Bytes, sig: Bytes)
    requires config.publicKey == HexEncode(key)
    requires Header(request, SignatureHeader) == HexEncode(sig)
    ensures Authentic(ext, config.publicKey, request) == ext.verify(key, Header(request, TimestampHeader) + request.body, sig)
    ensures DecodeBody(ext, request.body).Success? && !ext.verify(key, Header(request, TimestampHeader) + request.body, sig) ==>
      Respond(ext, config, request) == Unauthorized()
  {
    EncodedArtifactsValidate(ext.verify, key, request.body, sig, Header(request, TimestampHeader));
  }

  /** The serialised pong. */
  const PingJson := Object([("type", Number(1)), ("data", Object([("tts", Bool(false))]))])

  /** An authentic ping is a 200 whose body is {"type":1,"data":{"tts":false}}. */
  lemma AuthenticPingIsPong(ext: Externals, config: BotConfig, request: Request)
    requires DecodeBody(ext, request.body).Success? && DecodeBody(ext, request.body).value.interactionType == 1
    requires Authentic(ext, config.publicKey, request)
    ensures Respond(ext, config, request) == Ok(Text(PingJson))
  {
    PingEncoding();
  }

  /**
   * An authentic application command reaches the registry as exactly the
   * command in the body's `data` object, and its outcome is the reply.
   */
  lemma AuthenticCommandIsDispatched(ext: Externals, config: BotConfig, request: Request, ms: seq<(string, Json)>)
    requires ext.parseJson(request.body) == Some(Object(ms))
    requires DecodeInteraction(ZeroInteraction, Object(ms)).Success?
    requires NumberOr(Get(ms, "type"), 0) == 2 && Present(ms, "data")
    requires Authentic(ext, config.publicKey, request)
    ensures DecodeCommand(Get(ms, "data").value).Success?
    ensures Respond(ext, config, request) == Reply(Dispatched(config.handlers, DecodeCommand(Get(ms, "data").value).value))
  {
    DataRoundTrip(ZeroInteraction, ms);
  }

  /**
   * An authentic application command without `data` is a 500 whose error is
   * nil: the sub-decode of the empty string fails and the stale `err` is
   * handed back.
   */
  lemma MissingDataIsServerErrorWithoutError(ext: Externals, config: BotConfig, request: Request, ms: seq<(string, Json)>)
    requires ext.parseJson(request.body) == Some(Object(ms))
    requires DecodeInteraction(ZeroInteraction, Object(ms)).Success?
    requires NumberOr(Get(ms, "type"), 0) == 2 && !Present(ms, "data")
    requires Authentic(ext, config.publicKey, request)
    ensures Respond(ext, config, request) == InternalServerError(None)
  {
    DataRoundTrip(ZeroInteraction, ms);
  }

  /** Any interaction type other than 1 and 2 is a 200 with an empty body. */
  lemma OtherTypeIsEmptyOk(ext: Externals, config: BotConfig, request: Request)
    requires DecodeBody(ext, request.body).Success?
    requires DecodeBody(ext, request.body).value.interactionType !in {1, 2}
    requires Authentic(ext, config.publicKey, request)
    ensures Respond(ext, config, request) == Ok(NoText)
  {
  }

  /**
   * The reply to a dispatched command: a returned handler error is a 500 with
   * that error, a panic unwinds, an encodable response is a 200 carrying its
   * encoding, and an unencodable one is a 200 with an empty body and no error.
   */
  lemma ReplyOutcomes(outcome: Result<InteractionResponse, Error>)
    ensures outcome.Failure? && !outcome.error.IsPanic() ==> Reply(outcome) == InternalServerError(Some(outcome.error))
    ensures outcome.Failure? && outcome.error.IsPanic() ==> Reply(outcome) == Panicked(outcome.error)
    ensures outcome.Success? && EncodableData(outcome.value.data) ==>
      Reply(outcome) == Ok(Text(MarshalResponse(outcome.value).value)) &&
      Get(MarshalResponse(outcome.value).value.members, "type") == Some(Number(outcome.value.responseType))
    ensures outcome.Success? && !EncodableData(outcome.value.data) ==> Reply(outcome) == Ok(NoText)
  {
    if outcome.Success? {
      ResponseFieldOmission(outcome.value);
    }
  }

  /** The handler the service registers under "poke" (service/main.go). */
  const Poke: Handler := command => Success(ChannelMessage("Hello, world!"))

  /** The body of the application-command test: {"type":2,"data":{...,"name":"poke",...}}. */
  const PokeBody: Json := Object([
    ("type", Number(2)),
    ("data", Object([
      ("id", String("123456789")),
      ("name", String("poke")),
      ("options", Array([Object([("name", String("poke")), ("value", String("test"))])]))]))])

  /** The options of the poke command, kept as an opaque value. */
  const PokeOptions: Json := Array([Object([("name", String("poke")), ("value", String("test"))])])

  /** The `data` object of the poke body decodes as the command named "poke". */
  lemma PokeDataDecodes()
    ensures PokeBody.members[1].1.Object?
    ensures DecodeCommand(PokeBody.members[1].1) ==
      Success(ApplicationCommand("123456789", "poke", 0, None, Some(PokeOptions), "", ""))
  {
    var dm := PokeBody.members[1].1.members;
    GetUnique(dm, "id", 0);
    GetUnique(dm, "name", 1);
    GetUnique(dm, "options", 2);
    GetFindsLast(dm, "type");
    GetFindsLast(dm, "resolved");
    GetFindsLast(dm, "guild_id");
    GetFindsLast(dm, "target_id");
  }

  /** The keys of the poke body: `type` and `data` are bound, the other decoded keys are absent. */
  lemma PokeEnvelopeKeys()
    ensures Get(PokeBody.members, "type") == Some(Number(2))
    ensures Get(PokeBody.members, "data") == Some(PokeBody.members[1].1)
    ensures Get(PokeBody.members, "id").None?
    ensures Get(PokeBody.members, "application_id").None?
    ensures Get(PokeBody.members, "guild_id").None?
    ensures Get(PokeBody.members, "channel_id").None?
    ensures Get(PokeBody.members, "token").None?
    ensures Get(PokeBody.members, "application_permission").None?
    ensures Get(PokeBody.members, "locale").None?
    ensures Get(PokeBody.members, "guild_locale").None?
  {
    var ms := PokeBody.members;
    GetUnique(ms, "type", 0);
    GetUnique(ms, "data", 1);
    GetFindsLast(ms, "id");
    GetFindsLast(ms, "application_id");
    GetFindsLast(ms, "guild_id");
    GetFindsLast(ms, "channel_id");
    GetFindsLast(ms, "token");
    GetFindsLast(ms, "application_permission");
    GetFindsLast(ms, "locale");
    GetFindsLast(ms, "guild_locale");
  }

  /** The poke body decodes as an application command (type 2) carrying `data`. */
  lemma PokeEnvelopeDecodes()
    ensures DecodeInteraction(ZeroInteraction, PokeBody).Success?
    ensures NumberOr(Get(PokeBody.members, "type"), 0) == 2
    ensures Present(PokeBody.members, "data") && Get(PokeBody.members, "data") == Some(PokeBody.members[1].1)
  {
    PokeEnvelopeKeys();
    PokeDataDecodes();
    FirstKeyErrorUnrolled(PokeBody.members);
  }

  /** The reply "Hello, world!" encodes as type 4 with `tts` false and the content. */
  lemma HelloEncoding()
    ensures MarshalResponse(ChannelMessage("Hello, world!")) ==
      Success(Object([("type", Number(4)), ("data", Object([("tts", Bool(false)), ("content", String("Hello, world!"))]))]))
  {
    var d := ChannelMessage("Hello, world!").data;
    assert EncodableData(d);
    assert DataMembers(d) == [("tts", Bool(false))] + [("content", String("Hello, world!"))] + [] + [] + [] + [] + [];
    assert DataMembers(d) == [("tts", Bool(false)), ("content", String("Hello, world!"))];
  }

  /**
   * The poke scenario: an authentic poke command with "poke" registered is a
   * 200 whose body is a channel message (type 4) saying "Hello, world!", not
   * read aloud.
   */
  lemma AuthenticPokeIsAnswered(ext: Externals, config: BotConfig, request: Request)
    requires ext.parseJson(request.body) == Some(PokeBody)
    requires "poke" in config.handlers && config.handlers["poke"] == Poke
    requires Authentic(ext, config.publicKey, request)
    ensures Respond(ext, config, request) ==
      Ok(Text(Object([("type", Number(4)), ("data", Object([("tts", Bool(false)), ("content", String("Hello, world!"))]))])))
  {
    PokeEnvelopeDecodes();
    PokeDataDecodes();
    AuthenticCommandIsDispatched(ext, config, request, PokeBody.members);
    HelloEncoding();
  }
}
