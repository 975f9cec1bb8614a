// The shapes of model/model.go and the JSON behaviour of their field tags:
// MentionType.String, ApplicationCommand (decoded and re-encoded with
// `omitempty`), InteractionResponse (encoded with `omitempty`), the
// bot configuration, and Interaction.UnmarshalJSON, the two-pass envelope
// decoder.

module Model {
  import opened Base
  import opened Json

  // ---------------------------------------------------------------------
  // MentionType

  const MentionTypeRoles := 0
  const MentionTypeUsers := 1
  const MentionTypeEveryone := 2

  /**
   * MentionType.String indexes a three-element array, so any other value
   * is an out-of-range index (a Go panic); callers must stay in range.
   */
  function MentionTypeName(m: int): (name: string)
    requires MentionTypeRoles <= m <= MentionTypeEveryone
    ensures m == MentionTypeRoles ==> name == "roles"
    ensures m == MentionTypeUsers ==> name == "users"
    ensures m == MentionTypeEveryone ==> name == "everyone"
  {
    ["roles", "users", "everyone"][m]
  }

  /** Distinct mention types have distinct names. */
  lemma MentionTypeNamesDistinct(m: int, n: int)
    requires MentionTypeRoles <= m <= MentionTypeEveryone
    requires MentionTypeRoles <= n <= MentionTypeEveryone
    requires m != n
    ensures MentionTypeName(m) != MentionTypeName(n)
  {
  }

  // ---------------------------------------------------------------------
  // Decoding fields of a typed struct with encoding/json

  /** A value a Go `string` field accepts: absent, null (field untouched) or a string. */
  predicate FitsString(v: Option<Json>) {
    v.None? || v.value.Null? || v.value.String?
  }

  /** A value a Go `int` field accepts: absent, null or a number. */
  predicate FitsNumber(v: Option<Json>) {
    v.None? || v.value.Null? || v.value.Number?
  }

  /** The string a field ends up holding: the decoded string, or `prior` when absent or null. */
  function StringOr(v: Option<Json>, prior: string): string {
    if v.Some? && v.value.String? then v.value.s else prior
  }

  /** The number a field ends up holding: the decoded number, or `prior` when absent or null. */
  function NumberOr(v: Option<Json>, prior: int): int {
    if v.Some? && v.value.Number? then v.value.n else prior
  }

  /** An `any` field: null decodes to a nil interface, absence leaves `prior`. */
  function AnyOr(v: Option<Json>, prior: Option<Json>): Option<Json> {
    match v
    case None => prior
    case Some(Null) => None
    case Some(x) => Some(x)
  }

  // ---------------------------------------------------------------------
  // ApplicationCommand

  /** An application command; `resolved` and `options` are opaque `any` values, None being nil. */
  datatype ApplicationCommand = ApplicationCommand(
    id: string,
    name: string,
    commandType: int,
    resolved: Option<Json>,
    options: Option<Json>,
    guildId: string,
    targetId: string)

  const ZeroCommand := ApplicationCommand("", "", 0, None, None, "", "")

  /** What decoding can produce: a non-nil `any` never holds JSON null. */
  predicate WellFormedCommand(c: ApplicationCommand) {
    c.resolved != Some(Null) && c.options != Some(Null)
  }

  /**
   * json.Unmarshal of a JSON value into a fresh ApplicationCommand. Unknown
   * keys are dropped; null leaves a field untouched; a value of the wrong kind
   * for a string or int field is an UnmarshalTypeError.
   */
  function DecodeCommand(j: Json): (r: Result<ApplicationCommand, Error>)
    ensures r.Success? ==> WellFormedCommand(r.value)
    ensures r.Failure? ==> r.error == UnmarshalType
  {
    match j
    case Null => Success(ZeroCommand)
    case Object(ms) =>
      if FitsString(Get(ms, "id")) && FitsString(Get(ms, "name")) && FitsNumber(Get(ms, "type"))
         && FitsString(Get(ms, "guild_id")) && FitsString(Get(ms, "target_id"))
      then
        Success(ApplicationCommand(
          StringOr(Get(ms, "id"), ""),
          StringOr(Get(ms, "name"), ""),
          NumberOr(Get(ms, "type"), 0),
          AnyOr(Get(ms, "resolved"), None),
          AnyOr(Get(ms, "options"), None),
          StringOr(Get(ms, "guild_id"), ""),
          StringOr(Get(ms, "target_id"), "")))
      else Failure(UnmarshalType)
    case _ => Failure(UnmarshalType)
  }

  /** An optional member: included when `present`, as `omitempty` does. */
  function OptionalMember(present: bool, key: string, v: Json): seq<(string, Json)> {
    if present then [(key, v)] else []
  }

  /** An optional member binds its key exactly when it is included. */
  lemma GetOptional(present: bool, key: string, v: Json, k: string)
    ensures Get(OptionalMember(present, key, v), k) == if present && key == k then Some(v) else None
  {
    if present {
      assert OptionalMember(present, key, v)[..0] == [];
    }
  }

  /** Appending an optional member: it wins when included and binds the key. */
  lemma GetAfterOptional(a: seq<(string, Json)>, present: bool, k: string, v: Json, key: string)
    ensures Get(a + OptionalMember(present, k, v), key) == if present && k == key then Some(v) else Get(a, key)
  {
    GetAppend(a, OptionalMember(present, k, v), key);
    GetOptional(present, k, v, key);
  }

  /**
   * json.Marshal of an ApplicationCommand: id, name and type always, then
   * resolved, options, guild_id and target_id only when non-empty.
   */
  function EncodeCommand(c: ApplicationCommand): Json {
    Object([("id", String(c.id)), ("name", String(c.name)), ("type", Number(c.commandType))]
      + OptionalMember(c.resolved.Some?, "resolved", if c.resolved.Some? then c.resolved.value else Null)
      + OptionalMember(c.options.Some?, "options", if c.options.Some? then c.options.value else Null)
      + OptionalMember(c.guildId != "", "guild_id", String(c.guildId))
      + OptionalMember(c.targetId != "", "target_id", String(c.targetId)))
  }

  /**
   * A lookup in an encoded command: id, name and type are always bound, and
   * each optional member is bound exactly when its field is not empty.
   */
  lemma CommandMembersLookup(c: ApplicationCommand, key: string)
    ensures Get(EncodeCommand(c).members, key) ==
      if key == "target_id" && c.targetId != "" then Some(String(c.targetId))
      else if key == "guild_id" && c.guildId != "" then Some(String(c.guildId))
      else if key == "options" && c.options.Some? then Some(c.options.value)
      else if key == "resolved" && c.resolved.Some? then Some(c.resolved.value)
      else if key == "type" then Some(Number(c.commandType))
      else if key == "name" then Some(String(c.name))
      else if key == "id" then Some(String(c.id))
      else None
  {
    var fixed: seq<(string, Json)> := [("id", String(c.id)), ("name", String(c.name)), ("type", Number(c.commandType))];
    var resolved := if c.resolved.Some? then c.resolved.value else Null;
    var options := if c.options.Some? then c.options.value else Null;
    var r := fixed + OptionalMember(c.resolved.Some?, "resolved", resolved);
    var o := r + OptionalMember(c.options.Some?, "options", options);
    var g := o + OptionalMember(c.guildId != "", "guild_id", String(c.guildId));
    assert EncodeCommand(c).members == g + OptionalMember(c.targetId != "", "target_id", String(c.targetId));
    assert Get(fixed, key) == if key == "type" then Some(Number(c.commandType))
      else if key == "name" then Some(String(c.name)) else if key == "id" then Some(String(c.id)) else None by {
      GetFindsLast(fixed, key);
      if key == "type" { GetUnique(fixed, key, 2); }
      else if key == "name" { GetUnique(fixed, key, 1); }
      else if key == "id" { GetUnique(fixed, key, 0); }
    }
    GetAfterOptional(fixed, c.resolved.Some?, "resolved", resolved, key);
    GetAfterOptional(r, c.options.Some?, "options", options, key);
    GetAfterOptional(o, c.guildId != "", "guild_id", String(c.guildId), key);
    GetAfterOptional(g, c.targetId != "", "target_id", String(c.targetId), key);
  }

  /** id, name and type are always encoded, and the optional members do not rebind them. */
  lemma EncodedCommandRequired(c: ApplicationCommand)
    ensures Get(EncodeCommand(c).members, "id") == Some(String(c.id))
    ensures Get(EncodeCommand(c).members, "name") == Some(String(c.name))
    ensures Get(EncodeCommand(c).members, "type") == Some(Number(c.commandType))
  {
    CommandMembersLookup(c, "id");
    CommandMembersLookup(c, "name");
    CommandMembersLookup(c, "type");
  }

  /** `resolved` is encoded exactly when the field is not empty. */
  lemma EncodedResolved(c: ApplicationCommand)
    ensures Get(EncodeCommand(c).members, "resolved") == if c.resolved.Some? then Some(c.resolved.value) else None
  {
    CommandMembersLookup(c, "resolved");
  }

  /** `options` is encoded exactly when the field is not empty. */
  lemma EncodedOptions(c: ApplicationCommand)
    ensures Get(EncodeCommand(c).members, "options") == if c.options.Some? then Some(c.options.value) else None
  {
    CommandMembersLookup(c, "options");
  }

  /** `guild_id` is encoded exactly when the field is not empty. */
  lemma EncodedGuildId(c: ApplicationCommand)
    ensures Get(EncodeCommand(c).members, "guild_id") == if c.guildId != "" then Some(String(c.guildId)) else None
  {
    CommandMembersLookup(c, "guild_id");
  }

  /** `target_id` is encoded exactly when the field is not empty. */
  lemma EncodedTargetId(c: ApplicationCommand)
    ensures Get(EncodeCommand(c).members, "target_id") == if c.targetId != "" then Some(String(c.targetId)) else None
  {
    CommandMembersLookup(c, "target_id");
  }

  /**
   * The second decoding pass gives back the command the first pass stored:
   * id, name and type always survive, and the omitted optional fields come
   * back as their zero values.
   */
  lemma CommandRoundTrip(c: ApplicationCommand)
    requires WellFormedCommand(c)
    ensures DecodeCommand(EncodeCommand(c)) == Success(c)
  {
    EncodedCommandRequired(c);
    EncodedResolved(c);
    EncodedOptions(c);
    EncodedGuildId(c);
    EncodedTargetId(c);
  }

  // ---------------------------------------------------------------------
  // InteractionResponse

  /**
   * An opaque pass-through value held in an `any` or pointer field: nil, a
   * value whose encoding is `json`, or a value json.Marshal refuses.
   */
  datatype Any = Nil | Value(json: Json) | Unencodable

  datatype InteractionResponseData = InteractionResponseData(
    tts: bool,
    content: string,
    embeds: seq<Any>,
    allowedMentions: Any,
    flags: int,
    components: Any,
    attachments: Any)

  datatype InteractionResponse = InteractionResponse(responseType: int, data: InteractionResponseData)

  const ZeroResponseData := InteractionResponseData(false, "", [], Nil, 0, Nil, Nil)

  /** An immediate channel message (response type 4) carrying `content`, not read aloud. */
  function ChannelMessage(content: string): InteractionResponse {
    InteractionResponse(4, ZeroResponseData.(content := content, tts := false))
  }

  /** The JSON of an opaque value: nil is null. */
  function AnyJson(a: Any): Json {
    if a.Value? then a.json else Null
  }

  /** json.Marshal succeeds on the data exactly when no opaque value is unencodable. */
  predicate EncodableData(d: InteractionResponseData) {
    && !d.allowedMentions.Unencodable?
    && !d.components.Unencodable?
    && !d.attachments.Unencodable?
    && forall k :: 0 <= k < |d.embeds| ==> !d.embeds[k].Unencodable?
  }

  /** The members of an encoded InteractionResponseData, in declaration order. */
  function DataMembers(d: InteractionResponseData): seq<(string, Json)> {
    [("tts", Bool(d.tts))]
    + OptionalMember(d.content != "", "content", String(d.content))
    + OptionalMember(|d.embeds| > 0, "embeds", EmbedsJson(d))
    + OptionalMember(!d.allowedMentions.Nil?, "allowed_mentions", AnyJson(d.allowedMentions))
    + OptionalMember(d.flags != 0, "flags", Number(d.flags))
    + OptionalMember(!d.components.Nil?, "components", AnyJson(d.components))
    + OptionalMember(!d.attachments.Nil?, "attachments", AnyJson(d.attachments))
  }

  /**
   * json.Marshal of an InteractionResponse: `type` and `data` always, and
   * within `data` the field `tts` always and every other field only when it
   * is not empty.
   */
  function MarshalResponse(r: InteractionResponse): Result<Json, Error> {
    if EncodableData(r.data) then
      Success(Object([("type", Number(r.responseType)), ("data", Object(DataMembers(r.data)))]))
    else Failure(UnsupportedValue)
  }

  /** The encoded `embeds` member: each element's JSON, in order. */
  function EmbedsJson(d: InteractionResponseData): Json {
    Array(seq(|d.embeds|, k requires 0 <= k < |d.embeds| => AnyJson(d.embeds[k])))
  }

  /**
   * A lookup in encoded response data: `tts` is always bound, and each
   * `omitempty` member is bound exactly when its field is not empty.
   */
  lemma DataMembersLookup(d: InteractionResponseData, key: string)
    ensures Get(DataMembers(d), key) ==
      if key == "attachments" && !d.attachments.Nil? then Some(AnyJson(d.attachments))
      else if key == "components" && !d.components.Nil? then Some(AnyJson(d.components))
      else if key == "flags" && d.flags != 0 then Some(Number(d.flags))
      else if key == "allowed_mentions" && !d.allowedMentions.Nil? then Some(AnyJson(d.allowedMentions))
      else if key == "embeds" && |d.embeds| > 0 then Some(EmbedsJson(d))
      else if key == "content" && d.content != "" then Some(String(d.content))
      else if key == "tts" then Some(Bool(d.tts))
      else None
  {
    var t := [("tts", Bool(d.tts))];
    var c := t + OptionalMember(d.content != "", "content", String(d.content));
    var e := c + OptionalMember(|d.embeds| > 0, "embeds", EmbedsJson(d));
    var a := e + OptionalMember(!d.allowedMentions.Nil?, "allowed_mentions", AnyJson(d.allowedMentions));
    var f := a + OptionalMember(d.flags != 0, "flags", Number(d.flags));
    var p := f + OptionalMember(!d.components.Nil?, "components", AnyJson(d.components));
    assert DataMembers(d) == p + OptionalMember(!d.attachments.Nil?, "attachments", AnyJson(d.attachments));
    assert Get(e, key) ==
      if key == "embeds" && |d.embeds| > 0 then Some(EmbedsJson(d))
      else if key == "content" && d.content != "" then Some(String(d.content))
      else if key == "tts" then Some(Bool(d.tts))
      else None
    by {
      GetOptional(true, "tts", Bool(d.tts), key);
      assert t == OptionalMember(true, "tts", Bool(d.tts));
      GetAfterOptional(t, d.content != "", "content", String(d.content), key);
      GetAfterOptional(c, |d.embeds| > 0, "embeds", EmbedsJson(d), key);
    }
    assert Get(f, key) ==
      if key == "flags" && d.flags != 0 then Some(Number(d.flags))
      else if key == "allowed_mentions" && !d.allowedMentions.Nil? then Some(AnyJson(d.allowedMentions))
      else Get(e, key)
    by {
      GetAfterOptional(e, !d.allowedMentions.Nil?, "allowed_mentions", AnyJson(d.allowedMentions), key);
      GetAfterOptional(a, d.flags != 0, "flags", Number(d.flags), key);
    }
    GetAfterOptional(f, !d.components.Nil?, "components", AnyJson(d.components), key);
    GetAfterOptional(p, !d.attachments.Nil?, "attachments", AnyJson(d.attachments), key);
  }

  /** `tts` is always encoded. */
  lemma DataTts(d: InteractionResponseData)
    ensures Get(DataMembers(d), "tts") == Some(Bool(d.tts))
  {
    DataMembersLookup(d, "tts");
  }

  /** `content` is encoded exactly when the field is not empty. */
  lemma DataContent(d: InteractionResponseData)
    ensures Get(DataMembers(d), "content") == if d.content != "" then Some(String(d.content)) else None
  {
    DataMembersLookup(d, "content");
  }

  /** `embeds` is encoded exactly when the field is not empty. */
  lemma DataEmbeds(d: InteractionResponseData)
    ensures Get(DataMembers(d), "embeds") == if |d.embeds| > 0 then Some(EmbedsJson(d)) else None
  {
    DataMembersLookup(d, "embeds");
  }

  /** `allowed_mentions` is encoded exactly when the field is not empty. */
  lemma DataAllowedMentions(d: InteractionResponseData)
    ensures Get(DataMembers(d), "allowed_mentions") == if !d.allowedMentions.Nil? then Some(AnyJson(d.allowedMentions)) else None
  {
    DataMembersLookup(d, "allowed_mentions");
  }

  /** `flags` is encoded exactly when the field is not empty. */
  lemma DataFlags(d: InteractionResponseData)
    ensures Get(DataMembers(d), "flags") == if d.flags != 0 then Some(Number(d.flags)) else None
  {
    DataMembersLookup(d, "flags");
  }

  /** `components` is encoded exactly when the field is not empty. */
  lemma DataComponents(d: InteractionResponseData)
    ensures Get(DataMembers(d), "components") == if !d.components.Nil? then Some(AnyJson(d.components)) else None
  {
    DataMembersLookup(d, "components");
  }

  /** `attachments` is encoded exactly when the field is not empty. */
  lemma DataAttachments(d: InteractionResponseData)
    ensures Get(DataMembers(d), "attachments") == if !d.attachments.Nil? then Some(AnyJson(d.attachments)) else None
  {
    DataMembersLookup(d, "attachments");
  }

  /**
   * What a reader of the encoded response finds: the type, the data object,
   * `tts` always, and each `omitempty` field present exactly when it is not
   * empty, holding the field's value.
   */
  lemma ResponseFieldOmission(r: InteractionResponse)
    ensures MarshalResponse(r).Success? <==> EncodableData(r.data)
    ensures MarshalResponse(r).Success? ==>
      var j := MarshalResponse(r).value;
      && j.Object?
      && Get(j.members, "type") == Some(Number(r.responseType))
      && Get(j.members, "data") == Some(Object(DataMembers(r.data)))
      && var dm := DataMembers(r.data);
         && Get(dm, "tts") == Some(Bool(r.data.tts))
         && Get(dm, "content") == (if r.data.content != "" then Some(String(r.data.content)) else None)
         && Get(dm, "flags") == (if r.data.flags != 0 then Some(Number(r.data.flags)) else None)
         && Get(dm, "embeds") == (if |r.data.embeds| > 0 then Some(EmbedsJson(r.data)) else None)
         && Get(dm, "allowed_mentions") == (if !r.data.allowedMentions.Nil? then Some(AnyJson(r.data.allowedMentions)) else None)
         && Get(dm, "components") == (if !r.data.components.Nil? then Some(AnyJson(r.data.components)) else None)
         && Get(dm, "attachments") == (if !r.data.attachments.Nil? then Some(AnyJson(r.data.attachments)) else None)
  {
    DataTts(r.data);
    DataContent(r.data);
    DataFlags(r.data);
    DataEmbeds(r.data);
    DataAllowedMentions(r.data);
    DataComponents(r.data);
    DataAttachments(r.data);
    if EncodableData(r.data) {
      var j := MarshalResponse(r).value;
      GetUnique(j.members, "type", 0);
      GetUnique(j.members, "data", 1);
    }
  }

  // ---------------------------------------------------------------------
  // Configuration

  /** A command handler: `func(ctx, ApplicationCommand) (InteractionResponse, error)`. */
  type Handler = ApplicationCommand -> Result<InteractionResponse, Error>

  /** The bot configuration: the hex-encoded public key and the command registry. */
  datatype BotConfig = BotConfig(publicKey: Bytes, handlers: map<string, Handler>)

  /** The zero BotConfig, which the package-level variable holds before NewHandler. */
  function ZeroConfig(): BotConfig {
    BotConfig([], map[])
  }

  // ---------------------------------------------------------------------
  // Interaction

  datatype User = User(
    id: string, username: string, discriminator: string, avatar: string,
    bot: bool, system: bool, mfaEnabled: bool, banner: string, accentColor: int,
    locale: string, verified: bool, email: string, flags: int, premiumType: int,
    publicFlags: int)

  const ZeroUser := User("", "", "", "", false, false, false, "", 0, "", false, "", 0, 0, 0)

  /** The interaction envelope. `data` holds the re-encoded ApplicationCommand as JSON text. */
  datatype Interaction = Interaction(
    id: string,
    applicationId: string,
    interactionType: int,
    data: JsonText,
    guildId: string,
    channel: Any,
    channelId: string,
    member: Any,
    user: User,
    token: string,
    version: int,
    message: Any,
    appPermission: int,
    locale: string,
    guildLocale: string)

  const ZeroInteraction := Interaction("", "", 0, NoText, "", Nil, "", Nil, ZeroUser, "", 0, Nil, 0, "", "")

  /** The keys UnmarshalJSON reads, in the order it reads them. */
  const DecodedKeys: seq<string> :=
    ["id", "application_id", "type", "data", "guild_id", "channel_id", "token",
     "application_permission", "locale", "guild_locale"]

  /** The keys read through an unchecked `.(float64)` assertion. */
  predicate IsNumberKey(key: string) {
    key == "type" || key == "application_permission"
  }

  /**
   * The error reading `key` raises, if any: none when the key is absent or
   * null; a panic when the value is not of the asserted kind; for `data`, also
   * the error of decoding it as an ApplicationCommand.
   */
  function KeyError(members: seq<(string, Json)>, key: string): (r: Option<Error>)
    ensures r.Some? ==> Present(members, key)
    ensures r.Some? ==> r.value == TypeAssertion(key) || (key == "data" && r.value == UnmarshalType)
  {
    if !Present(members, key) then None
    else
      var v := Get(members, key).value;
      if IsNumberKey(key) then (if v.Number? then None else Some(TypeAssertion(key)))
      else if key == "data" then
        (if !v.Object? then Some(TypeAssertion(key))
         else if DecodeCommand(v).Failure? then Some(DecodeCommand(v).error)
         else None)
      else if v.String? then None else Some(TypeAssertion(key))
  }

  /** The error of the first key of `keys[from..]`, in order, that raises one. */
  function FirstKeyError(members: seq<(string, Json)>, keys: seq<string>, from: nat): (r: Option<Error>)
    ensures r.Some? ==> r.value == UnmarshalType || (r.value.TypeAssertion? && r.value.key in keys)
    decreases |keys| - from
  {
    if from >= |keys| then None
    else if KeyError(members, keys[from]).Some? then KeyError(members, keys[from])
    else FirstKeyError(members, keys, from + 1)
  }

  /** FirstKeyError over DecodedKeys, written out key by key. */
  lemma FirstKeyErrorUnrolled(ms: seq<(string, Json)>)
    ensures FirstKeyError(ms, DecodedKeys, 0) ==
      if KeyError(ms, "id").Some? then KeyError(ms, "id")
      else if KeyError(ms, "application_id").Some? then KeyError(ms, "application_id")
      else if KeyError(ms, "type").Some? then KeyError(ms, "type")
      else if KeyError(ms, "data").Some? then KeyError(ms, "data")
      else if KeyError(ms, "guild_id").Some? then KeyError(ms, "guild_id")
      else if KeyError(ms, "channel_id").Some? then KeyError(ms, "channel_id")
      else if KeyError(ms, "token").Some? then KeyError(ms, "token")
      else if KeyError(ms, "application_permission").Some? then KeyError(ms, "application_permission")
      else if KeyError(ms, "locale").Some? then KeyError(ms, "locale")
      else KeyError(ms, "guild_locale")
  {
    var k := DecodedKeys;
    assert FirstKeyError(ms, k, 10) == None;
    assert FirstKeyError(ms, k, 9) == KeyError(ms, "guild_locale");
    assert FirstKeyError(ms, k, 8) == if KeyError(ms, "locale").Some? then KeyError(ms, "locale") else FirstKeyError(ms, k, 9);
    assert FirstKeyError(ms, k, 7) == if KeyError(ms, k[7]).Some? then KeyError(ms, k[7]) else FirstKeyError(ms, k, 8);
    assert FirstKeyError(ms, k, 6) == if KeyError(ms, k[6]).Some? then KeyError(ms, k[6]) else FirstKeyError(ms, k, 7);
    assert FirstKeyError(ms, k, 5) == if KeyError(ms, k[5]).Some? then KeyError(ms, k[5]) else FirstKeyError(ms, k, 6);
    assert FirstKeyError(ms, k, 4) == if KeyError(ms, k[4]).Some? then KeyError(ms, k[4]) else FirstKeyError(ms, k, 5);
    assert FirstKeyError(ms, k, 3) == if KeyError(ms, k[3]).Some? then KeyError(ms, k[3]) else FirstKeyError(ms, k, 4);
    assert FirstKeyError(ms, k, 2) == if KeyError(ms, k[2]).Some? then KeyError(ms, k[2]) else FirstKeyError(ms, k, 3);
    assert FirstKeyError(ms, k, 1) == if KeyError(ms, k[1]).Some? then KeyError(ms, k[1]) else FirstKeyError(ms, k, 2);
  }

  /** The `data` field after decoding: the canonical re-encoding of the decoded command. */
  function DataOr(members: seq<(string, Json)>, prior: JsonText): JsonText {
    if !Present(members, "data") then prior
    else match DecodeCommand(Get(members, "data").value)
      case Success(c) => Text(EncodeCommand(c))
      case Failure(_) => prior
  }

  /**
   * What Interaction.UnmarshalJSON does to `prior` given the parsed body:
   * JSON null leaves it unchanged; anything but an object fails; otherwise the
   * first key of the wrong kind aborts, and if none does, every present key
   * among DecodedKeys overwrites its field and nothing else changes.
   */
  function DecodeInteraction(prior: Interaction, doc: Json): (r: Result<Interaction, Error>)
    ensures r.Failure? ==> r.error == UnmarshalType || (r.error.TypeAssertion? && r.error.key in DecodedKeys)
  {
    match doc
    case Null => Success(prior)
    case Object(ms) =>
      (match FirstKeyError(ms, DecodedKeys, 0)
       case Some(e) => Failure(e)
       case None =>
        Success(prior.(
          id := StringOr(Get(ms, "id"), prior.id),
          applicationId := StringOr(Get(ms, "application_id"), prior.applicationId),
          interactionType := NumberOr(Get(ms, "type"), prior.interactionType),
          data := DataOr(ms, prior.data),
          guildId := StringOr(Get(ms, "guild_id"), prior.guildId),
          channelId := StringOr(Get(ms, "channel_id"), prior.channelId),
          token := StringOr(Get(ms, "token"), prior.token),
          appPermission := NumberOr(Get(ms, "application_permission"), prior.appPermission),
          locale := StringOr(Get(ms, "locale"), prior.locale),
          guildLocale := StringOr(Get(ms, "guild_locale"), prior.guildLocale))))
    case _ => Failure(UnmarshalType)
  }

  /**
   * One `if v[key] != nil { field = v[key].(string) }` statement of
   * UnmarshalJSON: the field keeps `current` when the key is absent or null,
   * and a value that is not a string fails the assertion.
   */
  method ReadString(v: seq<(string, Json)>, key: string, current: string) returns (r: Result<string, Error>)
    requires !IsNumberKey(key) && key != "data"
    ensures r.Failure? <==> KeyError(v, key).Some?
    ensures r.Failure? ==> KeyError(v, key) == Some(r.error)
    ensures r.Success? ==> r.value == StringOr(Get(v, key), current)
  {
    if Present(v, key) {
      var x := Get(v, key).value;
      if !x.String? {
        return Failure(TypeAssertion(key));
      }
      return Success(x.s);
    }
    return Success(current);
  }

  /** The same for `field = int(v[key].(float64))`. */
  method ReadNumber(v: seq<(string, Json)>, key: string, current: int) returns (r: Result<int, Error>)
    requires IsNumberKey(key)
    ensures r.Failure? <==> KeyError(v, key).Some?
    ensures r.Failure? ==> KeyError(v, key) == Some(r.error)
    ensures r.Success? ==> r.value == NumberOr(Get(v, key), current)
  {
    if Present(v, key) {
      var x := Get(v, key).value;
      if !x.Number? {
        return Failure(TypeAssertion(key));
      }
      return Success(x.n);
    }
    return Success(current);
  }

  /**
   * The `data` statement: the value is asserted to be an object, decoded as
   * an ApplicationCommand, and the field holds the command re-encoded.
   */
  method ReadData(v: seq<(string, Json)>, current: JsonText) returns (r: Result<JsonText, Error>)
    ensures r.Failure? <==> KeyError(v, "data").Some?
    ensures r.Failure? ==> KeyError(v, "data") == Some(r.error)
    ensures r.Success? ==> r.value == DataOr(v, current)
  {
    if Present(v, "data") {
      var x := Get(v, "data").value;
      if !x.Object? {
        return Failure(TypeAssertion("data"));
      }
      var command := DecodeCommand(x);
      if command.Failure? {
        return Failure(command.error);
      }
      return Success(Text(EncodeCommand(command.value)));
    }
    return Success(current);
  }

  /**
   * Interaction.UnmarshalJSON over the parsed body: the receiver's fields are
   * assigned one key at a time, and the first failed assertion or sub-decode
   * returns at once.
   */
  method UnmarshalInteraction(prior: Interaction, doc: Json) returns (r: Result<Interaction, Error>)
    ensures r == DecodeInteraction(prior, doc)
  {
    if doc.Null? {
      return Success(prior);
    }
    if !doc.Object? {
      return Failure(UnmarshalType);
    }
    var v := doc.members;
    FirstKeyErrorUnrolled(v);
    var i := prior;
    var s: Result<string, Error>;
    var n: Result<int, Error>;
    s := ReadString(v, "id", i.id);
    if s.Failure? { return Failure(s.error); }
    i := i.(id := s.value);
    s := ReadString(v, "application_id", i.applicationId);
    if s.Failure? { return Failure(s.error); }
    i := i.(applicationId := s.value);
    n := ReadNumber(v, "type", i.interactionType);
    if n.Failure? { return Failure(n.error); }
    i := i.(interactionType := n.value);
    var d := ReadData(v, i.data);
    if d.Failure? { return Failure(d.error); }
    i := i.(data := d.value);
    s := ReadString(v, "guild_id", i.guildId);
    if s.Failure? { return Failure(s.error); }
    i := i.(guildId := s.value);
    s := ReadString(v, "channel_id", i.channelId);
    if s.Failure? { return Failure(s.error); }
    i := i.(channelId := s.value);
    s := ReadString(v, "token", i.token);
    if s.Failure? { return Failure(s.error); }
    i := i.(token := s.value);
    n := ReadNumber(v, "application_permission", i.appPermission);
    if n.Failure? { return Failure(n.error); }
    i := i.(appPermission := n.value);
    s := ReadString(v, "locale", i.locale);
    if s.Failure? { return Failure(s.error); }
    i := i.(locale := s.value);
    s := ReadString(v, "guild_locale", i.guildLocale);
    if s.Failure? { return Failure(s.error); }
    i := i.(guildLocale := s.value);
    return Success(i);
  }

  /**
   * The second decoding pass: json.Unmarshal of the `data` text into a fresh
   * ApplicationCommand; the empty string is not JSON text.
   */
  function UnmarshalCommand(data: JsonText): (r: Result<ApplicationCommand, Error>)
    ensures data.NoText? ==> r == Failure(UnexpectedEnd)
    ensures data.Text? && data.value.Object? && r.Success? ==> r.value.name == StringOr(Get(data.value.members, "name"), "")
  {
    match data
    case NoText => Failure(UnexpectedEnd)
    case Text(j) => DecodeCommand(j)
  }

  // ---------------------------------------------------------------------
  // Properties of the envelope decoder

  /**
   * FirstKeyError reports an error exactly when some key raises one, and then
   * it is the error of the first key, in reading order, that does.
   */
  lemma {:induction false} FirstKeyErrorIsFirst(ms: seq<(string, Json)>, keys: seq<string>, from: nat)
    ensures FirstKeyError(ms, keys, from).None? <==> forall i :: from <= i < |keys| ==> KeyError(ms, keys[i]).None?
    ensures FirstKeyError(ms, keys, from).Some? ==>
      exists i :: from <= i < |keys| && FirstKeyError(ms, keys, from) == KeyError(ms, keys[i]) &&
                  forall j :: from <= j < i ==> KeyError(ms, keys[j]).None?
    decreases |keys| - from
  {
    if from < |keys| && KeyError(ms, keys[from]).None? {
      FirstKeyErrorIsFirst(ms, keys, from + 1);
    }
  }

  /** The keys whose values UnmarshalJSON copies into string fields. */
  const StringKeys: set<string> :=
    {"id", "application_id", "guild_id", "channel_id", "token", "locale", "guild_locale"}

  /** The string field of an Interaction that `key` fills. */
  function StringField(i: Interaction, key: string): string
    requires key in StringKeys
  {
    if key == "id" then i.id
    else if key == "application_id" then i.applicationId
    else if key == "guild_id" then i.guildId
    else if key == "channel_id" then i.channelId
    else if key == "token" then i.token
    else if key == "locale" then i.locale
    else i.guildLocale
  }

  /** The number field of an Interaction that `key` fills. */
  function NumberField(i: Interaction, key: string): int
    requires IsNumberKey(key)
  {
    if key == "type" then i.interactionType else i.appPermission
  }

  /** A decoded key raises no error when decoding succeeds. */
  lemma DecodedKeyRaisesNothing(prior: Interaction, ms: seq<(string, Json)>, key: string)
    requires key in DecodedKeys
    requires DecodeInteraction(prior, Object(ms)).Success?
    ensures KeyError(ms, key).None?
  {
    FirstKeyErrorIsFirst(ms, DecodedKeys, 0);
    var k :| 0 <= k < |DecodedKeys| && DecodedKeys[k] == key;
  }

  /**
   * A present string key was a JSON string and is copied verbatim; an absent
   * or null one leaves the prior (zero) value in place.
   */
  lemma StringKeysCopied(prior: Interaction, ms: seq<(string, Json)>, key: string)
    requires key in StringKeys
    requires DecodeInteraction(prior, Object(ms)).Success?
    ensures Present(ms, key) ==> Get(ms, key).value.String?
    ensures StringField(DecodeInteraction(prior, Object(ms)).value, key) ==
      if Present(ms, key) then Get(ms, key).value.s else StringField(prior, key)
  {
    DecodedKeyRaisesNothing(prior, ms, key);
    var i := DecodeInteraction(prior, Object(ms)).value;
    assert StringField(i, key) == StringOr(Get(ms, key), StringField(prior, key)) by {
      if key == "id" {
      } else if key == "application_id" {
      } else if key == "guild_id" {
      } else if key == "channel_id" {
      } else if key == "token" {
      } else if key == "locale" {
      } else {
      }
    }
  }

  /** The same for the two number keys, `type` and `application_permission`. */
  lemma NumberKeysCopied(prior: Interaction, ms: seq<(string, Json)>, key: string)
    requires IsNumberKey(key)
    requires DecodeInteraction(prior, Object(ms)).Success?
    ensures Present(ms, key) ==> Get(ms, key).value.Number?
    ensures NumberField(DecodeInteraction(prior, Object(ms)).value, key) ==
      if Present(ms, key) then Get(ms, key).value.n else NumberField(prior, key)
  {
    DecodedKeyRaisesNothing(prior, ms, key);
  }

  /**
   * A present key of the wrong kind is not coerced: decoding fails, with the
   * error of the first key in reading order that has one.
   */
  lemma WrongKindAborts(prior: Interaction, ms: seq<(string, Json)>, k: int)
    requires 0 <= k < |DecodedKeys| && KeyError(ms, DecodedKeys[k]).Some?
    ensures DecodeInteraction(prior, Object(ms)).Failure?
    ensures exists i :: 0 <= i <= k && Some(DecodeInteraction(prior, Object(ms)).error) == KeyError(ms, DecodedKeys[i]) &&
                        forall j :: 0 <= j < i ==> KeyError(ms, DecodedKeys[j]).None?
  {
    FirstKeyErrorIsFirst(ms, DecodedKeys, 0);
    var i :| 0 <= i < |DecodedKeys| && FirstKeyError(ms, DecodedKeys, 0) == KeyError(ms, DecodedKeys[i]) &&
             forall j :: 0 <= j < i ==> KeyError(ms, DecodedKeys[j]).None?;
    assert i <= k;
  }

  /** A string key holding something other than a string aborts decoding with a panic. */
  lemma StringKeyOfWrongKind(prior: Interaction, ms: seq<(string, Json)>, key: string)
    requires key in StringKeys && Present(ms, key) && !Get(ms, key).value.String?
    ensures DecodeInteraction(prior, Object(ms)).Failure?
  {
    assert key in DecodedKeys;
    var k :| 0 <= k < |DecodedKeys| && DecodedKeys[k] == key;
    WrongKindAborts(prior, ms, k);
  }

  /**
   * Keys UnmarshalJSON does not read never reach the result: user, version,
   * channel, member and message keep their prior values whatever the input.
   */
  lemma UnreadFieldsUntouched(prior: Interaction, doc: Json)
    requires DecodeInteraction(prior, doc).Success?
    ensures var i := DecodeInteraction(prior, doc).value;
      i.user == prior.user && i.version == prior.version && i.channel == prior.channel &&
      i.member == prior.member && i.message == prior.message
  {
  }

  /** Input that is neither an object nor null fails before any field is assigned. */
  lemma NonObjectFails(prior: Interaction, doc: Json)
    requires !doc.Object? && !doc.Null?
    ensures DecodeInteraction(prior, doc) == Failure(UnmarshalType)
  {
  }

  /**
   * The `data` field: left at its prior value when the key is absent or null;
   * otherwise the key held an object that decodes as an ApplicationCommand,
   * the field holds that command's re-encoding (unknown keys dropped), and
   * the second decoding pass gives back exactly the decoded command.
   */
  lemma DataRoundTrip(prior: Interaction, ms: seq<(string, Json)>)
    requires DecodeInteraction(prior, Object(ms)).Success?
    ensures var i := DecodeInteraction(prior, Object(ms)).value;
      && (!Present(ms, "data") ==> i.data == prior.data)
      && (Present(ms, "data") ==>
            var d := Get(ms, "data").value;
            && d.Object?
            && DecodeCommand(d).Success?
            && i.data == Text(EncodeCommand(DecodeCommand(d).value))
            && UnmarshalCommand(i.data) == DecodeCommand(d))
  {
    DecodedKeyRaisesNothing(prior, ms, "data");
    if Present(ms, "data") {
      CommandRoundTrip(DecodeCommand(Get(ms, "data").value).value);
    }
  }
}
