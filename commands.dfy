// The "create" and "destroy" command handlers of main.go: the settings fold
// over the command's options, the workflow-dispatch payloads, and the
// replies. The POST to the workflow-dispatch endpoint is a parameter.

module Commands {
  import opened Base
  import opened Json
  import opened Model

  /** ghPostRequest: sends the encoded payload; None is a nil error. */
  type Post = Json -> Option<Error>

  /** The five settings of a server the "create" command asks for. */
  datatype CreateSettings = CreateSettings(
    modded: string, mapName: string, maxPlayers: string, maxCars: string, private: string)

  /** The settings before any option is read. */
  const DefaultSettings := CreateSettings("false", "gridmap_v2", "5", "1", "true")

  /** The option names the fold recognises. */
  predicate IsSettingName(name: string) {
    name == "modded" || name == "map" || name == "max_players" || name == "max_cars" || name == "private"
  }

  /** The setting a recognised option name selects. */
  function Setting(s: CreateSettings, name: string): string
    requires IsSettingName(name)
  {
    if name == "modded" then s.modded
    else if name == "map" then s.mapName
    else if name == "max_players" then s.maxPlayers
    else if name == "max_cars" then s.maxCars
    else s.private
  }

  /** Sets the setting a recognised option name selects. */
  function SetSetting(s: CreateSettings, name: string, value: string): (t: CreateSettings)
    requires IsSettingName(name)
    ensures Setting(t, name) == value
    ensures forall other :: IsSettingName(other) && other != name ==> Setting(t, other) == Setting(s, other)
  {
    if name == "modded" then s.(modded := value)
    else if name == "map" then s.(mapName := value)
    else if name == "max_players" then s.(maxPlayers := value)
    else if name == "max_cars" then s.(maxCars := value)
    else s.(private := value)
  }

  /** What one entry of the options list does to the settings. */
  datatype OptionEffect = Skip | Assign(name: string, value: string) | Abort(error: Error)

  /**
   * One entry: anything but an object, and an object whose `value` is absent
   * or null, is skipped; otherwise `name` is asserted to be a string; an
   * unrecognised name is skipped, and for a recognised one `value` is
   * asserted to be a string and assigned.
   */
  function Effect(entry: Json): (e: OptionEffect)
    ensures e.Assign? ==> IsSettingName(e.name)
    ensures e.Abort? ==> e.error.IsPanic()
  {
    if !entry.Object? || !Present(entry.members, "value") then Skip
    else
      var name := Get(entry.members, "name");
      var value := Get(entry.members, "value").value;
      if name.None? || !name.value.String? then Abort(TypeAssertion("name"))
      else if !IsSettingName(name.value.s) then Skip
      else if !value.String? then Abort(TypeAssertion("value"))
      else Assign(name.value.s, value.s)
  }

  /** The settings after reading `items` in order from `s`, or the first panic. */
  function FoldOptions(s: CreateSettings, items: seq<Json>): (r: Result<CreateSettings, Error>)
    ensures r.Failure? ==> r.error.IsPanic()
    decreases |items|
  {
    if |items| == 0 then Success(s)
    else match Effect(items[0])
      case Skip => FoldOptions(s, items[1..])
      case Assign(name, value) => FoldOptions(SetSetting(s, name, value), items[1..])
      case Abort(e) => Failure(e)
  }

  /**
   * The settings a command's options give: the defaults when the options are
   * nil; a panic when they are not a list.
   */
  function SettingsOf(options: Option<Json>): (r: Result<CreateSettings, Error>)
    ensures r.Failure? ==> r.error.IsPanic()
  {
    match options
    case None => Success(DefaultSettings)
    case Some(Array(items)) => FoldOptions(DefaultSettings, items)
    case Some(_) => Failure(TypeAssertion("options"))
  }

  /**
   * The extraction loop of the "create" handler: five variables start at
   * their defaults and are overwritten entry by entry.
   */
  method ExtractCreateSettings(options: Option<Json>) returns (r: Result<CreateSettings, Error>)
    ensures r == SettingsOf(options)
  {
    var modsEnabled, mapValue, maxPlayers, maxCars, private := "false", "gridmap_v2", "5", "1", "true";
    if options.Some? {
      if !options.value.Array? {
        return Failure(TypeAssertion("options"));
      }
      var appCommands := options.value.items;
      for k := 0 to |appCommands|
        invariant FoldOptions(CreateSettings(modsEnabled, mapValue, maxPlayers, maxCars, private), appCommands[k..])
                  == SettingsOf(options)
      {
        assert appCommands[k..][1..] == appCommands[k + 1..];
        var cmdInterface := appCommands[k];
        if !cmdInterface.Object? {
          continue;
        }
        var cmd := cmdInterface.members;
        if Present(cmd, "value") {
          var name := Get(cmd, "name");
          if name.None? || !name.value.String? {
            return Failure(TypeAssertion("name"));
          }
          var value := Get(cmd, "value").value;
          match name.value.s {
            case "modded" =>
              if !value.String? { return Failure(TypeAssertion("value")); }
              modsEnabled := value.s;
            case "map" =>
              if !value.String? { return Failure(TypeAssertion("value")); }
              mapValue := value.s;
            case "max_players" =>
              if !value.String? { return Failure(TypeAssertion("value")); }
              maxPlayers := value.s;
            case "max_cars" =>
              if !value.String? { return Failure(TypeAssertion("value")); }
              maxCars := value.s;
            case "private" =>
              if !value.String? { return Failure(TypeAssertion("value")); }
              private := value.s;
            case _ =>
              // An unrecognised option is only logged.
          }
        }
      }
    }
    return Success(CreateSettings(modsEnabled, mapValue, maxPlayers, maxCars, private));
  }

  /**
   * The "create" payload: ref "main" and the inputs, keys in the sorted order
   * json.Marshal writes a map in.
   */
  function CreatePayload(s: CreateSettings): Json {
    Object([
      ("inputs", Object([
        ("action", String("apply")),
        ("map", String(s.mapName)),
        ("max_cars", String(s.maxCars)),
        ("max_players", String(s.maxPlayers)),
        ("modded", String(s.modded)),
        ("private", String(s.private))])),
      ("ref", String("main"))])
  }

  /** The "destroy" payload: ref "main" and the single input action "destroy". */
  const DestroyPayload: Json := Object([("inputs", Object([("action", String("destroy"))])), ("ref", String("main"))])

  /** The "create" handler: read the settings, post the payload, reply. */
  function Create(post: Post, command: ApplicationCommand): Result<InteractionResponse, Error> {
    match SettingsOf(command.options)
    case Failure(e) => Failure(e)
    case Success(s) =>
      match post(CreatePayload(s))
      case Some(e) => Failure(e)
      case None => Success(ChannelMessage("Server Creation Initiated!"))
  }

  /** The "destroy" handler: post the payload, reply; the command is not read. */
  function Destroy(post: Post, command: ApplicationCommand): Result<InteractionResponse, Error> {
    match post(DestroyPayload)
    case Some(e) => Failure(e)
    case None => Success(ChannelMessage("Server Destruction Initiated!"))
  }

  /** The registry main.go configures. */
  function MainHandlers(post: Post): (handlers: map<string, Handler>)
    ensures handlers.Keys == {"create", "destroy"}
  {
    map["create" := command => Create(post, command), "destroy" := command => Destroy(post, command)]
  }

  // ---------------------------------------------------------------------
  // Properties of the option fold

  /** Nil options leave all five defaults. */
  lemma NilOptionsKeepDefaults()
    ensures SettingsOf(None) == Success(CreateSettings("false", "gridmap_v2", "5", "1", "true"))
  {
  }

  /**
   * An entry that is not an object, or that has no value (absent or null), or
   * whose name is a string naming no setting, is skipped.
   */
  lemma SkippedEntries(entry: Json)
    ensures !entry.Object? ==> Effect(entry) == Skip
    ensures entry.Object? && !Present(entry.members, "value") ==> Effect(entry) == Skip
    ensures (entry.Object? && Present(entry.members, "value") && Get(entry.members, "name").Some? &&
             Get(entry.members, "name").value.String? && !IsSettingName(Get(entry.members, "name").value.s))
            ==> Effect(entry) == Skip
  {
  }

  /** A skipped entry changes nothing, wherever it stands in the list. */
  lemma {:induction false} SkippedEntryChangesNothing(s: CreateSettings, before: seq<Json>, entry: Json, after: seq<Json>)
    requires Effect(entry) == Skip
    ensures FoldOptions(s, before + [entry] + after) == FoldOptions(s, before + after)
    decreases |before|
  {
    if |before| == 0 {
      assert (before + [entry] + after)[1..] == before + after;
    } else {
      assert (before + [entry] + after)[0] == (before + after)[0] == before[0];
      assert (before + [entry] + after)[1..] == before[1..] + [entry] + after;
      assert (before + after)[1..] == before[1..] + after;
      match Effect(before[0])
      case Skip => SkippedEntryChangesNothing(s, before[1..], entry, after);
      case Assign(name, value) => SkippedEntryChangesNothing(SetSetting(s, name, value), before[1..], entry, after);
      case Abort(_) =>
    }
  }

  /** A setting no entry assigns keeps the value it started with. */
  lemma {:induction false} UnassignedSettingKept(s: CreateSettings, items: seq<Json>, name: string)
    requires IsSettingName(name)
    requires FoldOptions(s, items).Success?
    requires forall j :: 0 <= j < |items| ==> !(Effect(items[j]).Assign? && Effect(items[j]).name == name)
    ensures Setting(FoldOptions(s, items).value, name) == Setting(s, name)
    decreases |items|
  {
    if |items| > 0 {
      assert forall j :: 0 <= j < |items| - 1 ==> items[1..][j] == items[j + 1];
      match Effect(items[0])
      case Skip => UnassignedSettingKept(s, items[1..], name);
      case Assign(n, v) => UnassignedSettingKept(SetSetting(s, n, v), items[1..], name);
    }
  }

  /**
   * A recognised option with a value sets its setting, and the last such
   * option for a name wins.
   */
  lemma {:induction false} LastAssignmentWins(s: CreateSettings, items: seq<Json>, i: int)
    requires 0 <= i < |items| && Effect(items[i]).Assign?
    requires FoldOptions(s, items).Success?
    requires forall j :: i < j < |items| ==> !(Effect(items[j]).Assign? && Effect(items[j]).name == Effect(items[i]).name)
    ensures Setting(FoldOptions(s, items).value, Effect(items[i]).name) == Effect(items[i]).value
    decreases |items|
  {
    assert forall j :: 0 <= j < |items| - 1 ==> items[1..][j] == items[j + 1];
    if i == 0 {
      var e := Effect(items[0]);
      UnassignedSettingKept(SetSetting(s, e.name, e.value), items[1..], e.name);
    } else {
      match Effect(items[0])
      case Skip => LastAssignmentWins(s, items[1..], i - 1);
      case Assign(n, v) => LastAssignmentWins(SetSetting(s, n, v), items[1..], i - 1);
    }
  }

  /** The first entry that aborts ends the fold with its panic. */
  lemma {:induction false} FirstAbortEndsFold(s: CreateSettings, items: seq<Json>, i: int)
    requires 0 <= i < |items| && Effect(items[i]).Abort?
    requires forall j :: 0 <= j < i ==> !Effect(items[j]).Abort?
    ensures FoldOptions(s, items) == Failure(Effect(items[i]).error)
    decreases |items|
  {
    if i > 0 {
      assert forall j :: 0 <= j < |items| - 1 ==> items[1..][j] == items[j + 1];
      match Effect(items[0])
      case Skip => FirstAbortEndsFold(s, items[1..], i - 1);
      case Assign(n, v) => FirstAbortEndsFold(SetSetting(s, n, v), items[1..], i - 1);
    }
  }

  // ---------------------------------------------------------------------
  // Properties of the payloads and replies

  /** The create payload carries ref "main", action "apply" and the five settings. */
  lemma CreatePayloadContents(s: CreateSettings)
    ensures Get(CreatePayload(s).members, "ref") == Some(String("main"))
    ensures Get(CreatePayload(s).members, "inputs").Some? && Get(CreatePayload(s).members, "inputs").value.Object?
    ensures var inputs := Get(CreatePayload(s).members, "inputs").value.members;
      && Get(inputs, "action") == Some(String("apply"))
      && Get(inputs, "map") == Some(String(s.mapName))
      && Get(inputs, "modded") == Some(String(s.modded))
      && Get(inputs, "max_players") == Some(String(s.maxPlayers))
      && Get(inputs, "max_cars") == Some(String(s.maxCars))
      && Get(inputs, "private") == Some(String(s.private))
      && |inputs| == 6
  {
    var ms := CreatePayload(s).members;
    GetUnique(ms, "ref", 1);
    GetUnique(ms, "inputs", 0);
    var inputs := ms[0].1.members;
    GetUnique(inputs, "action", 0);
    GetUnique(inputs, "map", 1);
    GetUnique(inputs, "max_cars", 2);
    GetUnique(inputs, "max_players", 3);
    GetUnique(inputs, "modded", 4);
    GetUnique(inputs, "private", 5);
  }

  /** The destroy payload carries ref "main" and only the action "destroy". */
  lemma DestroyPayloadContents()
    ensures Get(DestroyPayload.members, "ref") == Some(String("main"))
    ensures Get(DestroyPayload.members, "inputs") == Some(Object([("action", String("destroy"))]))
  {
    GetUnique(DestroyPayload.members, "ref", 1);
    GetUnique(DestroyPayload.members, "inputs", 0);
  }

  /**
   * "create" replies with a channel message (type 4) "Server Creation
   * Initiated!", not read aloud, once the POST succeeds; a failed POST gives
   * no reply and its error; a panic in the fold comes before any POST.
   */
  lemma CreateOutcome(post: Post, command: ApplicationCommand)
    ensures SettingsOf(command.options).Failure? ==> Create(post, command) == Failure(SettingsOf(command.options).error)
    ensures SettingsOf(command.options).Success? ==>
      var payload := CreatePayload(SettingsOf(command.options).value);
      && (post(payload).Some? ==> Create(post, command) == Failure(post(payload).value))
      && (post(payload).None? ==>
            Create(post, command).Success? &&
            var r := Create(post, command).value;
            r.responseType == 4 && r.data.content == "Server Creation Initiated!" && !r.data.tts)
  {
  }

  /**
   * "destroy" replies with "Server Destruction Initiated!" once the POST of
   * the destroy payload succeeds, whatever the command, and with the POST's
   * error otherwise.
   */
  lemma DestroyOutcome(post: Post, command: ApplicationCommand)
    ensures post(DestroyPayload).Some? ==> Destroy(post, command) == Failure(post(DestroyPayload).value)
    ensures post(DestroyPayload).None? ==>
      Destroy(post, command).Success? &&
      var r := Destroy(post, command).value;
      r.responseType == 4 && r.data.content == "Server Destruction Initiated!" && !r.data.tts
  {
  }
}
