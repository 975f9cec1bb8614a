# Discord interactions webhook, modelled in Dafny

This project models the request path of a serverless Discord bot: an
AWS Lambda function behind API Gateway that receives Discord *interactions*
(webhook calls). The model covers each stage of that path:

- **Signature check.** The configured hex-encoded Ed25519 public key and the
  `x-signature-ed25519` header are hex-decoded (Go's `encoding/hex`), and the
  signature is checked over `x-signature-timestamp || body`. There are two
  variants: a boolean one, and one that returns `(bool, error)`. The Ed25519
  arithmetic is a parameter.
- **Envelope decoder.** `Interaction.UnmarshalJSON` decodes the body into a
  loose map, then copies ten known keys one by one through unchecked type
  assertions. The `data` object is decoded as an `ApplicationCommand` and
  stored re-encoded as JSON text.
- **Responses.** `InteractionResponse` and `ApplicationCommand` are encoded
  following their `omitempty` tags.
- **Dispatcher.** The command registry is walked, and a command goes to the
  handler registered under exactly its name. An unknown name gets the reply
  "Unregistered command".
- **Ping.** A ping is answered with a pong.
- **Canned outcomes.** The three API Gateway outcomes are 200, 401 and 500.
- **Handler closure.** Both packages (`internal/` and `service/internal/`)
  keep the configuration in a package-level variable set by `NewHandler` and
  return a closure. Here each package is a class with a `config` field.
- **Bot commands.** `main.go` configures two commands:
  - `create` folds the command's options into five server settings, POSTs a
    workflow-dispatch payload and replies.
  - `destroy` POSTs a fixed payload and replies.

The modules are:

- `Base`: bytes, `Option`, `Result` and the error kinds.
- `Json`: JSON values. Lookup in a decoded object is last-wins.
- `Hex`: base16 decoding and encoding, section 8 of RFC 4648, as Go
  implements them.
- `Authorizer`: the signature check.
- `Model`: the types of `model/model.go`, their encodings and the envelope
  decoder.
- `Responses`: the canned outcomes.
- `Interactions`: ping and the dispatcher.
- `Pipeline`: the handler closure as one specification function, `Respond`,
  with its properties and the scenarios of the handler tests.
- `InternalHandler` and `ServiceHandler`: the two packages as classes. Their
  `HandleRequest` methods run the pipeline step by step and are proved equal
  to `Respond`.
- `Commands`: the `create` and `destroy` handlers of `main.go`.

Several methods are written step by step, as the Go code is, and each is
proved equal to a specification function:

- `UnmarshalInteraction` is proved against `DecodeInteraction`.
- `InteractionApplicationCommand` is proved against `Dispatched`.
- `ExtractCreateSettings` is proved against `SettingsOf`.
- `HandleRequest` is proved against `Respond`.

The properties are then proved about those functions.

Some behaviours of the code are easy to misread. The model follows the
code:

- **JSON `null` body.** A body of JSON `null` decodes to the zero
  `Interaction` without error, because `json.Unmarshal` of `null` into a map
  leaves it nil. It is not a decode failure.
- **Wrong-kind fields panic.** A field of the wrong JSON kind (for example a
  number under `id`, or a non-object under `data`) fails an unchecked type
  assertion. That is a Go panic that unwinds the invocation
  (`Invocation.Panicked`). It is not a 500 outcome. In the `create`
  handler, options that are not a list panic, and so does an object entry
  with a value whose `name` is not a string, or whose `value` is not a
  string under a recognised name. Entries that are not objects are skipped,
  because that assertion is checked.
- **Shadowed `err` hides encoding errors.** In the application-command
  branch of both handler files, `interactionResponse, err :=` declares a new
  `err` for that case. An error from encoding the reply is therefore never
  seen, and the outcome is 200 with an empty body rather than a 500.
- **Stale `err` on a failed sub-decode.** When the second decoding pass of
  `data` fails, the 500 hands back the outer `err`, which is nil at that
  point. For example, an application command without `data` is a 500 with
  no error.
- **Other interaction types.** An interaction type other than 1 or 2 gets a
  200 with an empty body, because the switch has no default branch.

## Model

| member | source | states |
|---|---|---|
| Json.GetFindsLast | model/model.go:82-85 | a key of the decoded map is found exactly when some member has it, and then it holds the value of the last such member (later duplicates overwrite) |
| Json.GetUnique | model/model.go:82-85 | a key bound by exactly one member is found with that member's value |
| Json.GetAppend | model/model.go:82-85 | looking up in a concatenation of members: the later part wins |
| Hex.HexDecode | service/internal/authorizer.go:12 | hex.DecodeString yields one byte per two digits, and fails only with the odd-length error or by naming a byte that is not a hexadecimal digit |
| Hex.ByteDigits | internal/handler_test.go:28-35 | hex.Encode writes each byte as two hexadecimal digits whose values, high nibble first, make up that byte |
| Hex.HexEncode | internal/handler_test.go:28-35 | hex.Encode writes two digits per byte, all of them hexadecimal digits |
| Hex.HexRoundTrip | internal/handler_test.go:28-35 | decoding what hex.Encode writes gives back the original bytes |
| Hex.HexDecodeSucceeds | service/internal/authorizer.go:12-22 | hex.DecodeString succeeds exactly on an even number of hexadecimal digits, and byte k is made of digits 2k and 2k+1 |
| Hex.HexDecodeError | service/internal/authorizer.go:18-22 | a decode failure reports the first byte that is not a hexadecimal digit |
| Hex.HexDecodeOddLength | service/internal/authorizer.go:18-22 | decoding fails with the length error exactly on a string of hexadecimal digits of odd length |
| Authorizer.SignedMessage | service/internal/authorizer.go:24 | the signed message is the timestamp bytes followed immediately by the body bytes |
| Authorizer.ValidateRequest | service/internal/authorizer.go:10-27 | a key or signature that is not valid hex gives false; otherwise the result is Ed25519 verification of the decoded signature over timestamp and body under the decoded key |
| Authorizer.ValidateRequestWithError | internal/authorizer_test.go:23-77 | an error is returned exactly when the key or the signature is not valid hex, and then the result is false; the key's error comes first |
| Authorizer.VariantsAgree | internal/authorizer_test.go:23-77 | the `(bool, error)` variant's boolean equals the boolean variant's result on every input |
| Authorizer.BadKeyIgnoresSignature | service/internal/authorizer.go:12-16 | with a key that is not valid hex, both variants give the same outcome whatever the signature |
| Authorizer.OnlyConcatenationMatters | service/internal/authorizer.go:24-26 | timestamp and body affect validity only through their concatenation |
| Authorizer.EncodedArtifactsValidate | internal/authorizer_test.go:23-33 | hex-encoded key and signature headers validate, with no error, exactly when Ed25519 accepts the raw signature over timestamp and body |
| Authorizer.NonHexSignatureIsError | internal/authorizer_test.go:34-44 | a signature with a non-hexadecimal byte gives false and an invalid-byte error |
| Model.MentionTypeName | model/model.go:17-19 | mention types 0, 1 and 2 are named "roles", "users" and "everyone" |
| Model.MentionTypeNamesDistinct | model/model.go:17-19 | distinct mention types have distinct names |
| Model.DecodeCommand | model/model.go:134-142 | decoding an ApplicationCommand either gives a command whose `any` fields never hold null, or fails with an unmarshal type error |
| Model.EncodeCommand | model/model.go:134-141 | json.Marshal of an ApplicationCommand, written out as its member list; its properties are stated by CommandMembersLookup and the Encoded lemmas |
| Model.CommandMembersLookup | model/model.go:134-141 | in an encoded command, id, name and type are always bound to their fields, and resolved, options, guild_id and target_id are bound to their values exactly when not empty; no other key is bound |
| Model.GetAfterOptional | model/model.go:138-141 | an `omitempty` member binds its key exactly when it is included and leaves other keys as they were |
| Model.EncodedCommandRequired | model/model.go:135-137 | the encoded command always binds id, name and type to the field values |
| Model.EncodedResolved | model/model.go:138 | `resolved` is encoded exactly when it is not nil |
| Model.EncodedOptions | model/model.go:139 | `options` is encoded exactly when it is not nil |
| Model.EncodedGuildId | model/model.go:140 | `guild_id` is encoded exactly when it is not empty |
| Model.EncodedTargetId | model/model.go:141 | `target_id` is encoded exactly when it is not empty |
| Model.CommandRoundTrip | model/model.go:103-110 | decoding the re-encoded command gives back the decoded command |
| Model.MarshalResponse | model/model.go:26-39 | json.Marshal of an InteractionResponse, written out as its member lists; its properties are stated by ResponseFieldOmission and DataMembersLookup |
| Model.DataMembersLookup | model/model.go:31-39 | in encoded response data, `tts` is always bound to its value, and every other field is bound to its value exactly when not empty; no other key is bound |
| Model.DataTts | model/model.go:32 | `tts` is always encoded with its value |
| Model.DataContent | model/model.go:33 | `content` is encoded exactly when it is not empty |
| Model.DataEmbeds | model/model.go:34 | `embeds` is encoded exactly when the list is not empty |
| Model.DataAllowedMentions | model/model.go:35 | `allowed_mentions` is encoded exactly when it is not nil |
| Model.DataFlags | model/model.go:36 | `flags` is encoded exactly when it is not zero |
| Model.DataComponents | model/model.go:37 | `components` is encoded exactly when it is not nil |
| Model.DataAttachments | model/model.go:38 | `attachments` is encoded exactly when it is not nil |
| Model.ResponseFieldOmission | model/model.go:26-39 | a response encodes exactly when its opaque values are encodable; then `type` and `data` are always present, `tts` always, and each `omitempty` field (content, embeds, allowed_mentions, flags, components, attachments) exactly when it is not empty, with its value |
| Model.KeyError | model/model.go:87-129 | the error reading one key can raise: only for a present key, and only a failed type assertion on that key, or for `data` also the command's unmarshal type error |
| Model.FirstKeyError | model/model.go:87-129 | the first error in reading order, which is a failed type assertion on one of the keys read, or an unmarshal type error |
| Model.DecodeInteraction | model/model.go:81-132 | UnmarshalJSON as a function; a failure is an unmarshal type error or a failed type assertion on one of the ten keys read |
| Model.FirstKeyErrorUnrolled | model/model.go:87-129 | the first key error follows the order in which UnmarshalJSON reads the keys |
| Model.ReadString | model/model.go:87-89 | one string-key statement: it fails exactly on a present non-string value (a panic); otherwise the field takes the string, or keeps its value when the key is absent or null |
| Model.ReadNumber | model/model.go:93-95 | one number-key statement: it fails exactly on a present non-number value; otherwise the field takes the number or keeps its value |
| Model.ReadData | model/model.go:96-111 | the `data` statement: it fails on a non-object (panic) or a command that does not decode; otherwise the field holds the re-encoded command |
| Model.UnmarshalInteraction | model/model.go:81-132 | UnmarshalJSON step by step equals DecodeInteraction: null leaves the receiver unchanged, a non-object fails, the first bad key aborts, and every present key overwrites its field |
| Model.UnmarshalCommand | internal/handler.go:56-57 | the second decoding pass fails on the empty string and otherwise decodes the command with its `name` |
| Model.FirstKeyErrorIsFirst | model/model.go:87-129 | decoding reports an error exactly when some key has one, and then it is the error of the first such key in reading order |
| Model.DecodedKeyRaisesNothing | model/model.go:87-131 | when decoding succeeds, no read key raised an error |
| Model.StringKeysCopied | model/model.go:112-129 | after a successful decode, a present string key held a string that is copied verbatim; an absent or null one leaves the field as it was |
| Model.NumberKeysCopied | model/model.go:121-123 | the same for `type` and `application_permission`: a present key held a number that is copied |
| Model.WrongKindAborts | model/model.go:87-129 | a key of the wrong kind makes decoding fail with the error of the first failing key up to it |
| Model.StringKeyOfWrongKind | model/model.go:88 | a string key holding anything but a string makes decoding fail rather than being coerced |
| Model.UnreadFieldsUntouched | model/model.go:63-79 | user, version, channel, member and message are never assigned by decoding |
| Model.NonObjectFails | model/model.go:82-85 | input that is neither an object nor null fails with an unmarshal type error |
| Model.DataRoundTrip | model/model.go:96-111 | absent `data` leaves the field; present `data` was an object that decodes, is stored re-encoded, and the second pass decodes it back to the same command |
| Responses.InternalServerError | responses/responses.go:9-14 | status 500, empty body, the error handed back unchanged |
| Responses.Ok | responses/responses.go:16-22 | status 200 with exactly the given body and no error |
| Responses.Unauthorized | responses/responses.go:24-29 | status 401, empty body, no error |
| Responses.OnlyServerErrorCarriesError | responses/responses.go:9-29 | only the 500 outcome carries an error, and the three outcomes are distinct |
| Interactions.InteractionPing | internal/ping.go:9-14 | the pong has type 1 and zero-valued data |
| Interactions.PingEncoding | service/internal/ping.go:8-13 | the pong encodes as `{"type":1,"data":{"tts":false}}` |
| Interactions.Dispatched | internal/application_command.go:12-24 | the registry lookup the loop performs; its outcomes are stated by DispatchMatched, DispatchFallback and DispatchOnlyReadsExactName |
| Interactions.InteractionApplicationCommand | internal/application_command.go:9-25 | walking the registry gives the result of the handler registered under exactly the command's name, or the fallback reply |
| Interactions.DispatchMatched | service/internal/application_command.go:11-15 | a registered name gets its handler's result unchanged, error included |
| Interactions.DispatchFallback | service/internal/application_command.go:17-23 | an unregistered name gets a type-4 message "Unregistered command" with `tts` false, never an error |
| Interactions.EmptyRegistryFallsBack | internal/application_command.go:12-24 | an empty registry always gives the fallback reply |
| Interactions.DispatchOnlyReadsExactName | internal/application_command.go:13 | the outcome depends only on what is registered under the exact name |
| Pipeline.Header | internal/handler.go:35 | a missing header reads as the empty string |
| Pipeline.DecodeBody | internal/handler.go:29-33 | a body that is not JSON is a syntax error; otherwise UnmarshalJSON decides |
| Pipeline.Fail | internal/handler.go:30-33 | a returned error is a 500 carrying it; a panic unwinds the invocation |
| Pipeline.Reply | internal/handler.go:61-66 | after authentication the reply is a 200 or an empty 500, and it is a 500 exactly when the handler returned an error |
| Pipeline.RespondTo | internal/handler.go:46-75 | after authentication every outcome is a 200 or an empty 500, only the 500 carries an error, and a panic is a failed type assertion |
| Pipeline.Respond | internal/handler.go:18-76 | every outcome is 200, 401 or 500; only a 500 carries an error; only a 200 has a body; 401 exactly when the body decodes and the signature does not check |
| Pipeline.DecodeBeforeAuthentication | internal/handler.go:29-43 | a body that does not decode is answered before the signature check, whatever the headers and configuration |
| Pipeline.MalformedBodyIsServerError | internal/handler_test.go:140-153 | a body that is not JSON is a 500 with the syntax error |
| Pipeline.NonHexSignatureIsUnauthorized | internal/handler_test.go:110-124 | a signature header with a non-hex byte is a 401 for any well-formed body |
| Pipeline.EncodedHeadersAuthenticate | internal/handler_test.go:125-139 | hex-encoded headers are accepted exactly when Ed25519 accepts, and an altered timestamp or body is a 401 |
| Pipeline.AuthenticPingIsPong | internal/handler_test.go:47-53 | an authentic ping is a 200 with body `{"type":1,"data":{"tts":false}}` |
| Pipeline.AuthenticCommandIsDispatched | internal/handler.go:53-66 | an authentic command reaches the registry as exactly the command in the body's `data` object |
| Pipeline.MissingDataIsServerErrorWithoutError | internal/handler.go:56-59 | an authentic command without `data` is a 500 with a nil error |
| Pipeline.OtherTypeIsEmptyOk | internal/handler.go:48-75 | an authentic interaction of any type other than 1 and 2 is a 200 with an empty body |
| Pipeline.ReplyOutcomes | internal/handler.go:61-71 | a handler error is a 500 with it; an encodable reply is a 200 with its encoding; an unencodable reply is a 200 with an empty body |
| Pipeline.PokeDataDecodes | internal/handler_test.go:54-56 | the test's `data` object decodes as the command "poke" with its options |
| Pipeline.PokeEnvelopeKeys | internal/handler_test.go:56 | the test body binds `type` and `data` and no other read key |
| Pipeline.PokeEnvelopeDecodes | internal/handler_test.go:54-56 | the test body decodes as an application command carrying `data` |
| Pipeline.HelloEncoding | service/main.go:23-31 | the "Hello, world!" reply encodes as type 4 with `tts` false and the content |
| Pipeline.AuthenticPokeIsAnswered | internal/handler_test.go:54-108 | the poke scenario is a 200 whose body is the type-4 message "Hello, world!" |
| InternalHandler.Package.constructor | internal/handler.go:13 | the package variable starts as the zero configuration |
| InternalHandler.Package.NewHandler | internal/handler.go:15-16 | NewHandler stores the configuration |
| InternalHandler.Package.HandleRequest | internal/handler.go:18-76 | the closure, step by step with the `(bool, error)` check, gives exactly Respond for the stored configuration |
| ServiceHandler.Package.constructor | service/internal/handler.go:11 | the package variable starts as the zero configuration |
| ServiceHandler.Package.NewHandler | service/internal/handler.go:13-14 | NewHandler stores the configuration |
| ServiceHandler.Package.HandleRequest | service/internal/handler.go:16-75 | the closure, step by step with the boolean check, gives exactly Respond for the stored configuration |
| Commands.SetSetting | main.go:45-55 | a recognised option name sets its setting and leaves the other four |
| Commands.Effect | main.go:38-61 | an entry only ever assigns a recognised setting, and aborts only with a panic |
| Commands.FoldOptions | main.go:38-62 | the options entries read in order; the fold only ever fails with a panic (its effect is stated by SkippedEntryChangesNothing, UnassignedSettingKept, LastAssignmentWins and FirstAbortEndsFold) |
| Commands.SettingsOf | main.go:31-65 | the settings a command's options give; it only ever fails with a panic |
| Commands.ExtractCreateSettings | main.go:31-65 | the option loop gives exactly SettingsOf: defaults for nil options, a panic for non-list options, the fold otherwise |
| Commands.MainHandlers | main.go:28-130 | the registry holds exactly "create" and "destroy" |
| Commands.NilOptionsKeepDefaults | main.go:31-36 | nil options give the five defaults |
| Commands.SkippedEntries | main.go:39-60 | non-objects, entries without a value and unrecognised names are skipped |
| Commands.SkippedEntryChangesNothing | main.go:39-43 | a skipped entry has no effect wherever it stands in the list |
| Commands.UnassignedSettingKept | main.go:44-58 | a setting no entry assigns keeps its starting value |
| Commands.LastAssignmentWins | main.go:44-58 | the last entry that assigns a setting decides its value |
| Commands.FirstAbortEndsFold | main.go:37-57 | the first entry that fails an assertion ends the fold with that panic |
| Commands.CreatePayload | main.go:67-77 | the create payload, keys in the sorted order json.Marshal writes; its contents are stated by CreatePayloadContents |
| Commands.Create | main.go:29-100 | the create handler; its outcomes are stated by CreateOutcome |
| Commands.Destroy | main.go:101-129 | the destroy handler; its outcomes are stated by DestroyOutcome |
| Commands.CreatePayloadContents | main.go:67-77 | the create payload carries ref "main", action "apply" and the five settings, and nothing else |
| Commands.DestroyPayloadContents | main.go:103-108 | the destroy payload carries ref "main" and only the action "destroy" |
| Commands.CreateOutcome | main.go:80-99 | create: a fold panic comes before any POST; a failed POST is returned as the error; otherwise the reply is "Server Creation Initiated!" |
| Commands.DestroyOutcome | main.go:111-128 | destroy: a failed POST is returned as the error; otherwise the reply is "Server Destruction Initiated!", whatever the command |

## Left out

- JSON text is not modelled. Parsing the request body is a parameter (`Externals.parseJson`), and printing JSON is left out. A Go string holding JSON text is modelled by the value it denotes (`JsonText`).
- Numbers are integers. The `float64` of a decoded JSON number, and its truncation by `int(...)`, are not modelled.
- encoding/json matches struct field names case-insensitively. The model matches keys exactly.
- Ed25519 verification is a parameter (`Verifier`). Its panic on a key of the wrong length is not modelled.
- The source of internal/authorizer.go, which holds the `(bool, error)` variant, is not part of this model. `ValidateRequestWithError` models that variant from its tests in internal/authorizer_test.go, and it decodes the key before the signature as the boolean variant does.
- Logging, the request context and the `json.Marshal(event)` of the handler's first lines are left out. That call cannot fail on an API Gateway request.
- Other reads of the request, and fields of the response other than status code and body, are not modelled. The Lambda runtime, `handler.New`, and the environment lookups and panic in `main` are left out.
- ghPostRequest is a parameter (`Post`). The HTTP request and the token lookup are not modelled.
- The `json.Marshal` of the create and destroy payloads, and of a decoded `data` map, cannot fail, so those branches are left out.
- The command handlers of `internal/` return a pointer. A handler returning a nil pointer with a nil error would encode as `null`; the model's handlers return a value.
- The nested response types (allowed mentions, attachments) and the `embeds`, `components`, `channel`, `member` and `message` values are opaque (`Any`), with their encodability as a flag.
- The `default=[]` option in the `embeds` tag has no effect in encoding/json and is ignored.
- The `service/internal` package declares its own `Interaction`, `ApplicationCommand`, `InteractionResponse` and `BotConfig` types, whose source is not part of this model. ServiceHandler.Package.HandleRequest, Interactions.PingEncoding and the dispatcher give them the decoding and encoding of model/model.go, on the assumption that the declarations and field tags are the same.
- Model.MentionTypeName: requires a value from 0 to 2, because any other value indexes past the array and panics.
- Registry iteration order is an arbitrary choice in `InteractionApplicationCommand`. Keys are unique, so the result does not depend on it.
- Concurrent invocations are not modelled. The configuration is written once by `NewHandler` and only read afterwards.
