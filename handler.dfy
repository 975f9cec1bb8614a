// internal/handler.go: the package-level configuration and the request
// closure NewHandler returns, using the `(bool, error)` signature check.

module InternalHandler {
  import opened Base
  import opened Json
  import opened Model
  import opened Authorizer
  import opened Responses
  import opened Interactions
  import opened Pipeline

  /**
   * The `internal` package: its package-level `config` variable, and the
   * library code its closure calls.
   */
  class Package {
    const externals: Externals
    var config: BotConfig

    /** Before NewHandler runs, `config` holds the zero BotConfig. */
    constructor(externals: Externals)
      ensures this.externals == externals && config == ZeroConfig()
    {
      this.externals := externals;
      config := ZeroConfig();
    }

    /** NewHandler stores the configuration every later request reads. */
    method NewHandler(passedConfig: BotConfig)
      modifies this
      ensures config == passedConfig
    {
      config := passedConfig;
    }

    /**
     * The closure NewHandler returns, handling one API Gateway request
     * against the stored configuration.
     */
    method HandleRequest(request: Request) returns (result: Invocation)
      ensures result == Respond(externals, config, request)
    {
      var bodyBytes := request.body;
      var parsed := externals.parseJson(bodyBytes);
      if parsed.None? {
        return InternalServerError(Some(SyntaxError));
      }
      var decoded := UnmarshalInteraction(ZeroInteraction, parsed.value);
      if decoded.Failure? {
        // A failed type assertion inside UnmarshalJSON panics through json.Unmarshal.
        if decoded.error.IsPanic() {
          return Panicked(decoded.error);
        }
        return InternalServerError(Some(decoded.error));
      }
      var interaction := decoded.value;

      var signature, timestamp := Header(request, SignatureHeader), Header(request, TimestampHeader);
      var (validRequest, err) := ValidateRequestWithError(externals.verify, config.publicKey, bodyBytes, signature, timestamp);
      VariantsAgree(externals.verify, config.publicKey, bodyBytes, signature, timestamp);
      if err.Some? {
        return Unauthorized();
      }
      if !validRequest {
        return Unauthorized();
      }

      var jsonBytes: JsonText := NoText;
      if interaction.interactionType == 1 {
        var marshalled := MarshalResponse(InteractionPing());
        if marshalled.Success? {
          jsonBytes, err := Text(marshalled.value), None;
        } else {
          jsonBytes, err := NoText, Some(marshalled.error);
        }
      } else if interaction.interactionType == 2 {
        var applicationCommand := UnmarshalCommand(interaction.data);
        if applicationCommand.Failure? {
          // The error handed back is the outer `err`, still nil here.
          return InternalServerError(err);
        }
        var interactionResponse := InteractionApplicationCommand(config.handlers, applicationCommand.value);
        if interactionResponse.Failure? {
          if interactionResponse.error.IsPanic() {
            return Panicked(interactionResponse.error);
          }
          return InternalServerError(Some(interactionResponse.error));
        }
        // `err` is redeclared in this case: the encoding error lands in the
        // case-local variable and the outer `err` stays nil.
        var caseErr: Option<Error>;
        var marshalled := MarshalResponse(interactionResponse.value);
        if marshalled.Success? {
          jsonBytes, caseErr := Text(marshalled.value), None;
        } else {
          jsonBytes, caseErr := NoText, Some(marshalled.error);
        }
      }

      if err.Some? {
        return InternalServerError(err);
      }
      return Ok(jsonBytes);
    }
  }
}
