// The per-type interaction handlers shared by internal/ and
// service/internal/: InteractionPing and interactionApplicationCommand.

module Interactions {
  import opened Base
  import opened Json
  import opened Model

  /** InteractionPing: a response of type 1 (pong) with zero-valued data. */
  function InteractionPing(): (r: InteractionResponse)
    ensures r.responseType == 1
    ensures !r.data.tts && r.data.content == "" && r.data.flags == 0
    ensures r.data.embeds == [] && r.data.components.Nil? && r.data.allowedMentions.Nil? && r.data.attachments.Nil?
  {
    InteractionResponse(1, ZeroResponseData)
  }

  /**
   * The pong serialises as {"type":1,"data":{"tts":false}}: `data` and `tts`
   * have no `omitempty` tag, every other field does and is empty.
   */
  lemma PingEncoding()
    ensures MarshalResponse(InteractionPing()) ==
      Success(Object([("type", Number(1)), ("data", Object([("tts", Bool(false))]))]))
  {
    var d := InteractionPing().data;
    assert EncodableData(d);
    assert DataMembers(d) == [("tts", Bool(false))] + [] + [] + [] + [] + [] + [];
    assert DataMembers(d) == [("tts", Bool(false))];
  }

  /** The reply to a command that no handler is registered for. */
  const UnregisteredCommand := ChannelMessage("Unregistered command")

  /**
   * What dispatching `command` yields: the result of the handler registered
   * under exactly its name, or the fallback reply.
   */
  function Dispatched(handlers: map<string, Handler>, command: ApplicationCommand): Result<InteractionResponse, Error> {
    if command.name in handlers then handlers[command.name](command) else Success(UnregisteredCommand)
  }

  /**
   * interactionApplicationCommand: ranges over the registry in an arbitrary
   * order and returns the result of the first handler whose key equals the
   * command's name, or the fallback reply when none does.
   */
  method InteractionApplicationCommand(handlers: map<string, Handler>, command: ApplicationCommand)
    returns (r: Result<InteractionResponse, Error>)
    ensures r == Dispatched(handlers, command)
  {
    var remaining := handlers.Keys;
    while remaining != {}
      invariant remaining <= handlers.Keys
      invariant command.name in handlers ==> command.name in remaining
      decreases remaining
    {
      var key :| key in remaining;
      if key == command.name {
        return handlers[key](command);
      }
      remaining := remaining - {key};
    }
    return Success(UnregisteredCommand);
  }

  /** A registered name gets exactly what its handler returns, error included. */
  lemma DispatchMatched(handlers: map<string, Handler>, command: ApplicationCommand)
    requires command.name in handlers
    ensures Dispatched(handlers, command) == handlers[command.name](command)
  {
  }

  /**
   * An unregistered name gets a channel message (type 4) saying
   * "Unregistered command", not read aloud, and never an error.
   */
  lemma DispatchFallback(handlers: map<string, Handler>, command: ApplicationCommand)
    requires command.name !in handlers
    ensures Dispatched(handlers, command).Success?
    ensures var r := Dispatched(handlers, command).value;
      r.responseType == 4 && r.data.content == "Unregistered command" && !r.data.tts
  {
  }

  /** With an empty registry every command gets the fallback reply. */
  lemma EmptyRegistryFallsBack(command: ApplicationCommand)
    ensures Dispatched(map[], command) == Success(UnregisteredCommand)
  {
  }

  /**
   * Matching is exact: the outcome depends only on what is registered under
   * the command's very name, so handlers under other names (including names
   * differing only in case or spacing) are never invoked.
   */
  lemma DispatchOnlyReadsExactName(h1: map<string, Handler>, h2: map<string, Handler>, command: ApplicationCommand)
    requires (command.name in h1) == (command.name in h2)
    requires command.name in h1 ==> h1[command.name] == h2[command.name]
    ensures Dispatched(h1, command) == Dispatched(h2, command)
  {
  }
}
