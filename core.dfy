/** The bot's command layer: a registry of chat commands keyed by lower-cased name, the
    dispatcher that reads the command name and runs its handler, the `ping` command, and
    the per-guild bot state created on first use.

    The registry and the bot states are package-level maps in the Go code; here each is the
    field of one object. */
module Core {

  import opened Wrappers
  import opened Text
  import opened GatewayModel
  import Commands
  import Gateway
  import YtApi
  import Codec

  /** A command handler: `Ping`, defined here, or a handler registered by another package
      (the playback commands), named by an id. What such a handler does is not part of
      this model; the registry records that it was called and with which buffer. */
  datatype Handler = Ping | External(id: string)

  /** One call of a handler, with the buffer it was given. */
  datatype Call = Call(handler: Handler, cmd: Commands.CommandBuffer)

  /** The handler registered for `name`, in any casing. */
  function Lookup(commands: map<string, Handler>, name: string): Option<Handler>
  {
    if ToLower(name) in commands then Some(commands[ToLower(name)]) else None
  }

  /** The registry keyed by lower-cased names that `RegisterCommand` produces. */
  function Register(commands: map<string, Handler>, name: string, handler: Handler): map<string, Handler>
  {
    commands[ToLower(name) := handler]
  }

  /** After registering `name`, every casing of it finds the new handler (a second
      registration overrides the first), and every other name finds what it found before. */
  lemma RegisterThenLookup(commands: map<string, Handler>, name: string, handler: Handler, other: string)
    ensures Lookup(Register(commands, name, handler), other) ==
              if ToLower(other) == ToLower(name) then Some(handler) else Lookup(commands, other)
  {
  }

  /** Lookup ignores case: a name and its lower-cased form find the same handler. */
  lemma LookupIgnoresCase(commands: map<string, Handler>, name: string)
    ensures Lookup(commands, ToLower(name)) == Lookup(commands, name)
  {
    ToLowerIdempotent(name);
  }

  /** The reply `PingCommand` posts: "Pong! " and the rest of the command line. */
  function PingReply(cmd: Commands.CommandBuffer): string
    requires 0 <= cmd.index <= |cmd.parts|
  {
    "Pong! " + Commands.GetStringAll(cmd)
  }

  /** `PingCommand`: replies in the command's channel; the cursor does not move. */
  method PingCommand(cmd: Commands.CommandBuffer, client: Gateway.Client)
    requires 0 <= cmd.index <= |cmd.parts|
    modifies client`posted
    ensures client.posted == old(client.posted) + [MessageTo(cmd.message.channelId, PingReply(cmd))]
  {
    client.ReplyMessage(cmd.message, "Pong! " + Commands.GetStringAll(cmd));
  }

  class Registry {
    var commands: map<string, Handler>
    /** Every handler call, in order. */
    var calls: seq<Call>

    /** The package's initialisation: an empty map, then `init` registers `ping`. */
    constructor ()
      ensures commands == map["ping" := Ping] && calls == []
    {
      commands := map[];
      calls := [];
      new;
      RegisterCommand("ping", Ping);
      assert ToLower("ping") == "ping";
    }

    /** `RegisterCommand`: stores the handler under the lower-cased name. */
    method RegisterCommand(name: string, handler: Handler)
      modifies this`commands
      ensures commands == Register(old(commands), name, handler)
    {
      commands := commands[ToLower(name) := handler];
    }

    /** `HandleCommand`: reads one token as the command name; a known name calls its
        handler once, with the cursor already past the name; an unknown one replies
        "Unknown command `<name>`" with the name as typed. The registry is not changed. */
    method HandleCommand(cmd: Commands.CommandBuffer, client: Gateway.Client)
      requires 0 <= cmd.index < |cmd.parts|
      modifies this`calls, client`posted
      ensures var (name, rest) := Commands.GetString(cmd);
              match Lookup(commands, name)
              case None =>
                calls == old(calls)
                && client.posted == old(client.posted) + [MessageTo(cmd.message.channelId, "Unknown command `" + name + "`")]
              case Some(h) =>
                calls == old(calls) + [Call(h, rest)]
                && client.posted == old(client.posted) + (if h == Ping then [MessageTo(cmd.message.channelId, PingReply(rest))] else [])
    {
      var (name, cmd') := Commands.GetString(cmd);
      var handler := Lookup(commands, name);
      if handler.Some? {
        calls := calls + [Call(handler.value, cmd')];
        if handler.value == Ping {
          PingCommand(cmd', client);
        }
      } else {
        client.ReplyMessage(cmd.message, "Unknown command `" + name + "`");
      }
    }
  }

  /** A chat message `<prefix><name> <args>`, where `<name>` is "ping" in any casing, is
      dispatched to `Ping`, which echoes exactly `<args>`: the name was consumed before the
      handler ran. */
  lemma PingEcho(message: Message, name: string, args: string)
    requires |message.content| > 0 && message.content[1..] == name + " " + args
    requires ToLower(name) == "ping" && ' ' !in name
    ensures var (first, rest) := Commands.GetString(Commands.NewCommandBuffer(message));
            first == name && Lookup(map["ping" := Ping], first) == Some(Ping) && PingReply(rest) == "Pong! " + args
  {
    var buf := Commands.NewCommandBuffer(message);
    SplitAtFirst(name, ' ', args);
    assert buf.parts == [name] + Split(args, ' ');
    assert buf.parts[1..] == Split(args, ' ');
    JoinSplit(args, ' ');
  }

  /** `<prefix>ping` with nothing after it replies "Pong! ". */
  lemma PingAlone(message: Message, name: string)
    requires |message.content| > 0 && message.content[1..] == name
    requires ToLower(name) == "ping" && ' ' !in name
    ensures var (first, rest) := Commands.GetString(Commands.NewCommandBuffer(message));
            first == name && PingReply(rest) == "Pong! "
  {
    SplitNoSeparator(name, ' ');
  }

  /** A guild's playback state: its queue and the encoder playing, if any. */
  class BotState {
    var queue: seq<YtApi.MediaItem>
    var encoder: Codec.Encoder?

    constructor ()
      ensures queue == [] && encoder == null
    {
      queue := [];
      encoder := null;
    }
  }

  class BotStates {
    /** `botStates`, keyed by guild id. */
    var states: map<string, BotState>

    constructor ()
      ensures states == map[]
    {
      states := map[];
    }

    /** `GetBotState`: the guild's state, created with an empty queue and no encoder on the
        first call for that guild; later calls return that same object. */
    method GetBotState(msg: Message) returns (state: BotState)
      modifies this`states
      ensures msg.guildId in states && states[msg.guildId] == state
      ensures states.Keys == old(states).Keys + {msg.guildId}
      ensures forall g :: g in old(states) ==> g in states && states[g] == old(states)[g]
      ensures msg.guildId in old(states) ==> states == old(states)
      ensures msg.guildId !in old(states) ==> fresh(state) && state.queue == [] && state.encoder == null
    {
      if msg.guildId in states {
        return states[msg.guildId];
      }
      state := new BotState();
      states := states[msg.guildId := state];
    }
  }
}
