/** The gateway (control-plane) client: identify, heartbeat, intents, joining a voice channel,
    and the opcode and event dispatcher that keeps the sequence number, the logged-in user,
    the per-guild voice states, the command queue and the voice-server hand-off.

    The record holds every field the client and its handler use: the client's own `conn`
    (the flag `connected` and the log `written` of frames written to it) and the handler's
    `ws`, which no constructor assigns and which may therefore be null; using it then ends
    the process. The command channel (capacity 25) and the voice-server channel become
    sequences; chat messages posted over HTTP are logged in `posted`. */
module Gateway {

  import opened Wrappers
  import opened Bits
  import opened Text
  import opened Messages
  import opened GatewayModel
  import Commands
  import Socket
  import Voice

  const GATEWAY_URL: string := "wss://gateway.discord.gg/?encoding=json&v=10"
  const COMMAND_CAPACITY: nat := 25

  /** `json.Unmarshal` into each gateway payload type. */
  datatype GatewayJson = GatewayJson(
    hello: string -> Option<GatewayHelloMessage>,
    ready: string -> Option<GatewayReadyMessage>,
    guildCreate: string -> Option<GatewayGuildCreateMessage>,
    voiceState: string -> Option<VoiceState>,
    message: string -> Option<Message>,
    voiceServer: string -> Option<VoiceServer>)

  /** The voice states of a new guild keyed by user id, each stamped with the guild id; a
      later entry for the same user replaces an earlier one. */
  function VoiceStateMap(guildId: string, states: seq<VoiceState>): map<string, VoiceState>
  {
    if |states| == 0 then map[]
    else
      var last := states[|states| - 1];
      VoiceStateMap(guildId, states[..|states| - 1])[last.userId := last.(guildId := guildId)]
  }

  /** The map has exactly the users that appear in the list. */
  lemma {:induction false} VoiceStateMapKeys(guildId: string, states: seq<VoiceState>)
    ensures forall u :: u in VoiceStateMap(guildId, states) <==> exists i :: 0 <= i < |states| && states[i].userId == u
  {
    if |states| > 0 {
      var init := states[..|states| - 1];
      VoiceStateMapKeys(guildId, init);
      forall u | u in VoiceStateMap(guildId, states)
        ensures exists i :: 0 <= i < |states| && states[i].userId == u
      {
        if u != states[|states| - 1].userId {
          assert u in VoiceStateMap(guildId, init);
          var i :| 0 <= i < |init| && init[i].userId == u;
          assert states[i] == init[i];
        }
      }
      forall u | exists i :: 0 <= i < |states| && states[i].userId == u
        ensures u in VoiceStateMap(guildId, states)
      {
        var i :| 0 <= i < |states| && states[i].userId == u;
        if i < |init| {
          assert init[i] == states[i];
        }
      }
    }
  }

  /** Each entry is the user's own state, stamped with the guild id. */
  lemma {:induction false} VoiceStateMapStamped(guildId: string, states: seq<VoiceState>)
    ensures forall u :: u in VoiceStateMap(guildId, states) ==>
              VoiceStateMap(guildId, states)[u].guildId == guildId && VoiceStateMap(guildId, states)[u].userId == u
  {
    if |states| > 0 {
      VoiceStateMapStamped(guildId, states[..|states| - 1]);
    }
  }

  /** A user's entry is the last state for that user in the list: later duplicates win. */
  lemma {:induction false} VoiceStateMapLastWins(guildId: string, states: seq<VoiceState>, i: nat)
    requires i < |states|
    requires forall j :: i < j < |states| ==> states[j].userId != states[i].userId
    ensures states[i].userId in VoiceStateMap(guildId, states)
    ensures VoiceStateMap(guildId, states)[states[i].userId] == states[i].(guildId := guildId)
  {
    if i < |states| - 1 {
      var init := states[..|states| - 1];
      assert init[i] == states[i];
      forall j | i < j < |init|
        ensures init[j].userId != init[i].userId
      {
        assert init[j] == states[j];
      }
      VoiceStateMapLastWins(guildId, init, i);
    }
  }

  /** Whether a chat message is a command: non-empty, and its first character is the prefix. */
  predicate IsCommand(content: string, prefix: char)
  {
    |content| > 0 && content[0] == prefix
  }

  /** Whether handling `msg` pushes onto the command queue. */
  predicate EnqueuesCommand(msg: WsMessageIn, json: GatewayJson, prefix: char)
  {
    msg.opcode == OP_DISPATCH && msg.eventType == EVENT_MESSAGE_CREATE && msg.data.Some?
    && json.message(msg.data.value).Some? && IsCommand(json.message(msg.data.value).value.content, prefix)
  }

  /** The VoiceStateUpdate request `JoinVoiceChannel` sends: the channel and guild asked for,
      deafened, not muted, no video. */
  function JoinRequest(state: VoiceState): VoiceState
  {
    VoiceState("", state.channelId, state.guildId, "", false, false, true, false, false)
  }

  function IdentifyMessage(authToken: string, intents: bv32, operatingSystem: string): WsMessageOut
  {
    WsMessageOut(OP_IDENTIFY, IdentifyData(IdentifyPayload(authToken, intents,
      IdentifyProperties(operatingSystem, "neko", "neko"))))
  }

  /** The part of the client that event handling changes. */
  datatype EventView = EventView(
    userId: string, guilds: map<string, GuildState>,
    commands: seq<Commands.CommandBuffer>, voiceServers: seq<VoiceServer>)

  /** What `handleEvent` makes of the client's event state: None when the process ends (a
      payload that does not decode, or a voice state for an unknown guild). READY records
      the user id, GUILD_CREATE replaces the guild's entry, VOICE_STATE_UPDATE upserts one
      user's state, MESSAGE_CREATE queues a command when the content starts with the
      prefix, VOICE_SERVER_UPDATE hands the server on; any other event changes nothing. */
  function EventEffect(v: EventView, msg: WsMessageIn, json: GatewayJson, prefix: char): Option<EventView>
    requires msg.data.Some?
  {
    var d := msg.data.value;
    if msg.eventType == EVENT_READY then
      match json.ready(d)
      case None => None
      case Some(m) => Some(v.(userId := m.user.id))
    else if msg.eventType == EVENT_GUILD_CREATE then
      match json.guildCreate(d)
      case None => None
      case Some(m) => Some(v.(guilds := v.guilds[m.id := GuildState(m.id, m.name, VoiceStateMap(m.id, m.voiceStates))]))
    else if msg.eventType == EVENT_VOICE_STATE_UPDATE then
      match json.voiceState(d)
      case None => None
      case Some(s) =>
        if s.guildId !in v.guilds then None
        else Some(v.(guilds := v.guilds[s.guildId :=
                       v.guilds[s.guildId].(voiceStates := v.guilds[s.guildId].voiceStates[s.userId := s])]))
    else if msg.eventType == EVENT_MESSAGE_CREATE then
      match json.message(d)
      case None => None
      case Some(m) => Some(v.(commands := v.commands + if IsCommand(m.content, prefix) then [Commands.NewCommandBuffer(m)] else []))
    else if msg.eventType == EVENT_VOICE_SERVER_UPDATE then
      match json.voiceServer(d)
      case None => None
      case Some(s) => Some(v.(voiceServers := v.voiceServers + [s]))
    else Some(v)
  }

  /** OR-ing intents is order-insensitive and repeating one changes nothing. */
  lemma IntentsAccumulate(a: bv32, b: bv32, c: bv32)
    ensures (a | b) | c == (a | c) | b
    ensures (a | b) | b == a | b
    ensures ((a | b) & a) == a
  {
  }

  class Client {
    var authToken: string
    var connected: bool
    var written: seq<WsMessageOut>
    var intents: bv32
    var sequence: int
    var cmdPrefix: char
    var userId: string
    var guilds: map<string, GuildState>
    var commands: seq<Commands.CommandBuffer>
    var voiceServers: seq<VoiceServer>
    var posted: seq<Message>
    var ws: Socket.WebSocket?

    ghost predicate Valid()
      reads this
    {
      |commands| <= COMMAND_CAPACITY
    }

    ghost function View(): EventView
      reads this
    {
      EventView(userId, guilds, commands, voiceServers)
    }

    /** `NewClient`. */
    constructor (token: string, commandPrefix: char)
      ensures Valid()
      ensures authToken == "Bot " + token && cmdPrefix == commandPrefix
      ensures guilds == map[] && commands == [] && voiceServers == [] && posted == []
      ensures !connected && written == [] && intents == 0 && sequence == 0 && userId == ""
      ensures ws == null
    {
      authToken := "Bot " + token;
      connected := false;
      written := [];
      intents := 0;
      sequence := 0;
      cmdPrefix := commandPrefix;
      userId := "";
      guilds := map[];
      commands := [];
      voiceServers := [];
      posted := [];
      ws := null;
    }

    /** `AddIntent`: bitwise OR, so bits are only ever added. */
    method AddIntent(intent: bv32)
      modifies this`intents
      ensures intents == old(intents) | intent
    {
      intents := intents | intent;
    }

    /** `sendMessage`: one frame written on the connection; the write error is returned. */
    method SendMessage(opcode: int, data: OutData, writeErr: Option<string>) returns (err: Option<string>)
      requires connected
      modifies this`written
      ensures err == writeErr
      ensures writeErr.None? ==> written == old(written) + [WsMessageOut(opcode, data)]
      ensures writeErr.Some? ==> written == old(written)
    {
      if writeErr.Some? {
        return writeErr;
      }
      written := written + [WsMessageOut(opcode, data)];
      err := None;
    }

    /** `sendIdentify`: the bot token, the accumulated intents, the host OS, and "neko" as
        browser and device. */
    method SendIdentify(operatingSystem: string, writeErr: Option<string>) returns (err: Option<string>)
      requires connected
      modifies this`written
      ensures err == writeErr
      ensures writeErr.None? ==> written == old(written) + [IdentifyMessage(authToken, intents, operatingSystem)]
      ensures writeErr.None? ==> var p := written[|written| - 1].data.identify;
                                 p.token == authToken && p.intents == intents
                                 && p.properties.browser == "neko" && p.properties.device == "neko"
      ensures writeErr.Some? ==> written == old(written)
    {
      err := SendMessage(OP_IDENTIFY, IdentifyData(IdentifyPayload(authToken, intents,
        IdentifyProperties(operatingSystem, "neko", "neko"))), writeErr);
    }

    /** `sendHeartbeat`: the current sequence number as payload. */
    method SendHeartbeat(writeErr: Option<string>) returns (err: Option<string>)
      requires connected
      modifies this`written
      ensures err == writeErr
      ensures writeErr.None? ==> written == old(written) + [WsMessageOut(OP_HEARTBEAT, SequenceData(sequence))]
      ensures writeErr.Some? ==> written == old(written)
    {
      err := SendMessage(OP_HEARTBEAT, SequenceData(sequence), writeErr);
    }

    /** `Start`: dial the gateway, then identify. */
    method Start(dial: string -> Option<string>, operatingSystem: string, writeErr: Option<string>)
      returns (err: Option<string>)
      modifies this`connected, this`written
      ensures dial(GATEWAY_URL).Some? ==> err == dial(GATEWAY_URL) && connected == old(connected) && written == old(written)
      ensures dial(GATEWAY_URL).None? ==> connected && err == writeErr
      ensures dial(GATEWAY_URL).None? && writeErr.None? ==> written == old(written) + [IdentifyMessage(authToken, intents, operatingSystem)]
    {
      err := dial(GATEWAY_URL);
      if err.Some? {
        return;
      }
      connected := true;
      err := SendIdentify(operatingSystem, writeErr);
    }

    /** `PostMessage`: the message goes out over HTTP; only a log of what was posted is kept. */
    method PostMessage(message: Message)
      modifies this`posted
      ensures posted == old(posted) + [message]
    {
      posted := posted + [message];
    }

    /** `ReplyMessage`: a new message with the content, in the channel of the one replied to. */
    method ReplyMessage(message: Message, content: string)
      modifies this`posted
      ensures posted == old(posted) + [MessageTo(message.channelId, content)]
    {
      PostMessage(MessageTo(message.channelId, content));
    }

    /** `SendMessage`: posts a new message with the content to the channel, and returns it. */
    method SendChannelMessage(channel: string, content: string) returns (message: Message)
      modifies this`posted
      ensures message.channelId == channel && message.content == content
      ensures posted == old(posted) + [message]
    {
      message := MessageTo(channel, content);
      PostMessage(message);
    }

    /** `EditMessage` is not written yet: it panics, and nothing is posted. */
    method EditMessage(message: Message, newContent: string) returns (outcome: Outcome)
      ensures outcome == Crash("todo")
    {
      outcome := Crash("todo");
    }

    /** `JoinVoiceChannel`: ask to join (a send error returns at once), take the next voice
        server announced, look up the bot's own voice state in that guild, and start a voice
        client for it. The voice client is also returned (the Go code drops it). */
    method JoinVoiceChannel(state: VoiceState, sendErr: Option<string>, dial: string -> Option<string>)
      returns (err: Option<string>, voiceClient: Voice.VoiceClient?)
      requires connected
      requires sendErr.None? ==> |voiceServers| > 0
      modifies this`written, this`voiceServers
      ensures sendErr.Some? ==> (err == sendErr && voiceClient == null
                                 && written == old(written) && voiceServers == old(voiceServers))
      ensures sendErr.None? ==> written == old(written) + [WsMessageOut(OP_VOICE_STATE_UPDATE, VoiceStateData(JoinRequest(state)))]
                                && voiceServers == old(voiceServers[1..])
      ensures sendErr.None? && !(state.guildId in guilds && userId in guilds[state.guildId].voiceStates) ==>
                err == Some("could not get own voice state") && voiceClient == null
      ensures sendErr.None? && state.guildId in guilds && userId in guilds[state.guildId].voiceStates ==>
                voiceClient != null && fresh(voiceClient)
                && voiceClient.userId == userId
                && voiceClient.sessionId == guilds[state.guildId].voiceStates[userId].sessionId
                && voiceClient.server == old(voiceServers[0])
                && err == dial(Voice.VoiceGatewayUrl(old(voiceServers[0]).endpoint))
                && voiceClient.connected == err.None?
    {
      voiceClient := null;
      err := SendMessage(OP_VOICE_STATE_UPDATE, VoiceStateData(JoinRequest(state)), sendErr);
      if err.Some? {
        return;
      }
      var voiceServer := voiceServers[0];
      voiceServers := voiceServers[1..];
      if !(state.guildId in guilds && userId in guilds[state.guildId].voiceStates) {
        return Some("could not get own voice state"), null;
      }
      var own := guilds[state.guildId].voiceStates[userId];
      voiceClient := new Voice.VoiceClient(userId, own.sessionId, voiceServer);
      err := voiceClient.Start(dial);
    }

    /** The GUILD_CREATE loop: the voice states keyed by user id, stamped with the guild id. */
    static method BuildVoiceStateMap(guildId: string, states: seq<VoiceState>) returns (m: map<string, VoiceState>)
      ensures m == VoiceStateMap(guildId, states)
    {
      m := map[];
      var i := 0;
      while i < |states|
        invariant 0 <= i <= |states|
        invariant m == VoiceStateMap(guildId, states[..i])
      {
        var state := states[i].(guildId := guildId);
        m := m[state.userId := state];
        assert states[..i + 1][..i] == states[..i];
        i := i + 1;
      }
      assert states[..i] == states;
    }

    /** `handleEvent`: READY records the user id; GUILD_CREATE replaces the guild's entry;
        VOICE_STATE_UPDATE upserts one user's state in an existing guild (a missing guild is
        a write to a nil map and ends the process); MESSAGE_CREATE queues a command exactly
        when the content starts with the prefix; VOICE_SERVER_UPDATE hands the server on.
        Every other event, MESSAGE_UPDATE included, changes nothing; a payload that does not
        decode ends the process. */
    method HandleEvent(msg: WsMessageIn, json: GatewayJson) returns (outcome: Outcome)
      requires Valid() && msg.data.Some?
      requires EnqueuesCommand(msg.(opcode := OP_DISPATCH), json, cmdPrefix) ==> |commands| < COMMAND_CAPACITY
      modifies this`userId, this`guilds, this`commands, this`voiceServers
      ensures Valid()
      ensures outcome.Crash? ==> View() == old(View())
      ensures outcome.Crash? <==> EventEffect(old(View()), msg, json, cmdPrefix).None?
      ensures outcome.Continue? ==> View() == EventEffect(old(View()), msg, json, cmdPrefix).value
      ensures msg.eventType !in {EVENT_READY, EVENT_GUILD_CREATE, EVENT_VOICE_STATE_UPDATE,
                                EVENT_MESSAGE_CREATE, EVENT_VOICE_SERVER_UPDATE} ==>
                outcome.Continue? && View() == old(View())
      ensures msg.eventType == EVENT_READY ==>
                match json.ready(msg.data.value)
                case None => outcome.Crash?
                case Some(m) => outcome.Continue? && View() == old(View()).(userId := m.user.id)
      ensures msg.eventType == EVENT_GUILD_CREATE ==>
                match json.guildCreate(msg.data.value)
                case None => outcome.Crash?
                case Some(m) => outcome.Continue? && View() == old(View()).(guilds :=
                                  old(guilds)[m.id := GuildState(m.id, m.name, VoiceStateMap(m.id, m.voiceStates))])
      ensures msg.eventType == EVENT_VOICE_STATE_UPDATE ==>
                match json.voiceState(msg.data.value)
                case None => outcome.Crash?
                case Some(s) =>
                  (outcome.Crash? <==> s.guildId !in old(guilds))
                  && (outcome.Continue? ==> View() == old(View()).(guilds := old(guilds)[s.guildId :=
                        old(guilds)[s.guildId].(voiceStates := old(guilds)[s.guildId].voiceStates[s.userId := s])]))
      ensures msg.eventType == EVENT_MESSAGE_CREATE ==>
                match json.message(msg.data.value)
                case None => outcome.Crash?
                case Some(m) => outcome.Continue? && View() == old(View()).(commands :=
                                  old(commands) + if IsCommand(m.content, cmdPrefix) then [Commands.NewCommandBuffer(m)] else [])
      ensures msg.eventType == EVENT_VOICE_SERVER_UPDATE ==>
                match json.voiceServer(msg.data.value)
                case None => outcome.Crash?
                case Some(v) => outcome.Continue? && View() == old(View()).(voiceServers := old(voiceServers) + [v])
    {
      if msg.eventType == EVENT_READY {
        var m := Unmarshal(msg, json.ready);
        if m.Err? { return Crash(m.error); }
        userId := m.value.user.id;
      } else if msg.eventType == EVENT_GUILD_CREATE {
        var m := Unmarshal(msg, json.guildCreate);
        if m.Err? { return Crash(m.error); }
        var voiceStates := BuildVoiceStateMap(m.value.id, m.value.voiceStates);
        guilds := guilds[m.value.id := GuildState(m.value.id, m.value.name, voiceStates)];
      } else if msg.eventType == EVENT_VOICE_STATE_UPDATE {
        var s := Unmarshal(msg, json.voiceState);
        if s.Err? { return Crash(s.error); }
        var state := s.value;
        if state.guildId !in guilds {
          return Crash("assignment to entry in nil map");
        }
        var guild := guilds[state.guildId];
        guilds := guilds[state.guildId := guild.(voiceStates := guild.voiceStates[state.userId := state])];
      } else if msg.eventType == EVENT_MESSAGE_CREATE {
        var m := Unmarshal(msg, json.message);
        if m.Err? { return Crash(m.error); }
        if |m.value.content| > 0 && m.value.content[0] == cmdPrefix {
          commands := commands + [Commands.NewCommandBuffer(m.value)];
        }
      } else if msg.eventType == EVENT_MESSAGE_UPDATE {
        // ignored
      } else if msg.eventType == EVENT_VOICE_SERVER_UPDATE {
        var v := Unmarshal(msg, json.voiceServer);
        if v.Err? { return Crash(v.error); }
        voiceServers := voiceServers + [v.value];
      }
      outcome := Continue;
    }

    /** What `handleMessage` does with one message. A message without data changes nothing.
        Dispatch records the message's sequence number and then has exactly the effect of
        `handleEvent`. Hello starts the socket heartbeat at the given number of milliseconds,
        beating with the sequence current at each beat; it panics exactly when `ws` is nil or
        that duration is not positive. InvalidSession ends the process.
        Reconnect reconnects the socket. Other opcodes change nothing. */
    twostate predicate MessageHandled(msg: WsMessageIn, json: GatewayJson, reconnectDialErr: Option<string>,
                                      outcome: Outcome)
      reads this, ws
    {
      && ws == old(ws)
      && (msg.data.None? ==> (outcome.Continue? && sequence == old(sequence) && View() == old(View())
                              && (ws != null ==> ws.heartbeat == old(ws.heartbeat) && ws.closed == old(ws.closed))))
      && (msg.data.Some? && msg.opcode == OP_DISPATCH ==>
            sequence == msg.sequence
            && (outcome.Crash? <==> EventEffect(old(View()), msg, json, cmdPrefix).None?)
            && (outcome.Crash? ==> View() == old(View()))
            && (outcome.Continue? ==> View() == EventEffect(old(View()), msg, json, cmdPrefix).value))
      && (!(msg.data.Some? && msg.opcode == OP_DISPATCH) ==> sequence == old(sequence) && View() == old(View()))
      && (msg.data.Some? && msg.opcode == OP_HELLO ==>
            match json.hello(msg.data.value)
            case None => outcome.Crash?
            case Some(h) => (outcome.Crash? <==> ws == null || Milliseconds(h.heartbeatInterval) <= 0))
      && (msg.data.Some? && msg.opcode == OP_HELLO && outcome.Continue? ==>
            ws != null && json.hello(msg.data.value).Some?
            && ws.heartbeat == Some(Socket.Ticker(Milliseconds(json.hello(msg.data.value).value.heartbeatInterval), true))
            && ws.heartbeatProvider == Some(Socket.GatewayBeat))
      && (msg.data.Some? && msg.opcode == OP_INVALID_SESSION ==> outcome == Crash("The session is invalid"))
      && (msg.data.Some? && msg.opcode == OP_RECONNECT ==>
            (outcome.Continue? <==> ws != null)
            && (ws != null ==> ws.connections == old(ws.connections) + (if reconnectDialErr.None? then 1 else 0)
                               && ws.closed == reconnectDialErr.Some?))
      && (msg.data.Some? && !(msg.opcode in {OP_DISPATCH, OP_HELLO, OP_INVALID_SESSION, OP_RECONNECT}) ==>
            outcome.Continue? && (ws != null ==> ws.heartbeat == old(ws.heartbeat) && ws.closed == old(ws.closed)))
    }

    /** `handleMessage`, as `MessageHandled` describes. */
    method HandleMessage(msg: WsMessageIn, json: GatewayJson, reconnectDialErr: Option<string>)
      returns (outcome: Outcome)
      requires Valid()
      requires ws != null ==> ws.Valid()
      requires EnqueuesCommand(msg, json, cmdPrefix) ==> |commands| < COMMAND_CAPACITY
      modifies this`sequence, this`userId, this`guilds, this`commands, this`voiceServers, ws
      ensures Valid() && (ws != null ==> ws.Valid())
      ensures MessageHandled(msg, json, reconnectDialErr, outcome)
    {
      if msg.data.None? {
        return Continue;
      }
      if msg.opcode == OP_DISPATCH {
        sequence := msg.sequence;
        outcome := HandleEvent(msg, json);
      } else if msg.opcode == OP_HELLO {
        var hello := Unmarshal(msg, json.hello);
        if hello.Err? {
          return Crash(hello.error);
        }
        if ws == null {
          return Crash("invalid memory address or nil pointer dereference");
        }
        outcome := ws.StartHeartbeat(Milliseconds(hello.value.heartbeatInterval), Socket.GatewayBeat);
      } else if msg.opcode == OP_INVALID_SESSION {
        outcome := Crash("The session is invalid");
      } else if msg.opcode == OP_RECONNECT {
        if ws == null {
          return Crash("invalid memory address or nil pointer dereference");
        }
        ws.Reconnect(reconnectDialErr);
        outcome := Continue;
      } else {
        outcome := Continue;
      }
    }

    /** One turn of `receiveLoop`: a read or decode failure ends the process, otherwise the
        message is handled. */
    method ReceiveStep(read: Result<string>, decode: string -> Option<WsMessageIn>, json: GatewayJson,
                       reconnectDialErr: Option<string>) returns (outcome: Outcome)
      requires Valid()
      requires ws != null ==> ws.Valid()
      requires read.Ok? && decode(read.value).Some? && EnqueuesCommand(decode(read.value).value, json, cmdPrefix) ==>
                 |commands| < COMMAND_CAPACITY
      modifies this`sequence, this`userId, this`guilds, this`commands, this`voiceServers, ws
      ensures Valid()
      ensures read.Err? ==> outcome.Crash? && sequence == old(sequence) && View() == old(View())
      ensures read.Ok? && decode(read.value).None? ==> outcome.Crash? && sequence == old(sequence) && View() == old(View())
      ensures read.Ok? && decode(read.value).Some? ==> MessageHandled(decode(read.value).value, json, reconnectDialErr, outcome)
    {
      if read.Err? {
        return Crash("failed to read from WebSocket: " + read.error);
      }
      var message := decode(read.value);
      if message.None? {
        return Crash("failed to decode JSON");
      }
      outcome := HandleMessage(message.value, json, reconnectDialErr);
    }
  }
}
