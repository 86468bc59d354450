/** Discord gateway (control-plane) opcodes, event names, intent bits and payload records. */
module GatewayModel {

  // Gateway opcodes.
  const OP_DISPATCH: int := 0
  const OP_HEARTBEAT: int := 1
  const OP_IDENTIFY: int := 2
  const OP_PRESENCE_UPDATE: int := 3
  const OP_VOICE_STATE_UPDATE: int := 4
  const OP_RESUME: int := 6
  const OP_RECONNECT: int := 7
  const OP_REQUEST_GUILD_MEMBERS: int := 8
  const OP_INVALID_SESSION: int := 9
  const OP_HELLO: int := 10
  const OP_HEARTBEAT_ACK: int := 11

  const OPCODES: seq<int> := [OP_DISPATCH, OP_HEARTBEAT, OP_IDENTIFY, OP_PRESENCE_UPDATE,
                              OP_VOICE_STATE_UPDATE, OP_RESUME, OP_RECONNECT, OP_REQUEST_GUILD_MEMBERS,
                              OP_INVALID_SESSION, OP_HELLO, OP_HEARTBEAT_ACK]

  // Dispatch event types.
  const EVENT_MESSAGE_CREATE: string := "MESSAGE_CREATE"
  const EVENT_READY: string := "READY"
  const EVENT_GUILD_CREATE: string := "GUILD_CREATE"
  const EVENT_VOICE_STATE_UPDATE: string := "VOICE_STATE_UPDATE"
  const EVENT_VOICE_SERVER_UPDATE: string := "VOICE_SERVER_UPDATE"
  /** Referred to by the dispatcher but not declared with the others; the wire name is used. */
  const EVENT_MESSAGE_UPDATE: string := "MESSAGE_UPDATE"

  // Intent bit flags (a Go int32).
  const INTENT_GUILDS: bv32 := 1 << 0
  const INTENT_MEMBERS: bv32 := 1 << 1
  const INTENT_BANS: bv32 := 1 << 2
  const INTENT_EMOJIS: bv32 := 1 << 3
  const INTENT_INTEGRATIONS: bv32 := 1 << 4
  const INTENT_WEBHOOKS: bv32 := 1 << 5
  const INTENT_INVITES: bv32 := 1 << 6
  const INTENT_VOICE_STATES: bv32 := 1 << 7
  const INTENT_PRESENCES: bv32 := 1 << 8
  const INTENT_MESSAGES: bv32 := 1 << 9
  const INTENT_MESSAGE_REACTIONS: bv32 := 1 << 10
  const INTENT_MESSAGE_TYPING: bv32 := 1 << 11
  const INTENT_DIRECT_MESSAGES: bv32 := 1 << 12
  const INTENT_DIRECT_MESSAGE_REACTION: bv32 := 1 << 13
  const INTENT_DIRECT_MESSAGE_TYPING: bv32 := 1 << 14
  const INTENT_MESSAGE_CONTENT: bv32 := 1 << 15
  const INTENT_SCHEDULED_EVENTS: bv32 := 1 << 16
  const INTENT_AUTO_MOD_CONFIG: bv32 := 1 << 20
  const INTENT_AUTO_MOD_EXEC: bv32 := 1 << 21

  const INTENTS: seq<bv32> := [
    INTENT_GUILDS, INTENT_MEMBERS, INTENT_BANS, INTENT_EMOJIS, INTENT_INTEGRATIONS,
    INTENT_WEBHOOKS, INTENT_INVITES, INTENT_VOICE_STATES, INTENT_PRESENCES, INTENT_MESSAGES,
    INTENT_MESSAGE_REACTIONS, INTENT_MESSAGE_TYPING, INTENT_DIRECT_MESSAGES,
    INTENT_DIRECT_MESSAGE_REACTION, INTENT_DIRECT_MESSAGE_TYPING, INTENT_MESSAGE_CONTENT,
    INTENT_SCHEDULED_EVENTS, INTENT_AUTO_MOD_CONFIG, INTENT_AUTO_MOD_EXEC]

  datatype IdentifyProperties = IdentifyProperties(operatingSystem: string, browser: string, device: string)

  datatype IdentifyPayload = IdentifyPayload(token: string, intents: bv32, properties: IdentifyProperties)

  datatype GatewayHelloMessage = GatewayHelloMessage(heartbeatInterval: int)

  datatype User = User(id: string, username: string, discriminator: string)

  datatype GatewayReadyMessage = GatewayReadyMessage(user: User)

  datatype VoiceState = VoiceState(
    userId: string, channelId: string, guildId: string, sessionId: string,
    selfVideo: bool, selfMute: bool, selfDeaf: bool, mute: bool, deaf: bool)

  datatype GatewayGuildCreateMessage = GatewayGuildCreateMessage(id: string, name: string, voiceStates: seq<VoiceState>)

  datatype Message = Message(
    id: string, content: string, author: User, guildId: string, channelId: string, nonce: string)

  datatype GuildState = GuildState(id: string, name: string, voiceStates: map<string, VoiceState>)

  datatype VoiceServer = VoiceServer(token: string, guildId: string, endpoint: string)

  const EMPTY_USER := User("", "", "")

  /** A Go zero-valued `Message` with only the given content and channel. */
  function MessageTo(channelId: string, content: string): Message
  {
    Message("", content, EMPTY_USER, "", channelId, "")
  }

  /** The gateway opcodes are pairwise distinct, and 5 is not one of them. */
  lemma OpcodesDistinct()
    ensures forall i, j :: 0 <= i < j < |OPCODES| ==> OPCODES[i] != OPCODES[j]
    ensures 5 !in OPCODES
  {
  }

  predicate IsPowerOfTwo(x: bv32)
  {
    x != 0 && x & (x - 1) == 0
  }

  /** Two different single-bit values share no bit. */
  lemma DistinctPowersDisjoint(a: bv32, b: bv32)
    requires IsPowerOfTwo(a) && IsPowerOfTwo(b) && a != b
    ensures a & b == 0
  {
  }

  // The facts about the nineteen intents are checked over index ranges, one lemma per range.

  lemma LowIntentsArePowersOfTwo()
    ensures forall i :: 0 <= i < 10 ==> IsPowerOfTwo(INTENTS[i])
  {
  }

  lemma HighIntentsArePowersOfTwo()
    ensures forall i :: 10 <= i < |INTENTS| ==> IsPowerOfTwo(INTENTS[i])
  {
  }

  lemma LowIntentsDiffer()
    ensures forall i, j :: 0 <= i < j < 10 ==> INTENTS[i] != INTENTS[j]
  {
  }

  lemma MixedIntentsDiffer()
    ensures forall i, j :: 0 <= i < 10 <= j < |INTENTS| ==> INTENTS[i] != INTENTS[j]
  {
    assert forall i :: 0 <= i < 10 ==> INTENTS[i] <= 1 << 9;
    assert forall j :: 10 <= j < |INTENTS| ==> INTENTS[j] >= 1 << 10;
  }

  lemma HighIntentsDiffer()
    ensures forall i, j :: 10 <= i < j < |INTENTS| ==> INTENTS[i] != INTENTS[j]
  {
  }

  lemma IntentsDiffer()
    ensures forall i, j :: 0 <= i < j < |INTENTS| ==> INTENTS[i] != INTENTS[j]
  {
    LowIntentsDiffer();
    MixedIntentsDiffer();
    HighIntentsDiffer();
  }

  /** Every intent is a single bit, no two intents share a bit, and bits 17 to 19 are unused. */
  lemma IntentsAreDistinctBits()
    ensures forall i :: 0 <= i < |INTENTS| ==> IsPowerOfTwo(INTENTS[i])
    ensures forall i, j :: 0 <= i < j < |INTENTS| ==> INTENTS[i] & INTENTS[j] == 0
    ensures forall i :: 0 <= i < |INTENTS| ==> INTENTS[i] & (7 << 17) == 0
  {
    LowIntentsArePowersOfTwo();
    HighIntentsArePowersOfTwo();
    IntentsDiffer();
    forall i, j | 0 <= i < j < |INTENTS|
      ensures INTENTS[i] & INTENTS[j] == 0
    {
      DistinctPowersDisjoint(INTENTS[i], INTENTS[j]);
    }
  }

  /** The intents the bot starts with (Guilds, VoiceStates, Messages, MessageContent) OR to 33409. */
  lemma StartupIntents()
    ensures INTENT_GUILDS | INTENT_VOICE_STATES | INTENT_MESSAGES | INTENT_MESSAGE_CONTENT == 33409
  {
  }
}
