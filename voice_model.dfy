/** Discord voice-gateway opcodes, voice client events and payload records. */
module VoiceModel {

  import opened Bits
  import opened Wrappers

  const OP_IDENTIFY: int := 0
  const OP_SELECT_PROTOCOL: int := 1
  const OP_READY: int := 2
  const OP_HEARTBEAT: int := 3
  const OP_SESSION_DESC: int := 4
  const OP_SPEAKING: int := 5
  const OP_HEARTBEAT_ACK: int := 6
  const OP_RESUME: int := 7
  const OP_HELLO: int := 8
  const OP_RESUMED: int := 9
  const OP_CLIENT_DISCONNECT: int := 13

  const OPCODES: seq<int> := [OP_IDENTIFY, OP_SELECT_PROTOCOL, OP_READY, OP_HEARTBEAT,
                              OP_SESSION_DESC, OP_SPEAKING, OP_HEARTBEAT_ACK, OP_RESUME,
                              OP_HELLO, OP_RESUMED, OP_CLIENT_DISCONNECT]

  // Events a voice client reports to the playback code.
  const EVENT_READY: int := 1
  const EVENT_PLAYING: int := 2
  const EVENT_FINISHED: int := 3
  const EVENT_STOPPED: int := 4
  const EVENT_ERROR: int := 5

  const EVENTS: seq<int> := [EVENT_READY, EVENT_PLAYING, EVENT_FINISHED, EVENT_STOPPED, EVENT_ERROR]

  datatype VoiceIdentifyMessage = VoiceIdentifyMessage(serverId: string, userId: string, sessionId: string, token: string)

  /** The interval is a float32 number of milliseconds on the wire; kept as an integer here. */
  datatype VoiceHelloMessage = VoiceHelloMessage(heartbeatInterval: int)

  datatype VoiceReadyMessage = VoiceReadyMessage(ssrc: U32, port: int, ip: string, modes: seq<string>)

  datatype ProtocolData = ProtocolData(address: string, port: int, mode: string)

  datatype VoiceSelectProtocolMessage = VoiceSelectProtocolMessage(protocol: string, data: ProtocolData)

  /** `SecretKey []byte`: None is a nil slice (the field absent or null). */
  datatype VoiceSessionDescriptionMessage = VoiceSessionDescriptionMessage(secretKey: Option<seq<Byte>>)

  datatype VoiceSpeakingMessage = VoiceSpeakingMessage(speaking: int, delay: int, ssrc: U32)

  /** The voice opcodes are 0 to 9 and 13, pairwise distinct. */
  lemma OpcodesDistinct()
    ensures forall i, j :: 0 <= i < j < |OPCODES| ==> OPCODES[i] != OPCODES[j]
    ensures forall i :: 0 <= i < |OPCODES| ==> 0 <= OPCODES[i] <= 9 || OPCODES[i] == 13
  {
  }

  /** The voice events are 1 to 5, pairwise distinct. */
  lemma EventsDistinct()
    ensures forall i :: 0 <= i < |EVENTS| ==> EVENTS[i] == i + 1
  {
  }
}
