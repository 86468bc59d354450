/** The voice-gateway client: its outbound queue and send loop, the Identify, Speaking and
    SelectProtocol payloads, the encryption-mode check, and the voice opcode handler.

    The record holds every field that the client and its handler use: the handler's `ws`,
    `Events` and `ready` as well as the client's own `conn` and `sendQueue`. `ws` is never
    assigned by the client, so it may be null, and using it then ends the process. The
    unbuffered `sendQueue` is a FIFO sequence; `attempted` logs what the send loop took from
    it and `written` what it wrote successfully. */
module Voice {

  import opened Wrappers
  import opened Bits
  import opened Messages
  import opened VoiceModel
  import G = GatewayModel
  import Socket
  import Stream

  const PREFERRED_ENCRYPTION_MODE: string := "xsalsa20_poly1305"

  /** `json.Unmarshal` into each voice payload type. */
  datatype VoiceJson = VoiceJson(
    hello: string -> Option<VoiceHelloMessage>,
    ready: string -> Option<VoiceReadyMessage>,
    sessionDescription: string -> Option<VoiceSessionDescriptionMessage>)

  /** The outcomes of the UDP dial, the discovery write and the discovery read. */
  datatype UdpIo = UdpIo(dialErr: Option<string>, writeErr: Option<string>, reply: Result<seq<Byte>>)

  /** The address `start` dials. */
  function VoiceGatewayUrl(endpoint: string): (url: string)
    ensures |url| == |endpoint| + 10
    ensures url[..6] == "wss://" && url[|url| - 4..] == "?v=4"
    ensures url[6..|url| - 4] == endpoint
  {
    "wss://" + endpoint + "?v=4"
  }

  function IdentifyMessage(server: G.VoiceServer, userId: string, sessionId: string): WsMessageOut
  {
    WsMessageOut(OP_IDENTIFY, VoiceIdentifyData(VoiceIdentifyMessage(server.guildId, userId, sessionId, server.token)))
  }

  function SpeakingMessage(speaking: bool, ssrc: U32): (m: WsMessageOut)
  {
    WsMessageOut(OP_SPEAKING, SpeakingData(VoiceSpeakingMessage(if speaking then 5 else 0, 0, ssrc)))
  }

  function SelectProtocolMessage(localIp: string, localPort: int): WsMessageOut
  {
    WsMessageOut(OP_SELECT_PROTOCOL, SelectProtocolData(
      VoiceSelectProtocolMessage("udp", ProtocolData(localIp, localPort, PREFERRED_ENCRYPTION_MODE))))
  }

  /** Setting up a new stream with these I/O outcomes succeeds: the dial, the discovery write
      and read all succeed, and the reply's address field is terminated. */
  predicate SetupSucceeds(io: UdpIo)
  {
    io.dialErr.None? && io.writeErr.None? && io.reply.Ok?
    && Stream.ParseDiscoveryResponse(Stream.ResponseBuffer(io.reply.value)).Some?
  }

  /** The reply arrives but its address field has no terminator: slicing it panics. */
  predicate SetupPanics(io: UdpIo)
  {
    io.dialErr.None? && io.writeErr.None? && io.reply.Ok?
    && Stream.ParseDiscoveryResponse(Stream.ResponseBuffer(io.reply.value)).None?
  }

  /** The error setup returns: the first of the dial, write and read errors. */
  function SetupError(io: UdpIo): (err: Option<string>)
    ensures err.None? <==> SetupSucceeds(io) || SetupPanics(io)
  {
    if io.dialErr.Some? then io.dialErr
    else if io.writeErr.Some? then io.writeErr
    else if io.reply.Err? then Some(io.reply.error)
    else None
  }

  /** The local address and port a successful discovery reports. */
  function DiscoveredAddress(io: UdpIo): (string, int)
    requires SetupSucceeds(io)
  {
    var (ip, port) := Stream.ParseDiscoveryResponse(Stream.ResponseBuffer(io.reply.value)).value;
    (Stream.BytesToString(ip), port)
  }

  /** Handling Ready reports an error: the preferred mode is not offered, or setup fails. */
  predicate ReadyFails(msg: VoiceReadyMessage, io: UdpIo)
  {
    PREFERRED_ENCRYPTION_MODE !in msg.modes || SetupError(io).Some?
  }

  /** Handling Ready panics: the mode is offered and the reply is unterminated. */
  predicate ReadyPanics(msg: VoiceReadyMessage, io: UdpIo)
  {
    PREFERRED_ENCRYPTION_MODE in msg.modes && SetupPanics(io)
  }

  class VoiceClient {
    var voiceStream: Stream.VoiceStream?
    var userId: string
    var sessionId: string
    var server: G.VoiceServer
    var connected: bool

    var sendQueue: seq<WsMessageOut>
    var attempted: seq<WsMessageOut>
    var written: seq<WsMessageOut>
    /** Everything ever enqueued, in order. */
    ghost var enqueued: seq<WsMessageOut>

    var ws: Socket.WebSocket?
    var events: seq<int>
    var ready: bool

    /** The send loop takes messages in exactly the order they were enqueued. */
    ghost predicate Valid()
      reads this
    {
      attempted + sendQueue == enqueued
    }

    /** `NewVoiceClient`: not yet connected, nothing queued, no stream. */
    constructor (userId: string, sessionId: string, server: G.VoiceServer)
      ensures Valid()
      ensures this.userId == userId && this.sessionId == sessionId && this.server == server
      ensures voiceStream == null && !connected && ws == null
      ensures sendQueue == [] && attempted == [] && written == [] && enqueued == []
      ensures events == [] && !ready
    {
      voiceStream := null;
      this.userId := userId;
      this.sessionId := sessionId;
      this.server := server;
      connected := false;
      sendQueue := [];
      attempted := [];
      written := [];
      enqueued := [];
      ws := null;
      events := [];
      ready := false;
    }

    /** `enqueueMessage`. */
    method EnqueueMessage(opcode: int, data: OutData)
      requires Valid()
      modifies this`sendQueue, this`enqueued
      ensures Valid()
      ensures sendQueue == old(sendQueue) + [WsMessageOut(opcode, data)]
      ensures enqueued == old(enqueued) + [WsMessageOut(opcode, data)]
    {
      sendQueue := sendQueue + [WsMessageOut(opcode, data)];
      enqueued := enqueued + [WsMessageOut(opcode, data)];
    }

    /** One turn of `sendLoop`: the oldest queued message is written; a write error is only
        logged. */
    method SendLoopStep(writeErr: Option<string>)
      requires Valid() && connected && |sendQueue| > 0
      modifies this`sendQueue, this`attempted, this`written
      ensures Valid()
      ensures sendQueue == old(sendQueue[1..])
      ensures attempted == old(attempted) + [old(sendQueue[0])]
      ensures writeErr.None? ==> written == old(written) + [old(sendQueue[0])]
      ensures writeErr.Some? ==> written == old(written)
    {
      var msg := sendQueue[0];
      sendQueue := sendQueue[1..];
      attempted := attempted + [msg];
      assert attempted + sendQueue == old(attempted) + ([msg] + sendQueue);
      if writeErr.None? {
        written := written + [msg];
      }
    }

    /** `sendIdentify`: the guild id as server id, the user and session, and the server's token. */
    method SendIdentify()
      requires Valid()
      modifies this`sendQueue, this`enqueued
      ensures Valid()
      ensures sendQueue == old(sendQueue) + [IdentifyMessage(server, userId, sessionId)]
      ensures enqueued == old(enqueued) + [IdentifyMessage(server, userId, sessionId)]
      ensures var d := sendQueue[|sendQueue| - 1].data.voiceIdentify;
              d.serverId == server.guildId && d.userId == userId && d.sessionId == sessionId
              && d.token == server.token
    {
      EnqueueMessage(OP_IDENTIFY, VoiceIdentifyData(VoiceIdentifyMessage(server.guildId, userId, sessionId, server.token)));
    }

    /** `sendSpeaking`: 5 while speaking and 0 otherwise, no delay, the stream's SSRC. */
    method SendSpeaking(speaking: bool)
      requires Valid() && voiceStream != null
      modifies this`sendQueue, this`enqueued
      ensures Valid()
      ensures sendQueue == old(sendQueue) + [SpeakingMessage(speaking, voiceStream.ssrc)]
      ensures enqueued == old(enqueued) + [SpeakingMessage(speaking, voiceStream.ssrc)]
      ensures var d := sendQueue[|sendQueue| - 1];
              d.opcode == OP_SPEAKING && d.data.speaking.delay == 0
              && d.data.speaking.ssrc == voiceStream.ssrc
              && (d.data.speaking.speaking == 5 <==> speaking)
              && (d.data.speaking.speaking == 0 <==> !speaking)
    {
      var value := 0;
      if speaking {
        value := 5;
      }
      EnqueueMessage(OP_SPEAKING, SpeakingData(VoiceSpeakingMessage(value, 0, voiceStream.ssrc)));
    }

    /** `sendHeartbeat`: a fresh nonce as the payload. */
    method SendHeartbeat(nonce: string)
      requires Valid()
      modifies this`sendQueue, this`enqueued
      ensures Valid()
      ensures sendQueue == old(sendQueue) + [WsMessageOut(OP_HEARTBEAT, NonceData(nonce))]
      ensures enqueued == old(enqueued) + [WsMessageOut(OP_HEARTBEAT, NonceData(nonce))]
    {
      EnqueueMessage(OP_HEARTBEAT, NonceData(nonce));
    }

    /** `start`: dial the voice gateway at the server's endpoint; on success, queue Identify. */
    method Start(dial: string -> Option<string>) returns (err: Option<string>)
      requires Valid()
      modifies this`connected, this`sendQueue, this`enqueued
      ensures Valid()
      ensures err == dial(VoiceGatewayUrl(server.endpoint))
      ensures err.Some? ==> connected == old(connected) && sendQueue == old(sendQueue) && enqueued == old(enqueued)
      ensures err.None? ==> connected && sendQueue == old(sendQueue) + [IdentifyMessage(server, userId, sessionId)]
    {
      err := dial("wss://" + server.endpoint + "?v=4");
      if err.Some? {
        return;
      }
      connected := true;
      SendIdentify();
    }

    /** `initVoiceStream` (the handler's `createVoiceStream`): refuse a server without the
        preferred mode; otherwise build a stream to the announced address, run its setup, and
        only when that succeeds queue SelectProtocol with the discovered local address and
        install the stream. */
    method InitVoiceStream(msg: VoiceReadyMessage, io: UdpIo) returns (outcome: Outcome, err: Option<string>)
      requires Valid()
      modifies this`sendQueue, this`enqueued, this`voiceStream
      ensures Valid()
      ensures PREFERRED_ENCRYPTION_MODE !in msg.modes ==>
                outcome.Continue?
                && err == Some("remote does not support preferred encryption mode: " + PREFERRED_ENCRYPTION_MODE)
      ensures PREFERRED_ENCRYPTION_MODE in msg.modes ==> (outcome.Crash? <==> SetupPanics(io))
      ensures PREFERRED_ENCRYPTION_MODE in msg.modes && outcome.Continue? ==> err == SetupError(io)
      ensures outcome.Continue? && err.None? <==> PREFERRED_ENCRYPTION_MODE in msg.modes && SetupSucceeds(io)
      ensures outcome.Crash? || err.Some? ==>
                voiceStream == old(voiceStream) && sendQueue == old(sendQueue) && enqueued == old(enqueued)
      ensures outcome.Continue? && err.None? ==>
                SetupSucceeds(io) && voiceStream != null && fresh(voiceStream)
                && voiceStream.remoteIp == msg.ip && voiceStream.remotePort == msg.port
                && voiceStream.ssrc == msg.ssrc && voiceStream.key.None? && voiceStream.sequence == 0
                && (voiceStream.localIp, voiceStream.localPort) == DiscoveredAddress(io)
                && sendQueue == old(sendQueue) + [SelectProtocolMessage(DiscoveredAddress(io).0, DiscoveredAddress(io).1)]
    {
      if PREFERRED_ENCRYPTION_MODE !in msg.modes {
        return Continue, Some("remote does not support preferred encryption mode: " + PREFERRED_ENCRYPTION_MODE);
      }
      var stream := new Stream.VoiceStream(msg.ip, msg.port, msg.ssrc);
      outcome, err := stream.BeginSetup(io.dialErr, io.writeErr, io.reply);
      if outcome.Crash? || err.Some? {
        return;
      }
      EnqueueMessage(OP_SELECT_PROTOCOL, SelectProtocolData(
        VoiceSelectProtocolMessage("udp", ProtocolData(stream.localIp, stream.localPort, PREFERRED_ENCRYPTION_MODE))));
      voiceStream := stream;
    }

    /** No field the handler touches has changed. */
    twostate predicate NothingHandled()
      reads this, ws, voiceStream
    {
      ws == old(ws) && voiceStream == old(voiceStream) && sendQueue == old(sendQueue) && events == old(events)
      && ready == old(ready) && (ws != null ==> ws.heartbeat == old(ws.heartbeat))
      && (voiceStream != null ==> voiceStream.key == old(voiceStream.key))
    }

    /** Hello starts the socket heartbeat at the interval in milliseconds, beating with a
        fresh nonce, and touches nothing else; it panics exactly when `ws` is nil or the
        duration is not positive (`time.NewTicker` and `Ticker.Reset` refuse it). */
    twostate predicate HelloHandled(hello: VoiceHelloMessage, outcome: Outcome)
      reads this, ws, voiceStream
    {
      voiceStream == old(voiceStream) && sendQueue == old(sendQueue) && events == old(events)
      && ready == old(ready) && (voiceStream != null ==> voiceStream.key == old(voiceStream.key))
      && (outcome.Crash? <==> old(ws) == null || Milliseconds(hello.heartbeatInterval) <= 0)
      && (outcome.Continue? ==>
            ws != null && ws.heartbeat == Some(Socket.Ticker(Milliseconds(hello.heartbeatInterval), true))
            && ws.heartbeatProvider == Some(Socket.VoiceBeat))
    }

    /** Ready adds one Error event exactly when the preferred mode is missing or setup fails,
        and then leaves the stream and the queue alone; when setup succeeds, it installs the
        new stream to the announced address and queues SelectProtocol with the discovered
        address; an unterminated discovery reply ends the process. */
    twostate predicate ReadyHandled(ready: VoiceReadyMessage, io: UdpIo, outcome: Outcome)
      reads this, voiceStream
    {
      this.ready == old(this.ready)
      && (outcome.Crash? <==> ReadyPanics(ready, io))
      && (outcome.Crash? ==> events == old(events) && voiceStream == old(voiceStream) && sendQueue == old(sendQueue))
      && (ReadyFails(ready, io) ==>
            events == old(events) + [EVENT_ERROR] && voiceStream == old(voiceStream)
            && sendQueue == old(sendQueue))
      && (!ReadyFails(ready, io) && !ReadyPanics(ready, io) ==>
            events == old(events) && SetupSucceeds(io) && voiceStream != null && fresh(voiceStream)
            && voiceStream.remoteIp == ready.ip && voiceStream.remotePort == ready.port
            && voiceStream.ssrc == ready.ssrc && voiceStream.key.None? && voiceStream.sequence == 0
            && (voiceStream.localIp, voiceStream.localPort) == DiscoveredAddress(io)
            && sendQueue == old(sendQueue) + [SelectProtocolMessage(DiscoveredAddress(io).0, DiscoveredAddress(io).1)])
    }

    /** SessionDesc installs the key into the stream (and nothing else of it), reports Ready,
        then sets `ready`; without a stream the nil dereference ends the process. */
    twostate predicate SessionDescHandled(desc: VoiceSessionDescriptionMessage, outcome: Outcome)
      reads this, voiceStream
    {
      (outcome.Continue? <==> old(voiceStream) != null)
      && (outcome.Continue? ==>
            voiceStream == old(voiceStream) && voiceStream.key == desc.secretKey
            && voiceStream.OnlyKeyChanged()
            && events == old(events) + [EVENT_READY] && ready && sendQueue == old(sendQueue))
    }

    /** What `handleMessage` does with one message: a message without data, HeartbeatAck and
        unknown opcodes change nothing; a payload that does not decode ends the process with
        nothing changed; Hello, Ready and SessionDesc are handled as their predicates say.
        Only SessionDesc sets `ready` or reports Ready, and Error is the only other event. */
    twostate predicate MessageHandled(message: WsMessageIn, json: VoiceJson, io: UdpIo, outcome: Outcome)
      reads this, ws, voiceStream
    {
      && ws == old(ws)
      && (message.data.None? || !(message.opcode in {OP_HELLO, OP_READY, OP_SESSION_DESC}) ==>
            outcome.Continue? && NothingHandled())
      && (message.data.Some? && message.opcode == OP_HELLO ==>
            match json.hello(message.data.value)
            case None => outcome.Crash? && NothingHandled()
            case Some(h) => HelloHandled(h, outcome))
      && (message.data.Some? && message.opcode == OP_READY ==>
            match json.ready(message.data.value)
            case None => outcome.Crash? && NothingHandled()
            case Some(r) => ReadyHandled(r, io, outcome))
      && (message.data.Some? && message.opcode == OP_SESSION_DESC ==>
            match json.sessionDescription(message.data.value)
            case None => outcome.Crash? && NothingHandled()
            case Some(d) => SessionDescHandled(d, outcome))
      && (!(message.data.Some? && message.opcode == OP_SESSION_DESC) ==>
            ready == old(ready) && (events == old(events) || events == old(events) + [EVENT_ERROR]))
    }

    /** The Hello case of `handleMessage`. */
    method OnHello(hello: VoiceHelloMessage) returns (outcome: Outcome)
      requires ws != null ==> ws.Valid()
      modifies ws
      ensures ws != null ==> ws.Valid()
      ensures HelloHandled(hello, outcome)
    {
      if ws == null {
        return Crash("invalid memory address or nil pointer dereference");
      }
      outcome := ws.StartHeartbeat(Milliseconds(hello.heartbeatInterval), Socket.VoiceBeat);
    }

    /** The Ready case of `handleMessage`: build the stream, and report an Error event if that
        fails. */
    method OnReady(ready: VoiceReadyMessage, io: UdpIo) returns (outcome: Outcome)
      requires Valid()
      modifies this`sendQueue, this`enqueued, this`voiceStream, this`events
      ensures Valid()
      ensures ReadyHandled(ready, io, outcome)
    {
      var err;
      outcome, err := InitVoiceStream(ready, io);
      if outcome.Continue? && err.Some? {
        events := events + [EVENT_ERROR];
      }
    }

    /** The SessionDesc case of `handleMessage`: install the key, report Ready, set `ready`. */
    method OnSessionDesc(desc: VoiceSessionDescriptionMessage) returns (outcome: Outcome)
      modifies this`events, this`ready, voiceStream
      ensures SessionDescHandled(desc, outcome)
      ensures outcome.Crash? ==> events == old(events) && ready == old(ready)
    {
      if voiceStream == null {
        return Crash("invalid memory address or nil pointer dereference");
      }
      voiceStream.FinishSetup(desc.secretKey);
      events := events + [EVENT_READY];
      ready := true;
      outcome := Continue;
    }

    /** `handleMessage`: a message without data is ignored; Hello, Ready and SessionDesc
        decode their payload (a failure ends the process) and are handled as
        `MessageHandled` says; every other opcode changes nothing. */
    method HandleMessage(message: WsMessageIn, json: VoiceJson, io: UdpIo) returns (outcome: Outcome)
      requires Valid()
      requires ws != null ==> ws.Valid()
      modifies this, ws, voiceStream
      ensures Valid()
      ensures ws == old(ws) && (ws != null ==> ws.Valid())
      ensures userId == old(userId) && sessionId == old(sessionId) && server == old(server)
      ensures connected == old(connected) && attempted == old(attempted) && written == old(written)
      ensures MessageHandled(message, json, io, outcome)
    {
      if message.data.None? {
        return Continue;
      }
      if message.opcode == OP_HELLO {
        var hello := Unmarshal(message, json.hello);
        if hello.Err? {
          return Crash(hello.error);
        }
        outcome := OnHello(hello.value);
      } else if message.opcode == OP_READY {
        var ready := Unmarshal(message, json.ready);
        if ready.Err? {
          return Crash(ready.error);
        }
        outcome := OnReady(ready.value, io);
      } else if message.opcode == OP_SESSION_DESC {
        var desc := Unmarshal(message, json.sessionDescription);
        if desc.Err? {
          return Crash(desc.error);
        }
        outcome := OnSessionDesc(desc.value);
      } else {
        outcome := Continue;
      }
    }

    /** One turn of `receiveLoop`: a read failure ends the process; a frame that does not
        decode is skipped and the loop goes on; otherwise the message is handled. */
    method ReceiveStep(read: Result<string>, decode: string -> Option<WsMessageIn>, json: VoiceJson, io: UdpIo)
      returns (outcome: Outcome)
      requires Valid()
      requires ws != null ==> ws.Valid()
      modifies this, ws, voiceStream
      ensures Valid()
      ensures ws == old(ws) && (ws != null ==> ws.Valid())
      ensures read.Err? ==> outcome.Crash?
      ensures read.Err? || decode(read.value).None? ==>
                voiceStream == old(voiceStream) && sendQueue == old(sendQueue)
                && events == old(events) && ready == old(ready)
      ensures read.Ok? && decode(read.value).None? ==> outcome.Continue?
      ensures read.Ok? && decode(read.value).Some? ==> MessageHandled(decode(read.value).value, json, io, outcome)
    {
      if read.Err? {
        return Crash("failed to read from WebSocket: " + read.error);
      }
      var message := decode(read.value);
      if message.None? {
        return Continue;
      }
      outcome := HandleMessage(message.value, json, io);
    }
  }
}
