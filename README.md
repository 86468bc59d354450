# ytbot core, modelled in Dafny

ytbot is a Discord bot that plays YouTube audio in voice channels. This project models the
parts of it that are protocol logic and parsing:

- the gateway client and its opcode and event dispatcher (sequence tracking, the logged-in
  user, per-guild voice states, the command queue, the voice-server hand-off, joining a
  voice channel);
- the voice-gateway client and its handler (Identify, Speaking and SelectProtocol payloads,
  the encryption-mode check, the send queue);
- the UDP voice stream (the Discord header, the RTP header of section 5.1 of RFC 3550, the
  24-byte nonce and 32-byte key, the wrapping 16-bit sequence counter, and the 74-byte
  IP-discovery request and reply);
- the duplex WebSocket wrapper (the closed flag, bounded queues, heartbeat create-or-reset,
  idempotent close, reconnect, and one step of each worker loop);
- chat commands (the token cursor, the case-insensitive registry, `ping`, per-guild state);
- the audio pipeline (the ffmpeg command line, and the encoder's demux and pace workers as
  per-step methods that leave a trace of the calls the audio sink receives);
- configuration from the environment, JSON slicing of YouTube pages, and the yt-dlp
  stream-URL selection rule.

Everything the Go code gets from the outside world is a parameter instead: I/O outcomes,
JSON decoders, `secretbox.Seal`, URL parsing, nonces and timestamps. A `log.Fatal` or a
panic is the result `Crash(reason)`. A blocking channel operation becomes a precondition
that the queue has room, or that it is not empty. Go values passed by copy are datatypes.
Objects whose fields the Go code updates in place are classes, with `modifies` clauses.

Files: `wrappers.dfy` (Option, Result, Outcome), `bits.dfy` (bytes, big-endian words, Go
integer conversions), `text.dfy` (the `strings`/`strconv` functions used: Split, Join,
Index, ToLower, TrimSpace, Atoi, Itoa), `gateway_model.dfy`, `voice_model.dfy`,
`messages.dfy`, `socket.dfy`, `stream.dfy`, `voice.dfy`, `gateway.dfy`, `commands.dfy`,
`core.dfy`, `codec.dfy`, `config.dfy`, `ytapi.dfy`, `ytdlp.dfy`.

The source snapshot is mid-refactor, and its files use fields that their records do not
declare. Examples: the gateway handler's `client.ws`; the voice handler's `vc.ws`,
`vc.Events` and `vc.ready`. `Gateway.Client` and `Voice.VoiceClient` therefore hold the
union of the fields their files use. Nothing assigns `ws`, so it may be null, and using it
then crashes. The voice handler calls `createVoiceStream`, which is not defined anywhere;
it is modelled as `initVoiceStream`, the only function with that role. The dispatcher
names `GatewayEventMessageUpdate`, which is not declared either; its wire name
`MESSAGE_UPDATE` is used.

## Model

| member | source | states |
|---|---|---|
| Bits.ToU16 | discord/voice_stream.go:129 | a Go `uint16(n)` conversion: agrees with n modulo 65536 and is n itself when n fits |
| Bits.Milliseconds | config/config.go:49-51 | `time.Millisecond * time.Duration(n)` stays in int64 and is exactly n·10⁶ when that fits |
| Bits.U16RoundTrip | discord/voice_stream.go:74 | a big-endian uint16 reads back as the same number |
| Bits.U32RoundTrip | discord/voice_stream.go:75-76 | a big-endian uint32 reads back as the same number |
| Bits.ReadU16At | discord/voice_stream.go:150-156 | a big-endian uint16 placed at any offset of a buffer reads back from that offset |
| Bits.ReadU32At | discord/voice_stream.go:152 | a big-endian uint32 placed at any offset of a buffer reads back from that offset |
| Text.JoinSplit | discord/command.go:33-35 | joining the pieces of a split on the same separator gives back the string |
| Text.SplitJoin | codec/ffmpeg.go:47 | splitting a join of separator-free words gives back the words |
| Text.Index | ytapi/json.go:9-10 | `strings.Index`: the first position where the needle occurs, or -1 exactly when it never occurs |
| Text.ToLowerIdempotent | core/command_registry.go:14-19 | lower-casing twice is lower-casing once |
| Text.AtoiItoa | config/config.go:41 | every int64 written in decimal is read back by `strconv.Atoi` as the same number without error |
| Text.AtoiNonInteger | discord/command.go:22 | a short token that is not a signed decimal is rejected, with value 0 |
| Text.AtoiBounds | discord/command.go:22 | `strconv.Atoi` always yields an int64 value |
| Text.AtoiOkIsInteger | config/config.go:41-44 | what `strconv.Atoi` accepts is a signed decimal |
| Text.TrimSpace | ytdlp/interface.go:38 | the result is a slice of the input with only white space cut from both ends, and it neither starts nor ends with white space |
| GatewayModel.OpcodesDistinct | discord/gateway_model.go:7-19 | the gateway opcodes are pairwise distinct and 5 is not one of them |
| GatewayModel.IntentsAreDistinctBits | discord/gateway_model.go:37-57 | every intent is one bit, no two share a bit, and bits 17 to 19 are unused |
| GatewayModel.StartupIntents | main.go:32-35 | Guilds, VoiceStates, Messages and MessageContent OR to 33409 |
| VoiceModel.OpcodesDistinct | discord/voice_model.go:6-18 | the voice opcodes are 0 to 9 and 13, pairwise distinct |
| VoiceModel.EventsDistinct | discord/voice_model.go:62-68 | the voice events are 1 to 5 in order |
| Messages.Unmarshal | discord/ws_message.go:27-32 | the payload decodes exactly when data is present and the decoder accepts it, and the result is the decoded value |
| Messages.Summary | discord/ws_message.go:35-41 | "op=" + decimal opcode + "; data=" + raw data (or "nil") + "; t=" + type; an empty type still ends in "; t=" |
| Messages.SummaryOpcode | discord/ws_message.go:35-41 | the opcode of an inbound summary is read back by Atoi from the text between "op=" and the first ';' |
| Messages.SummaryShowsNil | discord/ws_message.go:36-39 | a nil payload and a present payload give different summaries |
| Messages.OutSummary | discord/ws_message.go:44-50 | a marshal error is returned as is; otherwise "op=" + decimal opcode + "; data=" + the JSON |
| Messages.OutSummaryOpcode | discord/ws_message.go:44-50 | the opcode of an outbound summary is read back the same way |
| Socket.Stopped | discord/ws_base.go:108-110 | stopping keeps a ticker's period and leaves no ticker as none |
| Socket.WebSocket.Init | discord/ws_base.go:41-45 | a new socket has its name, URL and reconnect flag, no connection, no queues and no ticker |
| Socket.WebSocket.Open | discord/ws_base.go:40-50 | the socket comes back together with the dial error; it is open and valid after a successful dial |
| Socket.WebSocket.Connect | discord/ws_base.go:52-70 | a successful dial gives fresh empty queues, a new connection and clears `closed`; a failed one changes nothing |
| Socket.WebSocket.Send | discord/ws_base.go:72-82 | a closed socket queues nothing; an open one queues exactly {opcode, data} |
| Socket.WebSocket.Receive | discord/ws_base.go:84-86 | the oldest inbound message, or the zero message once the queue is closed and drained |
| Socket.WebSocket.StartHeartbeat | discord/ws_base.go:88-95 | the first call creates the ticker, later calls reset it, and the provider is always replaced; a non-positive interval panics |
| Socket.WebSocket.Close | discord/ws_base.go:97-120 | the first call sets `closed`, stops the ticker and closes channels and connection; later calls change nothing |
| Socket.WebSocket.SendMessage | discord/ws_base.go:126-137 | a write error is returned only on a closed socket; on an open one it becomes one Error event and nil |
| Socket.WebSocket.SendHeartbeat | discord/ws_base.go:122-124 | the provider's message, with the sequence or nonce current when it fires, goes through the same error policy |
| Socket.WebSocket.SendStep | discord/ws_base.go:139-166 | one turn of the send loop: what is written for each ready case, and that the loop stops on the close signal or a returned error |
| Socket.WebSocket.ReceiveStep | discord/ws_base.go:168-206 | non-text frames are skipped, undecodable JSON is one Error event, a read error ends the loop, and a reconnect is scheduled exactly when the loop ends while not closed and auto-reconnect is on; only the queue a branch sends on must have room |
| Socket.WebSocket.Reconnect | discord/ws_base.go:208-219 | close, then dial; `ReconnectFunc` runs once only after a successful dial and only when set |
| Stream.DiscordHeader | discord/voice_stream.go:71-76 | 12 bytes: 0x80, 0x78, then big-endian sequence, timestamp and SSRC |
| Stream.ParseRtp | discord/voice_stream.go:105-116 | the reading side of section 5.1 of RFC 3550 yields only well-formed headers |
| Stream.MarshalParse | discord/voice_stream.go:105-116 | an RTP header marshalled per section 5.1 of RFC 3550 parses back to itself |
| Stream.RtpHeaderRoundTrip | discord/voice_stream.go:105-116 | the second header is V=2, P=1, X=0, M=0, payload type 0x78 with the same sequence, timestamp and SSRC, and differs from the first only in byte 0 |
| Stream.Nonce | discord/voice_stream.go:98-99 | 24 bytes: the RTP header, then 12 zeros |
| Stream.Key32 | discord/voice_stream.go:95-96 | 32 bytes: the stored key, truncated or zero-padded |
| Stream.PacketLayout | discord/voice_stream.go:67-91 | Discord header, then RTP header, then the frame sealed under the nonce of the RTP header and the 32-byte key, in that order |
| Stream.FrameRecoverable | discord/voice_stream.go:83-101 | a receiver that opens bytes 24 on with the nonce of bytes 12 to 23 gets the frame back |
| Stream.NonceFromSecondHeader | discord/voice_stream.go:86 | the nonce comes from the RTP header, not from the Discord header |
| Stream.DiscoveryRequest | discord/voice_stream.go:124-129 | 74 bytes: type 1, length 70, SSRC, 64 zeros, the remote port cut to 16 bits |
| Stream.ParseDiscoveryResponse | discord/voice_stream.go:149-159 | defined exactly when the address field holds a zero byte; the address runs from offset 8 through the first zero, terminator included, and the port is the big-endian word at 72; type, length and SSRC are not checked |
| Stream.ResponseBuffer | discord/voice_stream.go:136-137 | the reply is read into a 74-byte buffer |
| Stream.DiscoveryRoundTrip | discord/voice_stream.go:123-159 | a reply laid out like the request parses to the address plus its terminator, and the port |
| Stream.ShortReply | discord/voice_stream.go:136-159 | a reply of at most 8 bytes reads as an address of just the terminator and port 0 |
| Stream.BytesToString | discord/voice_stream.go:154 | Go's `string(bytes)`: one character per byte |
| Stream.SequenceAfterWraps | discord/voice_stream.go:118-121 | n calls move the counter by exactly n modulo 65536 |
| Stream.VoiceStream.constructor | discord/voice_stream.go:30-36 | remote address and SSRC as given; no key, sequence 0, not connected |
| Stream.VoiceStream.FinishSetup | discord/voice_stream.go:57-60 | the key is installed as given, and no other field of the stream changes |
| Stream.VoiceStream.NextSequence | discord/voice_stream.go:118-121 | increments before returning, so 65535 is followed by 0 |
| Stream.VoiceStream.SendOpusFrame | discord/voice_stream.go:62-92 | without a key: the "not initialized" error, and the sequence and socket are untouched; otherwise the sequence advances even when the write fails, a write error is returned as is, a nil connection panics, and a successful write sends exactly the framed packet |
| Stream.VoiceStream.DiscoverLocalIp | discord/voice_stream.go:123-165 | the request is written; a write or read error is returned with the local address unchanged; a reply without a terminator panics; a terminated reply always succeeds, and the local address and port are then taken from it |
| Stream.VoiceStream.BeginSetup | discord/voice_stream.go:38-55 | a dial error is returned before anything else; then the write error, then the read error; a reply without a terminator panics; a terminated reply always succeeds, with the local address and port taken from it |
| Voice.VoiceGatewayUrl | discord/voice_client.go:38 | "wss://" + endpoint + "?v=4" |
| Voice.VoiceClient.constructor | discord/voice_client.go:26-35 | user, session and server as given; not connected, nothing queued, no stream |
| Voice.VoiceClient.EnqueueMessage | discord/voice_client.go:105-110 | exactly {opcode, data} is appended to the send queue |
| Voice.VoiceClient.SendLoopStep | discord/voice_client.go:70-77 | the oldest queued message is written, so messages go out in enqueue order; a write error is only logged |
| Voice.VoiceClient.SendIdentify | discord/voice_client.go:79-86 | Identify carries the guild id as server id, the user and session ids, and the server's token |
| Voice.VoiceClient.SendSpeaking | discord/voice_client.go:88-99 | speaking is 5 when speaking and 0 otherwise, delay 0, the stream's SSRC |
| Voice.VoiceClient.SendHeartbeat | discord/voice_client.go:101-103 | a heartbeat carrying the fresh nonce is queued |
| Voice.VoiceClient.Start | discord/voice_client.go:37-50 | dials the endpoint's URL; on success Identify is queued, on failure nothing changes |
| Voice.VoiceClient.InitVoiceStream | discord/voice_client.go:112-148 | without the preferred mode: that error and no change; with it, the setup error (dial, write, read) is returned with no SelectProtocol and no stream, an unterminated reply panics, and it succeeds exactly when setup does: then one SelectProtocol with "udp", the address and port of the discovery reply and the mode is queued, and the new stream (to the announced address and SSRC, no key, sequence 0) is installed |
| Voice.VoiceClient.HandleMessage | discord/voice_handler.go:9-39 | a nil payload, HeartbeatAck and unknown opcodes change nothing; Hello only starts the heartbeat with the voice provider, and panics exactly when `ws` is nil or the duration is not positive; Ready adds one Error event exactly when the mode is missing or setup fails, and otherwise installs the stream and queues SelectProtocol with the discovered address; SessionDesc installs the key and nothing else of the stream, reports Ready and sets `ready`, and is the only branch that does either |
| Voice.VoiceClient.OnHello | discord/voice_handler.go:15-20 | the heartbeat starts at the interval in milliseconds with the voice (nonce) provider; it panics exactly when `ws` is nil or that duration is not positive; nothing else changes |
| Voice.VoiceClient.OnReady | discord/voice_handler.go:21-28 | exactly one Error event when the mode is missing or setup fails, none otherwise; on success the stream is installed and SelectProtocol queued |
| Voice.VoiceClient.OnSessionDesc | discord/voice_handler.go:29-34 | the key is installed, then Ready is reported, then `ready` is set; without a stream it panics with nothing changed |
| Voice.VoiceClient.ReceiveStep | discord/voice_client.go:52-68 | a read error is fatal; an undecodable frame is skipped with nothing changed; a decoded message is handled exactly as `HandleMessage` promises |
| Gateway.VoiceStateMapKeys | discord/gateway_handler.go:42-46 | the voice-state map has exactly the users of the list |
| Gateway.VoiceStateMapStamped | discord/gateway_handler.go:43-45 | every entry carries the guild id and is keyed by its own user id |
| Gateway.VoiceStateMapLastWins | discord/gateway_handler.go:43-45 | for a duplicate user id the last state wins |
| Gateway.IntentsAccumulate | discord/gateway_client.go:61-63 | adding intents is order-insensitive, repeating one changes nothing, and no bit is cleared |
| Gateway.Client.constructor | discord/gateway_client.go:31-39 | the token is "Bot " + token; no guilds, commands or voice servers; intents 0 |
| Gateway.Client.AddIntent | discord/gateway_client.go:61-63 | the intents become the bitwise OR with the new one |
| Gateway.Client.SendMessage | discord/gateway_client.go:94-99 | exactly one frame is written, and the write error is returned |
| Gateway.Client.SendIdentify | discord/gateway_client.go:133-143 | Identify carries the token, the accumulated intents and "neko" as browser and device |
| Gateway.Client.SendHeartbeat | discord/gateway_client.go:145-147 | the heartbeat carries the current sequence |
| Gateway.Client.Start | discord/gateway_client.go:41-59 | a dial error is returned with nothing written; otherwise Identify is sent |
| Gateway.Client.PostMessage | discord/gateway_client.go:85-92 | the message is posted |
| Gateway.Client.ReplyMessage | discord/gateway_client.go:65-70 | a new message with the content is posted to the channel of the original |
| Gateway.Client.SendChannelMessage | discord/gateway_client.go:76-83 | a message with the channel and content is posted and returned |
| Gateway.Client.EditMessage | discord/gateway_client.go:72-74 | not written yet: it panics |
| Gateway.Client.JoinVoiceChannel | discord/gateway_client.go:101-131 | first sends VoiceStateUpdate (deafened, not muted, no video) for the channel and guild; a send error returns at once; it then takes one voice server; a missing own voice state (or an unknown guild) gives "could not get own voice state" and no voice client; otherwise the voice client is built from the own user id, its session id and that server, and started |
| Gateway.Client.BuildVoiceStateMap | discord/gateway_handler.go:42-46 | the loop builds exactly the voice-state map |
| Gateway.Client.HandleEvent | discord/gateway_handler.go:31-75 | the new event state is `EventEffect` of the old one, and a crash changes nothing: READY sets the user id; GUILD_CREATE replaces the guild entry; VOICE_STATE_UPDATE upserts one user's state and crashes exactly when the guild is unknown; MESSAGE_CREATE queues one command exactly when the content is non-empty and starts with the prefix; VOICE_SERVER_UPDATE hands the server on; every other event changes nothing |
| Gateway.Client.HandleMessage | discord/gateway_handler.go:8-29 | a nil payload changes nothing; Dispatch stores the sequence and then has exactly the effect of `handleEvent` (`EventEffect`), crashing exactly when it does; Hello starts the heartbeat at interval·1 ms with the gateway provider, and panics exactly when `ws` is nil, the payload does not decode or the duration is not positive; InvalidSession is fatal; Reconnect reconnects the socket; other opcodes change nothing |
| Gateway.Client.ReceiveStep | discord/gateway_client.go:149-164 | a read or decode failure is fatal and changes nothing; a decoded message is handled exactly as `HandleMessage` promises |
| Commands.NewCommandBuffer | discord/command.go:14-19 | the cursor starts at 0, the tokens hold no space, and they join back to the content after its first character |
| Commands.GetInt | discord/command.go:21-25 | advances the cursor by exactly 1 and yields an int64 |
| Commands.GetIntOfItoa | discord/command.go:21-25 | a decimal token reads as its number |
| Commands.GetIntNonInteger | discord/command.go:22 | a short non-integer token reads as 0, since the error is dropped |
| Commands.GetString | discord/command.go:27-31 | returns the current token and advances the cursor by exactly 1; the message is unchanged |
| Commands.GetStringAll | discord/command.go:33-35 | at the end of the tokens the rest is empty |
| Commands.GetStringAllAtStart | discord/command.go:14-35 | at cursor 0 the rest is exactly the content after the prefix |
| Commands.GetStringThenRest | discord/command.go:27-35 | one token, a space, and the rest after it make up the rest before it |
| Core.LookupIgnoresCase | core/command_registry.go:19 | a name and its lower-cased form find the same handler |
| Core.RegisterThenLookup | core/command_registry.go:13-19 | after registering a name, every casing of it finds the new handler (re-registering overrides) and every other name finds what it found before |
| Core.PingCommand | core/command_handlers.go:9-11 | replies "Pong! " + the rest of the command line in the command's channel |
| Core.Registry.constructor | core/command_handlers.go:5-7 | the registry starts holding `ping` only |
| Core.Registry.RegisterCommand | core/command_registry.go:13-15 | the handler is stored under the lower-cased name, overriding an earlier one |
| Core.Registry.HandleCommand | core/command_registry.go:17-26 | one token is consumed as the name; a known name calls its handler once with the cursor past the name; an unknown one replies "Unknown command `name`" with the casing as typed; the registry is unchanged |
| Core.PingEcho | core/command_handlers.go:9-11 | "&lt;prefix&gt;ping a b" in any casing reaches `ping`, which replies "Pong! a b" |
| Core.PingAlone | core/command_handlers.go:9-11 | "&lt;prefix&gt;ping" alone replies "Pong! " |
| Core.BotState.constructor | core/bot_state.go:20 | an empty queue and no encoder |
| Core.BotStates.GetBotState | core/bot_state.go:16-24 | the first call for a guild adds exactly one entry, a fresh state; later calls return that same state; only the guild id matters |
| Codec.Arguments | codec/ffmpeg.go:44 | the command line starts with "-loglevel", "error", "-i", the source URL |
| Codec.BuildArguments | codec/ffmpeg.go:43-53 | the loop builds exactly the command line: the prefix, then each stream's arguments in list order |
| Codec.StreamArgumentsShape | codec/ffmpeg.go:46-50 | a stream adds its configuration's words, then "pipe:" + its number |
| Codec.SplitCount | codec/ffmpeg.go:47 | splitting on spaces gives one more piece than there are spaces |
| Codec.ArgumentsCount | codec/ffmpeg.go:43-53 | the length is 4 plus, per stream, its spaces plus 2 |
| Codec.EncoderConfigWords | codec/encoder.go:38 | the encoder configuration splits into its nine words |
| Codec.EncoderArguments | codec/encoder.go:30-45 | the encoder's command line is exactly 14 arguments ending in "pipe:1" |
| Codec.Delivery | codec/encoder.go:99-104 | the end marker gives OnFinished and nothing else does; a page gives SendOpusFrame with its data and granule position mod 2³² |
| Codec.Deliveries | codec/encoder.go:95-104 | one sink call per entry, in order |
| Codec.TraceBeginsOnce | codec/encoder.go:59 | OnBegin comes first and never again |
| Codec.TickKeeps | codec/encoder.go:97-109 | a tick keeps the pipeline invariant |
| Codec.PushKeeps | codec/encoder.go:71-87 | a push keeps the pipeline invariant |
| Codec.FinishedDeliversAll | codec/encoder.go:97-103 | once finished, every pushed entry reached the sink once, in order, ending with OnFinished, and the queue is empty |
| Codec.Encoder.constructor | codec/encoder.go:30-45 | one output stream, number 1, with the Opus-in-Ogg configuration; nothing runs and the sink has heard nothing |
| Codec.Encoder.Start | codec/encoder.go:47-61 | an ffmpeg or Ogg error is returned and the sink hears nothing; otherwise OnBegin and both workers run |
| Codec.Encoder.DemuxStep | codec/encoder.go:65-89 | a closed stop channel ends it; a page is pushed; EOF pushes one end marker and ends; another error ends without one; the page queue must have room only on the branches that send to it |
| Codec.Encoder.PaceTick | codec/encoder.go:97-109 | takes exactly the oldest entry; the end marker gives OnFinished; a page gives one SendOpusFrame, and a sink error adds OnFailed and ends the worker |
| Codec.Encoder.PaceStopped | codec/encoder.go:110-113 | the stop signal gives OnStopped and ends the worker |
| Codec.Encoder.Stop | codec/encoder.go:121-123 | the first call closes the stop channel; a second call panics |
| Config.IsTrueShape | config/config.go:30-32 | only four-letter values are true, and every casing of "true" is |
| Config.Configuration.constructor | config/config.go:13-15 | no values |
| Config.Configuration.LoadKey | config/config.go:17-27 | a present variable is stored even when empty; an absent one takes a non-empty default; otherwise the process ends and nothing is stored |
| Config.Configuration.LoadKeys | config/keys.go:10-13 | the process goes on exactly when both keys are set, and then holds their values |
| Config.Configuration.GetString | config/config.go:35-37 | the stored value, or "" for a key never loaded |
| Config.Configuration.GetBool | config/config.go:30-32 | true only for a loaded four-letter value |
| Config.Configuration.GetInt | config/config.go:40-46 | a value is returned only for a signed decimal, and it fits in int64; anything else ends the process |
| Config.Configuration.GetMilliseconds | config/config.go:49-51 | fails exactly when GetInt does; otherwise that many milliseconds in nanoseconds, with int64 wrap-around |
| Config.Configuration.GetIntOfItoa | config/config.go:40-46 | a stored decimal reads back as its number |
| YtApi.FindJsonData | ytapi/json.go:8-12 | defined exactly when the start is in range and `right` follows; the result is cut at the first `right` after the start (no occurrence of `right` begins before the cut, so none straddles it), and starts with "{" when `left{` was found |
| YtApi.FindJsonDataExtracts | ytapi/json.go:8-12 | on a page `pre + left + json + right + post` the JSON comes back exactly |
| YtApi.FindYouTubeDataExtracts | ytapi/json.go:14-16 | on a watch page the initial-data JSON comes back |
| YtApi.VideoRendererToMediaItem | ytapi/json.go:18-30 | the title as name; the watch URL of the id, or of the fallback id when the id is empty |
| YtDlp.Candidates | ytdlp/interface.go:47-54 | at most one candidate per line |
| YtDlp.CandidateLines | ytdlp/interface.go:47-54 | each candidate is what its own line parses to, and the lines are taken in increasing order, so candidates keep the order of the output |
| YtDlp.FirstAudio | ytdlp/interface.go:61-65 | the first candidate whose `mime` starts with "audio", or none |
| YtDlp.GetStreamUrl | ytdlp/interface.go:41-70 | a tool failure is returned as is; otherwise the loop picks exactly the URL of the selection rule |
| YtDlp.CandidatesAreParsedLines | ytdlp/interface.go:47-54 | a URL is a candidate exactly when some output line parses to it |
| YtDlp.StreamUrlChoice | ytdlp/interface.go:56-69 | no candidates is the only error; the result comes from a parsed line; with several, the first audio one, or else the first one |
| YtDlp.GetVersion | ytdlp/interface.go:36-39 | the output with surrounding white space trimmed; a failed run gives "" and its error |

## Left out

- Goroutines, `select` loops, tickers, the 5-second reconnect delay and channel blocking. Each turn of a loop is one method (`SendStep`, `ReceiveStep`, `SendLoopStep`, `DemuxStep`, `PaceTick`, `PaceStopped`). A blocking send or receive becomes a precondition. Which `select` case fires is a parameter.
- Network I/O: WebSocket dial, read and write, the UDP socket, and the HTTP post of chat messages. Their outcomes are parameters, and posted messages are a log.
- JSON (`json.Marshal`, `json.Unmarshal`, `jsonparser`), `url.Parse`, and `secretbox.Seal` are function parameters. The model does not look inside them.
- Nonces and timestamps (`utils.NewNonce`, `utils.Timestamp`) are parameters. `PostMessage` stamps a nonce on each message; the model does not.
- Voice.VoiceClient.HandleMessage: the float32 heartbeat interval is an integer number of milliseconds.
- The gateway client's own `startHeartbeat` (`discord/gateway_client.go:166-179`) is not modelled; the handler uses the socket's heartbeat instead.
- The `Ready` channel of the voice client, and the `StateChanges` goroutine in `initVoiceStream`, are not modelled. `VoiceStream` declares no `StateChanges`.
- The voice client's `sendQueue` is unbuffered (`make(chan WsMessageOut)`), so each enqueue blocks until the send loop takes the message. Here it is a sequence with no bound, and `EnqueueMessage` never blocks.
- The voice-server channel is unbuffered. Here it is a sequence that `JoinVoiceChannel` requires to be non-empty.
- Gateway.Client.JoinVoiceChannel also returns the voice client it builds; the Go code drops it.
- `AudioSink.SendOpusFrame(timestamp, frame)` does not match `VoiceStream.SendOpusFrame(frame)`. The encoder's sink is therefore a trace of calls, not a voice stream.
- Codec.Encoder.Start requires that the encoder has not been started; a second `Start` on one encoder is not modelled.
- The pace worker's `defer encoder.ffmpeg.Stop()` calls a method `Ffmpeg` does not define. Stopping the ffmpeg process is not modelled.
- Starting ffmpeg (`codec/ffmpeg.go:24-41`), `runYtdl`, `CheckForUpdates`, the download and URL helpers of yt-dlp, `core/playback.go`, `main.go` beyond its intents, and the YouTube API stubs are not part of this model.
- Registered handlers other than `ping` (the playback commands) are the opaque `External` handler. The registry logs each call of one; what it does is not modelled.
- Commands.GetIntNonInteger: stated only for tokens of at most 20 characters. A longer digit run followed by junk can read as an int64 bound, because `strconv` reports the overflow first.
- Commands.GetStringAll: its own contract covers only the end of the tokens. `GetStringAllAtStart` and `GetStringThenRest` state the rest.
- Config.Configuration.GetBool: states one direction; the other is `IsTrueShape`.
- `strings.ToLower` is modelled for ASCII letters only. Unicode case folding is not modelled.
- Strings are sequences of characters. The command prefix is compared as a character, which agrees with the byte comparison for an ASCII prefix such as '.'.
- The encoder's configuration constant is written as its nine words joined by single spaces, which is the same string.
- Crashes (`log.Fatal`, panics) are the `Crash` outcome. The model says nothing about the rest of the process after one.
