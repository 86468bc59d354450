/** The duplex WebSocket wrapper: the closed flag, the bounded queues, the heartbeat ticker,
    idempotent close, reconnect, and one step of each of its two worker loops.

    The Go channels become sequences (capacity 25; a blocking send is a precondition that the
    queue has room, a blocking receive one that it is not empty). Closing `closeChan`,
    `MessagesOut` and `MessagesIn` together is the single flag `closeSignalled`. The
    connection is the count of successful dials (0: `conn` is nil), whether it is open, and
    the log `written` of frames written to it. I/O outcomes are parameters. */
module Socket {

  import opened Wrappers
  import opened Messages
  import G = GatewayModel
  import V = VoiceModel

  // WsEvent values.
  const EVENT_OPEN: int := 1
  const EVENT_CLOSE: int := 2
  const EVENT_ERROR: int := 3

  const QUEUE_CAPACITY: nat := 25

  /** `websocket.TextMessage`. */
  const TEXT_MESSAGE: int := 1

  /** The two heartbeat closures of this code base, by what they capture: the gateway's
      reads the client's sequence when it fires, the voice client's draws a fresh nonce. */
  datatype HeartbeatProvider = GatewayBeat | VoiceBeat

  function Beat(p: HeartbeatProvider, sequence: int, nonce: string): WsMessageOut
  {
    match p
    case GatewayBeat => WsMessageOut(G.OP_HEARTBEAT, SequenceData(sequence))
    case VoiceBeat => WsMessageOut(V.OP_HEARTBEAT, NonceData(nonce))
  }

  /** A `time.Ticker`: its period in nanoseconds and whether it fires. */
  datatype Ticker = Ticker(interval: int, running: bool)

  function Stopped(t: Option<Ticker>): (r: Option<Ticker>)
    ensures r.Some? <==> t.Some?
    ensures r.Some? ==> r.value == Ticker(t.value.interval, false)
  {
    if t.None? then None else Some(t.value.(running := false))
  }

  /** What `conn.ReadMessage()` returned. */
  datatype ReadResult = ReadError(err: string) | Frame(messageType: int, payload: string)

  /** Which ready case of the send loop's `select` fires. */
  datatype SendChoice = Outbound | Tick | CloseSignal

  class WebSocket {
    var url: string
    var name: string
    var autoReconnect: bool
    /** `ReconnectFunc != nil`, and how many times it has been called. */
    var hasReconnectFunc: bool
    var reconnectFuncCalls: nat

    var connections: nat
    var connOpen: bool
    var written: seq<WsMessageOut>

    var messagesOut: seq<WsMessageOut>
    var messagesIn: seq<WsMessageIn>
    var events: seq<int>

    var heartbeat: Option<Ticker>
    var heartbeatProvider: Option<HeartbeatProvider>
    var closeSignalled: bool
    var closed: bool

    /** An open socket has a live connection and live queues within capacity, and a
        ticker always comes with its provider. */
    ghost predicate Valid()
      reads this
    {
      (!closed ==> connections > 0 && connOpen && !closeSignalled)
      && (closed ==> !connOpen)
      && |messagesOut| <= QUEUE_CAPACITY && |messagesIn| <= QUEUE_CAPACITY && |events| <= QUEUE_CAPACITY
      && (heartbeat.Some? <==> heartbeatProvider.Some?)
    }

    /** The struct literal of `OpenWebSocket`, before dialling. */
    constructor Init(url: string, name: string, autoReconnect: bool)
      ensures this.url == url && this.name == name && this.autoReconnect == autoReconnect
      ensures !hasReconnectFunc && reconnectFuncCalls == 0
      ensures connections == 0 && !connOpen && written == []
      ensures messagesOut == [] && messagesIn == [] && events == []
      ensures heartbeat == None && heartbeatProvider == None
      ensures !closeSignalled && !closed
    {
      this.url := url;
      this.name := name;
      this.autoReconnect := autoReconnect;
      hasReconnectFunc := false;
      reconnectFuncCalls := 0;
      connections := 0;
      connOpen := false;
      written := [];
      messagesOut := [];
      messagesIn := [];
      events := [];
      heartbeat := None;
      heartbeatProvider := None;
      closeSignalled := false;
      closed := false;
    }

    /** `OpenWebSocket`: the socket is returned together with the dial error, if any. */
    static method Open(url: string, name: string, autoReconnect: bool, dialErr: Option<string>)
      returns (ws: WebSocket, err: Option<string>)
      ensures fresh(ws)
      ensures err == dialErr
      ensures ws.url == url && ws.name == name && ws.autoReconnect == autoReconnect
      ensures dialErr.None? ==> ws.Valid() && !ws.closed && ws.connections == 1
      ensures dialErr.Some? ==> ws.connections == 0 && !ws.closed
    {
      ws := new WebSocket.Init(url, name, autoReconnect);
      err := ws.Connect(dialErr);
    }

    /** `connect`: on a successful dial, fresh empty queues, a new connection and `closed`
        cleared; on a failed dial nothing changes. The ticker is left as it was. */
    method Connect(dialErr: Option<string>) returns (err: Option<string>)
      modifies this`messagesOut, this`messagesIn, this`events, this`connections, this`connOpen,
               this`closeSignalled, this`closed
      ensures err == dialErr
      ensures dialErr.Some? ==> (messagesOut == old(messagesOut) && messagesIn == old(messagesIn)
                                && events == old(events) && connections == old(connections)
                                && connOpen == old(connOpen) && closeSignalled == old(closeSignalled)
                                && closed == old(closed))
      ensures dialErr.None? ==> (messagesOut == [] && messagesIn == [] && events == []
                                && connections == old(connections) + 1 && connOpen
                                && !closeSignalled && !closed)
      ensures dialErr.None? && (heartbeat.Some? <==> heartbeatProvider.Some?) ==> Valid()
    {
      if dialErr.Some? {
        return dialErr;
      }
      messagesOut := [];
      messagesIn := [];
      events := [];
      connections := connections + 1;
      connOpen := true;
      closeSignalled := false;
      closed := false;
      err := None;
    }

    /** `Send`: a no-op on a closed socket, otherwise exactly `{opcode, data}` is queued. */
    method Send(opcode: int, data: OutData)
      requires Valid()
      requires !closed ==> |messagesOut| < QUEUE_CAPACITY
      modifies this`messagesOut
      ensures Valid()
      ensures closed ==> messagesOut == old(messagesOut)
      ensures !closed ==> messagesOut == old(messagesOut) + [WsMessageOut(opcode, data)]
    {
      if closed {
        return;
      }
      messagesOut := messagesOut + [WsMessageOut(opcode, data)];
    }

    /** `Receive`: the head of the inbound queue, or the zero message once it is closed and drained. */
    method Receive() returns (msg: WsMessageIn)
      requires |messagesIn| > 0 || closeSignalled
      modifies this`messagesIn
      ensures old(|messagesIn|) > 0 ==> msg == old(messagesIn[0]) && messagesIn == old(messagesIn[1..])
      ensures old(|messagesIn|) == 0 ==> msg == ZERO_IN && messagesIn == []
    {
      if |messagesIn| == 0 {
        return ZERO_IN;
      }
      msg := messagesIn[0];
      messagesIn := messagesIn[1..];
    }

    /** `StartHeartbeat`: the first call creates the ticker, later calls reset it (which also
        restarts a stopped one); the provider is always replaced. `time.NewTicker` and
        `Ticker.Reset` panic on a non-positive interval, and then nothing changes. */
    method StartHeartbeat(interval: int, provider: HeartbeatProvider) returns (outcome: Outcome)
      requires Valid()
      modifies this`heartbeat, this`heartbeatProvider
      ensures Valid()
      ensures outcome.Crash? <==> interval <= 0
      ensures interval <= 0 ==> heartbeat == old(heartbeat) && heartbeatProvider == old(heartbeatProvider)
      ensures interval > 0 ==> heartbeat == Some(Ticker(interval, true)) && heartbeatProvider == Some(provider)
    {
      if interval <= 0 {
        if heartbeat.None? {
          return Crash("non-positive interval for NewTicker");
        }
        return Crash("non-positive interval for Ticker.Reset");
      }
      if heartbeat.None? {
        heartbeat := Some(Ticker(interval, true));
      } else {
        heartbeat := Some(heartbeat.value.(interval := interval, running := true));
      }
      heartbeatProvider := Some(provider);
      outcome := Continue;
    }

    /** `Close`: the first call sets `closed`, stops the ticker, closes the channels and the
        connection; any later call changes nothing. */
    method Close()
      requires Valid()
      modifies this`closed, this`heartbeat, this`closeSignalled, this`connOpen
      ensures Valid()
      ensures closed
      ensures old(closed) ==> (heartbeat == old(heartbeat) && closeSignalled == old(closeSignalled)
                              && connOpen == old(connOpen))
      ensures !old(closed) ==> heartbeat == Stopped(old(heartbeat)) && closeSignalled && !connOpen
    {
      if closed {
        return;
      }
      closed := true;
      heartbeat := Stopped(heartbeat);
      closeSignalled := true;
      connOpen := false;
    }

    /** `sendMessage`: a failed write is an error only on a closed socket; on an open one it
        is reported as an Error event and swallowed. A write on a closed connection fails. */
    method SendMessage(msg: WsMessageOut, writeErr: Option<string>) returns (err: Option<string>)
      requires connections > 0
      requires !connOpen ==> writeErr.Some?
      requires writeErr.Some? && !closed ==> |events| < QUEUE_CAPACITY
      modifies this`written, this`events
      ensures err.Some? <==> writeErr.Some? && closed
      ensures err.Some? ==> err.value == name + ": WebSocket was closed"
      ensures writeErr.None? ==> written == old(written) + [msg] && events == old(events)
      ensures writeErr.Some? ==> written == old(written)
      ensures writeErr.Some? && !closed ==> events == old(events) + [EVENT_ERROR]
      ensures writeErr.Some? && closed ==> events == old(events)
    {
      if writeErr.None? {
        written := written + [msg];
        return None;
      }
      if closed {
        return Some(name + ": WebSocket was closed");
      }
      events := events + [EVENT_ERROR];
      err := None;
    }

    /** `sendHeartbeat`: the provider's message, built from the values current when it fires. */
    method SendHeartbeat(sequence: int, nonce: string, writeErr: Option<string>) returns (err: Option<string>)
      requires connections > 0 && heartbeatProvider.Some?
      requires !connOpen ==> writeErr.Some?
      requires writeErr.Some? && !closed ==> |events| < QUEUE_CAPACITY
      modifies this`written, this`events
      ensures err.Some? <==> writeErr.Some? && closed
      ensures writeErr.None? && heartbeatProvider.value.GatewayBeat? ==>
                written == old(written) + [WsMessageOut(G.OP_HEARTBEAT, SequenceData(sequence))]
      ensures writeErr.None? && heartbeatProvider.value.VoiceBeat? ==>
                written == old(written) + [WsMessageOut(V.OP_HEARTBEAT, NonceData(nonce))]
      ensures writeErr.Some? ==> written == old(written)
      ensures writeErr.Some? && !closed ==> events == old(events) + [EVENT_ERROR]
      ensures !(writeErr.Some? && !closed) ==> events == old(events)
    {
      err := SendMessage(Beat(heartbeatProvider.value, sequence, nonce), writeErr);
    }

    /** One turn of `runSendLoop`: the case of the `select` that fired, then whether the loop
        goes on. A drained, closed outbound queue yields the zero message. */
    method SendStep(choice: SendChoice, sequence: int, nonce: string, writeErr: Option<string>)
      returns (running: bool)
      requires Valid() && connections > 0
      requires !connOpen ==> writeErr.Some?
      requires writeErr.Some? && !closed ==> |events| < QUEUE_CAPACITY
      requires choice.Outbound? ==> |messagesOut| > 0 || closeSignalled
      requires choice.Tick? ==> heartbeat.Some? && heartbeat.value.running
      requires choice.CloseSignal? ==> closeSignalled
      modifies this`written, this`events, this`messagesOut
      ensures Valid()
      ensures running <==> !choice.CloseSignal? && !(writeErr.Some? && closed)
      ensures choice.Outbound? && old(|messagesOut|) > 0 ==> messagesOut == old(messagesOut[1..])
      ensures !(choice.Outbound? && old(|messagesOut|) > 0) ==> messagesOut == old(messagesOut)
      ensures choice.Outbound? && writeErr.None? ==>
                written == old(written) + [if old(|messagesOut|) > 0 then old(messagesOut[0]) else ZERO_OUT]
      ensures choice.Tick? && writeErr.None? ==>
                written == old(written) + [Beat(heartbeatProvider.value, sequence, nonce)]
      ensures choice.CloseSignal? || writeErr.Some? ==> written == old(written)
      ensures !choice.CloseSignal? && writeErr.Some? && !closed ==> events == old(events) + [EVENT_ERROR]
      ensures choice.CloseSignal? || writeErr.None? || closed ==> events == old(events)
    {
      var err: Option<string> := None;
      match choice {
        case Outbound =>
          var msg := ZERO_OUT;
          if |messagesOut| > 0 {
            msg := messagesOut[0];
            messagesOut := messagesOut[1..];
          }
          err := SendMessage(msg, writeErr);
        case Tick =>
          err := SendHeartbeat(sequence, nonce, writeErr);
        case CloseSignal =>
          return false;
      }
      running := err.None?;
    }

    /** One turn of `runReceiveLoop`, and whether its deferred reconnect is scheduled when the
        loop ends here. */
    method ReceiveStep(read: ReadResult, decode: string -> Option<WsMessageIn>)
      returns (running: bool, reconnectScheduled: bool)
      requires Valid()
      requires !closed && (read.ReadError? || (read.messageType == TEXT_MESSAGE && decode(read.payload).None?)) ==>
                 |events| < QUEUE_CAPACITY
      requires !closed && read.Frame? && read.messageType == TEXT_MESSAGE && decode(read.payload).Some? ==>
                 |messagesIn| < QUEUE_CAPACITY
      modifies this`events, this`messagesIn
      ensures Valid()
      ensures reconnectScheduled <==> !running && !closed && autoReconnect
      ensures closed ==> !running && events == old(events) && messagesIn == old(messagesIn)
      ensures !closed && read.ReadError? ==>
                !running && events == old(events) + [EVENT_ERROR] && messagesIn == old(messagesIn)
      ensures !closed && read.Frame? && read.messageType != TEXT_MESSAGE ==>
                running && events == old(events) && messagesIn == old(messagesIn)
      ensures !closed && read.Frame? && read.messageType == TEXT_MESSAGE && decode(read.payload).None? ==>
                running && events == old(events) + [EVENT_ERROR] && messagesIn == old(messagesIn)
      ensures !closed && read.Frame? && read.messageType == TEXT_MESSAGE && decode(read.payload).Some? ==>
                running && events == old(events) && messagesIn == old(messagesIn) + [decode(read.payload).value]
    {
      running := true;
      if closed {
        running := false;
      } else if read.ReadError? {
        events := events + [EVENT_ERROR];
        running := false;
      } else if read.messageType == TEXT_MESSAGE {
        match decode(read.payload) {
          case None =>
            events := events + [EVENT_ERROR];
          case Some(message) =>
            messagesIn := messagesIn + [message];
        }
      }
      reconnectScheduled := !running && !closed && autoReconnect;
    }

    /** `Reconnect`: close, then dial again; `ReconnectFunc` runs only after a successful
        dial and only when it is set. The ticker stays stopped until the next `StartHeartbeat`. */
    method Reconnect(dialErr: Option<string>)
      requires Valid()
      modifies this
      ensures Valid()
      ensures url == old(url) && name == old(name) && autoReconnect == old(autoReconnect)
      ensures hasReconnectFunc == old(hasReconnectFunc) && written == old(written)
      ensures heartbeatProvider == old(heartbeatProvider)
      ensures heartbeat == (if old(closed) then old(heartbeat) else Stopped(old(heartbeat)))
      ensures dialErr.Some? ==> (closed && !connOpen && connections == old(connections)
                                && messagesOut == old(messagesOut) && messagesIn == old(messagesIn)
                                && events == old(events) && reconnectFuncCalls == old(reconnectFuncCalls))
      ensures dialErr.None? ==> (!closed && connOpen && connections == old(connections) + 1
                                && messagesOut == [] && messagesIn == [] && events == [])
      ensures dialErr.None? ==> reconnectFuncCalls == old(reconnectFuncCalls) + (if hasReconnectFunc then 1 else 0)
    {
      Close();
      var err := Connect(dialErr);
      if err.Some? {
        return;
      }
      if hasReconnectFunc {
        reconnectFuncCalls := reconnectFuncCalls + 1;
      }
    }
  }
}
