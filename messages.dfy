/** WebSocket frames in Discord's `{"op", "d", "s", "t"}` envelope, and their log summaries. */
module Messages {

  import opened Wrappers
  import opened Bits
  import opened Text
  import G = GatewayModel
  import V = VoiceModel

  /** The payloads this code base places in an outgoing envelope's `d` field
      (a Go `interface{}`); `NoData` is the nil interface. */
  datatype OutData =
    | NoData
    | IdentifyData(identify: G.IdentifyPayload)
    | SequenceData(sequence: int)
    | VoiceStateData(state: G.VoiceState)
    | NonceData(nonce: string)
    | VoiceIdentifyData(voiceIdentify: V.VoiceIdentifyMessage)
    | SpeakingData(speaking: V.VoiceSpeakingMessage)
    | SelectProtocolData(selectProtocol: V.VoiceSelectProtocolMessage)

  datatype WsMessageOut = WsMessageOut(opcode: int, data: OutData)

  /** An incoming envelope; `data` is the raw JSON of `d`, None when `d` is null or absent. */
  datatype WsMessageIn = WsMessageIn(opcode: int, sequence: int, eventType: string, data: Option<string>)

  /** The zero values a receive on a closed Go channel yields. */
  const ZERO_OUT := WsMessageOut(0, NoData)
  const ZERO_IN := WsMessageIn(0, 0, "", None)

  /** `msg.Unmarshal(&target)` with `decode` standing for `json.Unmarshal` into the target type.
      Both failures end the process: dereferencing a nil `Data`, and a decode error (`log.Fatalln`). */
  function Unmarshal<T>(msg: WsMessageIn, decode: string -> Option<T>): (r: Result<T>)
    ensures r.Ok? <==> msg.data.Some? && decode(msg.data.value).Some?
    ensures r.Ok? ==> decode(msg.data.value) == Some(r.value)
  {
    if msg.data.None? then Err("invalid memory address or nil pointer dereference")
    else match decode(msg.data.value)
      case None => Err("failed to unmarshal message")
      case Some(v) => Ok(v)
  }

  function DataText(data: Option<string>): string
  {
    if data.None? then "nil" else data.value
  }

  predicate HasSuffix(s: string, p: string)
  {
    |p| <= |s| && s[|s| - |p|..] == p
  }

  /** `WsMessageIn.String()`. */
  function Summary(msg: WsMessageIn): (r: string)
    ensures HasPrefix(r, "op=" + Itoa(msg.opcode) + "; data=")
    ensures msg.data.None? ==> HasPrefix(r, "op=" + Itoa(msg.opcode) + "; data=nil; t=")
    ensures msg.data.Some? ==> HasPrefix(r, "op=" + Itoa(msg.opcode) + "; data=" + msg.data.value + "; t=")
    ensures HasSuffix(r, "; t=" + msg.eventType)
    ensures |r| == |"op=" + Itoa(msg.opcode) + "; data=" + DataText(msg.data) + "; t="| + |msg.eventType|
  {
    var head := "op=" + Itoa(msg.opcode) + "; data=" + DataText(msg.data) + "; t=";
    assert head + msg.eventType == "op=" + Itoa(msg.opcode) + "; data=" + DataText(msg.data) + "; t=" + msg.eventType;
    assert (head + msg.eventType)[|head| - 4..] == "; t=" + msg.eventType;
    "op=" + Itoa(msg.opcode) + "; data=" + DataText(msg.data) + "; t=" + msg.eventType
  }

  /** `WsMessageOut.String()`, with `marshal` standing for `json.Marshal`. */
  function OutSummary(msg: WsMessageOut, marshal: OutData -> Result<string>): (r: Result<string>)
    ensures r.Err? <==> marshal(msg.data).Err?
    ensures r.Err? ==> r.error == marshal(msg.data).error
    ensures r.Ok? ==> HasPrefix(r.value, "op=" + Itoa(msg.opcode) + "; data=")
    ensures r.Ok? ==> r.value[|"op=" + Itoa(msg.opcode) + "; data="|..] == marshal(msg.data).value
  {
    match marshal(msg.data)
    case Err(e) => Err(e)
    case Ok(json) => Ok("op=" + Itoa(msg.opcode) + "; data=" + json)
  }

  /** The text `Itoa` produces holds no ';'. */
  lemma ItoaHasNoSemicolon(n: int)
    ensures forall i :: 0 <= i < |Itoa(n)| ==> Itoa(n)[i] != ';'
  {
    var d := NatToString(if n < 0 then -n else n);
    assert forall i :: 0 <= i < |d| ==> IsDigit(d[i]);
  }

  /** A summary begins with the opcode in decimal, closed by the first ';': the opcode
      of any 64-bit message can be read back with `Atoi` from the text between "op=" and ';'. */
  lemma OpcodeReadBack(n: int, rest: string)
    requires INT64_MIN <= n <= INT64_MAX
    ensures var s := "op=" + Itoa(n) + "; data=" + rest;
            var k := Index(s, ";");
            k == 3 + |Itoa(n)| && Atoi(s[3..k]) == (n, true)
  {
    ItoaHasNoSemicolon(n);
    FirstSemicolon("op=", Itoa(n), "; data=", rest);
    AtoiItoa(n);
  }

  /** In `a + d + m + rest`, where neither `a` nor `d` holds ';' and `m` starts with it, the
      first ';' closes `d`. */
  lemma FirstSemicolon(a: string, d: string, m: string, rest: string)
    requires ';' !in a && (forall i :: 0 <= i < |d| ==> d[i] != ';')
    requires |m| > 0 && m[0] == ';'
    ensures var s := a + d + m + rest;
            Index(s, ";") == |a| + |d| && s[|a|..|a| + |d|] == d
  {
    var s := a + d + m + rest;
    var e := |a| + |d|;
    assert s[e..e + 1] == ";";
    forall k | 0 <= k < e
      ensures !OccursAt(s, ";", k)
    {
      if k >= |a| { assert s[k] == d[k - |a|]; } else { assert s[k] == a[k]; }
      assert s[k..k + 1] == [s[k]];
    }
    IndexAt(s, ";", e);
    assert s[|a|..e] == d;
  }

  /** Inbound summaries keep the opcode recoverable. */
  lemma SummaryOpcode(msg: WsMessageIn)
    requires INT64_MIN <= msg.opcode <= INT64_MAX
    ensures var s := Summary(msg);
            var k := Index(s, ";");
            3 <= k <= |s| && Atoi(s[3..k]) == (msg.opcode, true)
  {
    var rest := DataText(msg.data) + "; t=" + msg.eventType;
    assert Summary(msg) == "op=" + Itoa(msg.opcode) + "; data=" + rest;
    OpcodeReadBack(msg.opcode, rest);
  }

  /** A nil payload and a payload are told apart in the summary, unless the raw JSON is
      literally `nil` (which is not valid JSON). */
  lemma SummaryShowsNil(msg: WsMessageIn, other: WsMessageIn)
    requires msg.data.None? && other.data.Some? && other.data.value != "nil"
    requires msg.opcode == other.opcode && msg.eventType == other.eventType
    ensures Summary(msg) != Summary(other)
  {
    var p := "op=" + Itoa(msg.opcode) + "; data=";
    var a := Summary(msg);
    var b := Summary(other);
    assert a == p + "nil" + "; t=" + msg.eventType;
    assert b == p + other.data.value + "; t=" + msg.eventType;
    assert |a| != |b| || a != b by {
      if |a| == |b| {
        assert |other.data.value| == 3;
        assert a[|p|..|p| + 3] == "nil";
        assert b[|p|..|p| + 3] == other.data.value;
      }
    }
  }

  /** Outbound summaries keep the opcode recoverable as well. */
  lemma OutSummaryOpcode(msg: WsMessageOut, marshal: OutData -> Result<string>)
    requires INT64_MIN <= msg.opcode <= INT64_MAX
    requires marshal(msg.data).Ok?
    ensures var s := OutSummary(msg, marshal).value;
            var k := Index(s, ";");
            3 <= k <= |s| && Atoi(s[3..k]) == (msg.opcode, true)
  {
    var rest := marshal(msg.data).value;
    assert OutSummary(msg, marshal).value == "op=" + Itoa(msg.opcode) + "; data=" + rest;
    OpcodeReadBack(msg.opcode, rest);
  }
}
