/** The UDP voice media stream: packet framing, encryption inputs, the 16-bit sequence
    counter, and IP discovery.

    The layouts are pure functions on bytes; the stream itself is a class whose key,
    sequence and local address change in place. `secretbox.Seal` is the parameter `seal`;
    the RTP header is built per section 5.1 of RFC 3550; the UDP socket is the flag
    `connected` and the log `sent` of datagrams written to it, with each I/O outcome given
    as a parameter. */
module Stream {

  import opened Wrappers
  import opened Bits

  const PAYLOAD_TYPE: Byte := 0x78

  /** `secretbox.Seal(nil, message, nonce, key)`. */
  type Seal = (seq<Byte>, seq<Byte>, seq<Byte>) -> seq<Byte>

  // ---------------------------------------------------------------------------
  // Packet layout

  /** The 12-byte header written first: 0x80, the payload type, then sequence, timestamp
      and SSRC in big-endian order. */
  function DiscordHeader(sequence: U16, timestamp: U32, ssrc: U32): (h: seq<Byte>)
    ensures |h| == 12
    ensures h[0] == 0x80 && h[1] == PAYLOAD_TYPE
    ensures ReadU16BE(h, 2) == sequence && ReadU32BE(h, 4) == timestamp && ReadU32BE(h, 8) == ssrc
  {
    ReadU16At([0x80, PAYLOAD_TYPE], sequence, U32BE(timestamp) + U32BE(ssrc));
    ReadU32At([0x80, PAYLOAD_TYPE] + U16BE(sequence), timestamp, U32BE(ssrc));
    ReadU32At([0x80, PAYLOAD_TYPE] + U16BE(sequence) + U32BE(timestamp), ssrc, []);
    assert [0x80, PAYLOAD_TYPE] + U16BE(sequence) + U32BE(timestamp) + U32BE(ssrc)
        == [0x80, PAYLOAD_TYPE] + U16BE(sequence) + (U32BE(timestamp) + U32BE(ssrc));
    [0x80, PAYLOAD_TYPE] + U16BE(sequence) + U32BE(timestamp) + U32BE(ssrc)
  }

  /** The fields of an RTP fixed header without CSRC entries. */
  datatype RtpHeader = RtpHeader(
    version: int, padding: bool, extension: bool, marker: bool,
    payloadType: int, sequenceNumber: U16, timestamp: U32, ssrc: U32)

  predicate WellFormed(h: RtpHeader)
  {
    0 <= h.version < 4 && 0 <= h.payloadType < 0x80
  }

  function Bit(b: bool): int
  {
    if b then 1 else 0
  }

  /** The RTP fixed header of section 5.1 of RFC 3550: V(2) P(1) X(1) CC(4), M(1) PT(7),
      then sequence number, timestamp and SSRC in network byte order. */
  function MarshalRtp(h: RtpHeader): seq<Byte>
    requires WellFormed(h)
  {
    [h.version * 64 + Bit(h.padding) * 32 + Bit(h.extension) * 16, Bit(h.marker) * 128 + h.payloadType]
      + U16BE(h.sequenceNumber) + U32BE(h.timestamp) + U32BE(h.ssrc)
  }

  /** The receiving side of section 5.1 of RFC 3550, for a header without CSRC entries. */
  function ParseRtp(b: seq<Byte>): (r: Option<RtpHeader>)
    ensures r.Some? ==> WellFormed(r.value)
  {
    if |b| < 12 || b[0] % 16 != 0 then None
    else Some(RtpHeader(b[0] / 64, b[0] / 32 % 2 == 1, b[0] / 16 % 2 == 1, b[1] / 128 == 1,
                        b[1] % 128, ReadU16BE(b, 2), ReadU32BE(b, 4), ReadU32BE(b, 8)))
  }

  /** `createRtpHeader`: version 2, padding set, no extension, no marker, the stream's
      payload type. Marshalling such a header cannot fail, so the error result is left out. */
  function CreateRtpHeader(sequence: U16, timestamp: U32, ssrc: U32): seq<Byte>
  {
    MarshalRtp(RtpHeader(2, true, false, false, PAYLOAD_TYPE, sequence, timestamp, ssrc))
  }

  /** The 24-byte nonce of `encryptAudio`: the RTP header in the first 12 bytes, then zeros. */
  function Nonce(rtpHeader: seq<Byte>): (n: seq<Byte>)
    ensures |n| == 24
    ensures |rtpHeader| >= 12 ==> n[..12] == rtpHeader[..12]
    ensures forall i :: 12 <= i < 24 ==> n[i] == 0
  {
    CopyInto(rtpHeader, 12) + Zeros(12)
  }

  /** The 32-byte key of `encryptAudio`: the stored key, truncated or zero-padded. */
  function Key32(key: seq<Byte>): (k: seq<Byte>)
    ensures |k| == 32
    ensures forall i :: 0 <= i < 32 && i < |key| ==> k[i] == key[i]
    ensures forall i :: |key| <= i < 32 ==> k[i] == 0
  {
    CopyInto(key, 32)
  }

  /** The datagram `SendOpusFrame` writes: Discord header, RTP header, sealed frame. */
  function Packet(sequence: U16, timestamp: U32, ssrc: U32, frame: seq<Byte>, key: seq<Byte>, seal: Seal): seq<Byte>
  {
    var rtp := CreateRtpHeader(sequence, timestamp, ssrc);
    DiscordHeader(sequence, timestamp, ssrc) + rtp + seal(frame, Nonce(rtp), Key32(key))
  }

  // ---------------------------------------------------------------------------
  // IP discovery

  /** The 74-byte discovery request: type 1, length 70, SSRC, 64 zero bytes, then the remote
      port cut to 16 bits. */
  function DiscoveryRequest(ssrc: U32, remotePort: int): (req: seq<Byte>)
    ensures |req| == 74
    ensures ReadU16BE(req, 0) == 1 && ReadU16BE(req, 2) == 70 && ReadU32BE(req, 4) == ssrc
    ensures forall i :: 8 <= i < 72 ==> req[i] == 0
    ensures ReadU16BE(req, 72) == ToU16(remotePort)
  {
    var port := ToU16(remotePort);
    ReadU16At([], 1, U16BE(70) + U32BE(ssrc) + Zeros(64) + U16BE(port));
    ReadU16At(U16BE(1), 70, U32BE(ssrc) + Zeros(64) + U16BE(port));
    ReadU32At(U16BE(1) + U16BE(70), ssrc, Zeros(64) + U16BE(port));
    ReadU16At(U16BE(1) + U16BE(70) + U32BE(ssrc) + Zeros(64), port, []);
    assert U16BE(1) + U16BE(70) + U32BE(ssrc) + Zeros(64) + U16BE(port)
        == [] + U16BE(1) + (U16BE(70) + U32BE(ssrc) + Zeros(64) + U16BE(port))
        == U16BE(1) + U16BE(70) + (U32BE(ssrc) + Zeros(64) + U16BE(port))
        == U16BE(1) + U16BE(70) + U32BE(ssrc) + (Zeros(64) + U16BE(port))
        == U16BE(1) + U16BE(70) + U32BE(ssrc) + Zeros(64) + U16BE(port) + [];
    U16BE(1) + U16BE(70) + U32BE(ssrc) + Zeros(64) + U16BE(port)
  }

  /** A server reply laid out like the request: type 2, length 70, SSRC, the address
      NUL-padded to 64 bytes, then the port. */
  function DiscoveryResponse(ssrc: U32, ip: seq<Byte>, port: U16): seq<Byte>
    requires |ip| < 64
  {
    U16BE(2) + U16BE(70) + U32BE(ssrc) + ip + Zeros(64 - |ip|) + U16BE(port)
  }

  /** `ReadFromUDP` into a zeroed 74-byte buffer: a longer datagram is truncated, a shorter
      one leaves zeros behind it. */
  function ResponseBuffer(datagram: seq<Byte>): (b: seq<Byte>)
    ensures |b| == 74
  {
    CopyInto(datagram, 74)
  }

  /** The position of the first zero byte, or |s| when there is none. */
  function FirstZero(s: seq<Byte>): (j: nat)
    ensures j <= |s|
    ensures j < |s| ==> s[j] == 0
    ensures forall i :: 0 <= i < j ==> s[i] != 0
  {
    if |s| == 0 then 0 else if s[0] == 0 then 0 else 1 + FirstZero(s[1..])
  }

  /** The parse of `discoverLocalIp`: skip type, length and SSRC unchecked, read the address
      through its NUL terminator (kept), skip the rest of the 64-byte field and read the port.
      When no NUL lies inside the field, `Next` is given a negative count and panics: None. */
  function ParseDiscoveryResponse(resp: seq<Byte>): (r: Option<(seq<Byte>, U16)>)
    requires |resp| == 74
    ensures r.Some? <==> exists i :: 8 <= i < 72 && resp[i] == 0
    ensures r.Some? ==> var (ip, port) := r.value;
                        1 <= |ip| <= 64 && ip == resp[8..8 + |ip|] && ip[|ip| - 1] == 0
                        && (forall i :: 0 <= i < |ip| - 1 ==> ip[i] != 0)
                        && port == ReadU16BE(resp, 72)
  {
    var j := FirstZero(resp[8..]);
    if j >= 64 then
      assert forall i :: 8 <= i < 72 ==> resp[i] == resp[8..][i - 8];
      None
    else
      assert resp[8 + j] == resp[8..][j];
      Some((resp[8..8 + j + 1], ReadU16BE(resp, 72)))
  }

  /** Go's `string(bytes)`: one character per byte. */
  function BytesToString(b: seq<Byte>): (s: string)
    ensures |s| == |b|
    ensures forall i :: 0 <= i < |b| ==> s[i] as int == b[i]
  {
    seq(|b|, i requires 0 <= i < |b| => b[i] as char)
  }

  // ---------------------------------------------------------------------------
  // Properties of the layouts

  /** The second header is a valid RFC 3550 header carrying the same sequence number,
      timestamp and SSRC as the first, with V=2, P=1, X=0, M=0 and the stream's payload type. */
  lemma RtpHeaderRoundTrip(sequence: U16, timestamp: U32, ssrc: U32)
    ensures |CreateRtpHeader(sequence, timestamp, ssrc)| == 12
    ensures ParseRtp(CreateRtpHeader(sequence, timestamp, ssrc))
         == Some(RtpHeader(2, true, false, false, PAYLOAD_TYPE, sequence, timestamp, ssrc))
    ensures CreateRtpHeader(sequence, timestamp, ssrc)[0] == 0xA0
    ensures CreateRtpHeader(sequence, timestamp, ssrc)[1..] == DiscordHeader(sequence, timestamp, ssrc)[1..]
  {
    var h := RtpHeader(2, true, false, false, PAYLOAD_TYPE, sequence, timestamp, ssrc);
    MarshalParse(h);
  }

  /** The first header byte gives back V, P and X, and its CSRC count is zero. */
  lemma FirstByteRoundTrip(version: int, padding: bool, extension: bool)
    requires 0 <= version < 4
    ensures var x := version * 64 + Bit(padding) * 32 + Bit(extension) * 16;
            x % 16 == 0 && x / 64 == version && (x / 32 % 2 == 1) == padding && (x / 16 % 2 == 1) == extension
  {
  }

  /** The second header byte gives back M and PT. */
  lemma SecondByteRoundTrip(marker: bool, payloadType: int)
    requires 0 <= payloadType < 0x80
    ensures var x := Bit(marker) * 128 + payloadType;
            (x / 128 == 1) == marker && x % 128 == payloadType
  {
  }

  /** Marshalling then parsing an RTP header gives it back. */
  lemma MarshalParse(h: RtpHeader)
    requires WellFormed(h)
    ensures |MarshalRtp(h)| == 12
    ensures ParseRtp(MarshalRtp(h)) == Some(h)
  {
    FirstByteRoundTrip(h.version, h.padding, h.extension);
    SecondByteRoundTrip(h.marker, h.payloadType);
    var b := MarshalRtp(h);
    var tail := U32BE(h.timestamp) + U32BE(h.ssrc);
    var first := [b[0], b[1]];
    ReadU16At(first, h.sequenceNumber, tail);
    ReadU32At(first + U16BE(h.sequenceNumber), h.timestamp, U32BE(h.ssrc));
    ReadU32At(first + U16BE(h.sequenceNumber) + U32BE(h.timestamp), h.ssrc, []);
    assert b == first + U16BE(h.sequenceNumber) + tail;
    assert b == first + U16BE(h.sequenceNumber) + U32BE(h.timestamp) + U32BE(h.ssrc) + [];
  }

  /** Packet bytes 0..11 are the Discord header, 12..23 the RTP header, and the sealed frame
      follows, sealed under the nonce made from the RTP header and the 32-byte key. */
  lemma PacketLayout(sequence: U16, timestamp: U32, ssrc: U32, frame: seq<Byte>, key: seq<Byte>, seal: Seal)
    ensures var p := Packet(sequence, timestamp, ssrc, frame, key, seal);
            |p| >= 24
            && p[0] == 0x80 && p[1] == PAYLOAD_TYPE
            && ReadU16BE(p, 2) == sequence && ReadU32BE(p, 4) == timestamp && ReadU32BE(p, 8) == ssrc
            && ParseRtp(p[12..24]) == Some(RtpHeader(2, true, false, false, PAYLOAD_TYPE, sequence, timestamp, ssrc))
            && p[24..] == seal(frame, Nonce(p[12..24]), Key32(key))
  {
    var d := DiscordHeader(sequence, timestamp, ssrc);
    var rtp := CreateRtpHeader(sequence, timestamp, ssrc);
    RtpHeaderRoundTrip(sequence, timestamp, ssrc);
    var p := Packet(sequence, timestamp, ssrc, frame, key, seal);
    assert p[..12] == d;
    assert p[12..24] == rtp;
    assert ReadU16BE(p, 2) == ReadU16BE(d, 2);
    assert ReadU32BE(p, 4) == ReadU32BE(d, 4);
    assert ReadU32BE(p, 8) == ReadU32BE(d, 8);
  }

  /** If `open` undoes `seal`, a receiver that takes the nonce from packet bytes 12..23 and
      the ciphertext from byte 24 on recovers the frame. */
  lemma FrameRecoverable(sequence: U16, timestamp: U32, ssrc: U32, frame: seq<Byte>, key: seq<Byte>,
                         seal: Seal, open: (seq<Byte>, seq<Byte>, seq<Byte>) -> Option<seq<Byte>>)
    requires forall m, n, k :: open(seal(m, n, k), n, k) == Some(m)
    ensures var p := Packet(sequence, timestamp, ssrc, frame, key, seal);
            |p| >= 24 && open(p[24..], Nonce(p[12..24]), Key32(key)) == Some(frame)
  {
    PacketLayout(sequence, timestamp, ssrc, frame, key, seal);
  }

  /** The nonce is made from the second header, not the first: they differ in byte 0. */
  lemma NonceFromSecondHeader(sequence: U16, timestamp: U32, ssrc: U32, frame: seq<Byte>, key: seq<Byte>, seal: Seal)
    ensures var p := Packet(sequence, timestamp, ssrc, frame, key, seal);
            |p| >= 24 && Nonce(p[12..24]) != Nonce(p[..12])
  {
    PacketLayout(sequence, timestamp, ssrc, frame, key, seal);
    var p := Packet(sequence, timestamp, ssrc, frame, key, seal);
    RtpHeaderRoundTrip(sequence, timestamp, ssrc);
    assert p[12..24][0] == 0xA0;
    assert Nonce(p[12..24])[0] == 0xA0;
    assert Nonce(p[..12])[0] == 0x80;
  }

  /** A reply laid out like the request parses back to the address (with its terminator)
      and the port. */
  lemma DiscoveryRoundTrip(ssrc: U32, ip: seq<Byte>, port: U16)
    requires |ip| < 64
    requires forall i :: 0 <= i < |ip| ==> ip[i] != 0
    ensures |DiscoveryResponse(ssrc, ip, port)| == 74
    ensures ParseDiscoveryResponse(DiscoveryResponse(ssrc, ip, port)) == Some((ip + [0], port))
  {
    var head := U16BE(2) + U16BE(70) + U32BE(ssrc);
    var r := DiscoveryResponse(ssrc, ip, port);
    assert r == head + ip + Zeros(64 - |ip|) + U16BE(port);
    assert r[8..] == ip + Zeros(64 - |ip|) + U16BE(port);
    assert r[8..][|ip|] == 0;
    assert forall i :: 0 <= i < |ip| ==> r[8..][i] == ip[i];
    assert FirstZero(r[8..]) == |ip|;
    assert r[8..8 + |ip| + 1] == ip + [0];
    ReadU16At(head + ip + Zeros(64 - |ip|), port, []);
    assert r == head + ip + Zeros(64 - |ip|) + U16BE(port) + [];
  }

  /** The response buffer holds the datagram's first 74 bytes; a short reply such as an empty
      one reads as an empty address (just the terminator) and port 0. */
  lemma ShortReply(datagram: seq<Byte>)
    requires |datagram| <= 8
    ensures ParseDiscoveryResponse(ResponseBuffer(datagram)) == Some(([0], 0))
  {
    var b := ResponseBuffer(datagram);
    assert b[8] == 0;
    assert b[8..][0] == 0;
    assert b[8..9] == [0];
  }

  // ---------------------------------------------------------------------------
  // The sequence counter

  /** The counter after `n` calls of `nextSequence` from `start`. */
  function SequenceAfter(start: U16, n: nat): U16
  {
    if n == 0 then start else ToU16(SequenceAfter(start, n - 1) + 1)
  }

  /** `n` calls move the counter by exactly `n`, modulo 65536. */
  lemma {:induction false} SequenceAfterWraps(start: U16, n: nat)
    ensures SequenceAfter(start, n) == ToU16(start + n)
  {
    if n > 0 {
      SequenceAfterWraps(start, n - 1);
      IncrementWraps(start + n - 1);
    }
  }

  /** Adding one to a value cut to 16 bits is adding one and then cutting. */
  lemma IncrementWraps(a: nat)
    ensures ToU16(ToU16(a) + 1) == ToU16(a + 1)
  {
    var q := a / 0x1_0000;
    var r := a % 0x1_0000;
    assert a == q * 0x1_0000 + r;
    if r + 1 < 0x1_0000 {
      ModuloOf(a + 1, q, r + 1);
      ModuloOf(r + 1, 0, r + 1);
    } else {
      ModuloOf(a + 1, q + 1, 0);
      ModuloOf(r + 1, 1, 0);
    }
  }

  lemma ModuloOf(a: int, q: int, r: int)
    requires 0 <= r < 0x1_0000 && a == q * 0x1_0000 + r
    ensures a % 0x1_0000 == r
  {
  }

  // ---------------------------------------------------------------------------
  // The stream

  class VoiceStream {
    var remoteIp: string
    var remotePort: int
    var localIp: string
    var localPort: int
    var ssrc: U32

    var connected: bool
    var sent: seq<seq<Byte>>
    /** None is a nil key slice; an empty non-nil key is Some([]). */
    var key: Option<seq<Byte>>
    var sequence: U16

    /** `NewVoiceStream`. */
    constructor (ip: string, port: int, ssrc: U32)
      ensures remoteIp == ip && remotePort == port && this.ssrc == ssrc
      ensures localIp == "" && localPort == 0
      ensures !connected && sent == [] && key == None && sequence == 0
    {
      remoteIp := ip;
      remotePort := port;
      this.ssrc := ssrc;
      localIp := "";
      localPort := 0;
      connected := false;
      sent := [];
      key := None;
      sequence := 0;
    }

    /** Every field but the key is as it was. */
    twostate predicate OnlyKeyChanged()
      reads this
    {
      remoteIp == old(remoteIp) && remotePort == old(remotePort) && localIp == old(localIp)
      && localPort == old(localPort) && ssrc == old(ssrc) && connected == old(connected)
      && sent == old(sent) && sequence == old(sequence)
    }

    /** `FinishSetup`: installs the key as given (a nil key leaves the stream unusable). */
    method FinishSetup(key: Option<seq<Byte>>)
      modifies this`key
      ensures this.key == key && OnlyKeyChanged()
    {
      this.key := key;
    }

    /** `nextSequence`: increments first, then returns, so the first number is 1 and 65535
        is followed by 0. */
    method NextSequence() returns (s: U16)
      modifies this`sequence
      ensures s == sequence == SequenceAfter(old(sequence), 1)
      ensures old(sequence) < 0xFFFF ==> s == old(sequence) + 1
      ensures old(sequence) == 0xFFFF ==> s == 0
    {
      sequence := ToU16(sequence + 1);
      s := sequence;
    }

    /** `SendOpusFrame`. Without a key it fails and touches nothing. Otherwise the sequence
        advances before anything is written, so a failed write still uses up a number; a
        successful write sends exactly the framed packet. Writing through a nil connection
        dereferences it and panics. */
    method SendOpusFrame(frame: seq<Byte>, timestamp: U32, seal: Seal, writeErr: Option<string>)
      returns (outcome: Outcome, err: Option<string>)
      modifies this`sequence, this`sent
      ensures key.None? ==> outcome.Continue? && err == Some("voice stream is not initialized")
                            && sequence == old(sequence) && sent == old(sent)
      ensures outcome.Crash? <==> key.Some? && !connected
      ensures key.Some? ==> sequence == SequenceAfter(old(sequence), 1)
      ensures key.Some? && connected && writeErr.None? ==>
                outcome.Continue? && err.None? && sent == old(sent) + [Packet(sequence, timestamp, ssrc, frame, key.value, seal)]
      ensures key.Some? && connected && writeErr.Some? ==> outcome.Continue? && err == writeErr && sent == old(sent)
      ensures outcome.Crash? ==> sent == old(sent)
    {
      if key.None? {
        return Continue, Some("voice stream is not initialized");
      }
      var s := NextSequence();
      var packet := Packet(s, timestamp, ssrc, frame, key.value, seal);
      if !connected {
        return Crash("invalid memory address or nil pointer dereference"), None;
      }
      if writeErr.Some? {
        return Continue, writeErr;
      }
      sent := sent + [packet];
      outcome, err := Continue, None;
    }

    /** `discoverLocalIp`: write the request, read the reply, and take the address and port
        from it. Either I/O error is returned with the local address unchanged; a reply
        without a NUL in its address field panics. */
    method DiscoverLocalIp(writeErr: Option<string>, reply: Result<seq<Byte>>)
      returns (outcome: Outcome, err: Option<string>)
      requires connected
      modifies this`sent, this`localIp, this`localPort
      ensures writeErr.None? ==> sent == old(sent) + [DiscoveryRequest(ssrc, remotePort)]
      ensures writeErr.Some? ==> sent == old(sent) && err == writeErr && outcome.Continue?
      ensures writeErr.None? && reply.Err? ==> err == Some(reply.error) && outcome.Continue?
      ensures outcome.Crash? <==> writeErr.None? && reply.Ok? && ParseDiscoveryResponse(ResponseBuffer(reply.value)).None?
      ensures outcome.Continue? && err.None? ==>
                writeErr.None? && reply.Ok?
                && var (ip, port) := ParseDiscoveryResponse(ResponseBuffer(reply.value)).value;
                   localIp == BytesToString(ip) && localPort == port
      ensures outcome.Crash? || err.Some? ==> localIp == old(localIp) && localPort == old(localPort)
      ensures writeErr.None? && reply.Ok? && ParseDiscoveryResponse(ResponseBuffer(reply.value)).Some? ==>
                outcome.Continue? && err.None?
    {
      if writeErr.Some? {
        return Continue, writeErr;
      }
      sent := sent + [DiscoveryRequest(ssrc, remotePort)];
      if reply.Err? {
        return Continue, Some(reply.error);
      }
      match ParseDiscoveryResponse(ResponseBuffer(reply.value)) {
        case None =>
          return Crash("slice bounds out of range"), None;
        case Some((ip, port)) =>
          localIp := BytesToString(ip);
          localPort := port;
          return Continue, None;
      }
    }

    /** `BeginSetup`: dial the remote address, then run IP discovery. */
    method BeginSetup(dialErr: Option<string>, writeErr: Option<string>, reply: Result<seq<Byte>>)
      returns (outcome: Outcome, err: Option<string>)
      modifies this`connected, this`sent, this`localIp, this`localPort
      ensures dialErr.Some? ==> err == dialErr && outcome.Continue? && connected == old(connected)
                                && sent == old(sent) && localIp == old(localIp) && localPort == old(localPort)
      ensures dialErr.None? ==> connected
      ensures dialErr.None? && writeErr.None? ==> sent == old(sent) + [DiscoveryRequest(ssrc, remotePort)]
      ensures outcome.Crash? <==> (dialErr.None? && writeErr.None? && reply.Ok?
                                   && ParseDiscoveryResponse(ResponseBuffer(reply.value)).None?)
      ensures outcome.Continue? && err.None? ==>
                dialErr.None? && writeErr.None? && reply.Ok?
                && var (ip, port) := ParseDiscoveryResponse(ResponseBuffer(reply.value)).value;
                   localIp == BytesToString(ip) && localPort == port
      ensures dialErr.None? && writeErr.Some? ==> err == writeErr && outcome.Continue?
      ensures dialErr.None? && writeErr.None? && reply.Err? ==> err == Some(reply.error) && outcome.Continue?
      ensures dialErr.None? && writeErr.None? && reply.Ok? && ParseDiscoveryResponse(ResponseBuffer(reply.value)).Some? ==>
                outcome.Continue? && err.None?
      ensures outcome.Crash? || err.Some? ==> localIp == old(localIp) && localPort == old(localPort)
    {
      if dialErr.Some? {
        return Continue, dialErr;
      }
      connected := true;
      outcome, err := DiscoverLocalIp(writeErr, reply);
    }
  }
}
