/** Bytes, big-endian words and Go's fixed-width integer conversions. */
module Bits {

  type Byte = b: int | 0 <= b < 0x100
  type U16 = n: int | 0 <= n < 0x1_0000
  type U32 = n: int | 0 <= n < 0x1_0000_0000

  const INT64_MIN: int := -0x8000_0000_0000_0000
  const INT64_MAX: int := 0x7FFF_FFFF_FFFF_FFFF

  /** Go's `uint16(n)`: keeps the low 16 bits of a two's-complement integer. */
  function ToU16(n: int): (r: U16)
    ensures 0 <= n < 0x1_0000 ==> r == n
    ensures (r - n) % 0x1_0000 == 0
  {
    n % 0x1_0000
  }

  /** Go's `uint32(n)` for a non-negative `uint64` source. */
  function ToU32(n: nat): (r: U32)
    ensures n < 0x1_0000_0000 ==> r == n
    ensures (n - r) % 0x1_0000_0000 == 0
  {
    n % 0x1_0000_0000
  }

  /** Go's int64 arithmetic: the two's-complement wrap of an exact result. */
  function Wrap64(n: int): (r: int)
    ensures INT64_MIN <= r <= INT64_MAX
    ensures INT64_MIN <= n <= INT64_MAX ==> r == n
  {
    (n - INT64_MIN) % 0x1_0000_0000_0000_0000 + INT64_MIN
  }

  /** `time.Millisecond * time.Duration(n)`: a duration in nanoseconds, with int64 wrap-around. */
  function Milliseconds(n: int): (r: int)
    ensures INT64_MIN <= r <= INT64_MAX
    ensures INT64_MIN <= n * 1_000_000 <= INT64_MAX ==> r == n * 1_000_000
  {
    Wrap64(n * 1_000_000)
  }

  /** `binary.Write(buf, binary.BigEndian, uint16(n))`. */
  function U16BE(n: U16): (r: seq<Byte>)
    ensures |r| == 2
  {
    [n / 0x100, n % 0x100]
  }

  /** `binary.Write(buf, binary.BigEndian, uint32(n))`. */
  function U32BE(n: U32): (r: seq<Byte>)
    ensures |r| == 4
  {
    [n / 0x100_0000, n / 0x1_0000 % 0x100, n / 0x100 % 0x100, n % 0x100]
  }

  /** `binary.Read(buf, binary.BigEndian, &u16)` at byte offset `off`. */
  function ReadU16BE(b: seq<Byte>, off: nat): U16
    requires off + 2 <= |b|
  {
    (b[off] as int) * 0x100 + b[off + 1]
  }

  /** `binary.Read(buf, binary.BigEndian, &u32)` at byte offset `off`. */
  function ReadU32BE(b: seq<Byte>, off: nat): U32
    requires off + 4 <= |b|
  {
    (((b[off] as int) * 0x100 + b[off + 1]) * 0x100 + b[off + 2]) * 0x100 + b[off + 3]
  }

  /** `make([]byte, n)`. */
  function Zeros(n: nat): (r: seq<Byte>)
    ensures |r| == n
    ensures forall i :: 0 <= i < n ==> r[i] == 0
  {
    seq(n, _ => 0)
  }

  /** Go's `copy(dst[:n], src)` into a zeroed n-byte array: the first min(n, |src|) bytes
      of src, then zeros. */
  function CopyInto(src: seq<Byte>, n: nat): (r: seq<Byte>)
    ensures |r| == n
    ensures forall i :: 0 <= i < n && i < |src| ==> r[i] == src[i]
    ensures forall i :: |src| <= i < n ==> r[i] == 0
  {
    if |src| >= n then src[..n] else src + Zeros(n - |src|)
  }

  lemma U16RoundTrip(n: U16)
    ensures ReadU16BE(U16BE(n), 0) == n
  {
  }

  lemma U32RoundTrip(n: U32)
    ensures ReadU32BE(U32BE(n), 0) == n
  {
    var b := U32BE(n);
    var q := n / 0x100;
    var q2 := q / 0x100;
    assert (b[0] as int) * 0x100 + b[1] == q2 by {
      assert n / 0x100_0000 == q2 / 0x100;
      assert n / 0x1_0000 % 0x100 == q2 % 0x100;
    }
    assert q2 * 0x100 + b[2] == q;
    assert q * 0x100 + b[3] == n;
  }

  /** Reading back a written word at any offset inside a larger buffer. */
  lemma ReadU16At(prefix: seq<Byte>, n: U16, suffix: seq<Byte>)
    ensures ReadU16BE(prefix + U16BE(n) + suffix, |prefix|) == n
  {
    var b := prefix + U16BE(n) + suffix;
    assert b[|prefix|] == U16BE(n)[0] && b[|prefix| + 1] == U16BE(n)[1];
    U16RoundTrip(n);
  }

  lemma ReadU32At(prefix: seq<Byte>, n: U32, suffix: seq<Byte>)
    ensures ReadU32BE(prefix + U32BE(n) + suffix, |prefix|) == n
  {
    var b := prefix + U32BE(n) + suffix;
    var w := U32BE(n);
    assert b[|prefix|] == w[0] && b[|prefix| + 1] == w[1];
    assert b[|prefix| + 2] == w[2] && b[|prefix| + 3] == w[3];
    U32RoundTrip(n);
  }
}
