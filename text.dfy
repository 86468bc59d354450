/** The pieces of Go's `strings` and `strconv` packages that the bot uses: splitting on a
    one-character separator, joining, searching, ASCII lower-casing, `Itoa`, `Atoi`
    and `TrimSpace`. Strings are sequences of characters. */
module Text {

  import opened Bits

  // ---------------------------------------------------------------------------
  // strings.Split / strings.Join with a one-character separator

  /** `strings.Split(s, string(sep))`: the pieces between separators, so one more piece
      than there are separators; the empty string gives one empty piece. */
  function Split(s: string, sep: char): (r: seq<string>)
    ensures |r| >= 1
    ensures forall i :: 0 <= i < |r| ==> sep !in r[i]
    decreases |s|
  {
    if |s| == 0 then [""]
    else
      var rest := Split(s[1..], sep);
      if s[0] == sep then [""] + rest
      else [[s[0]] + rest[0]] + rest[1..]
  }

  /** `strings.Join(parts, string(sep))`. */
  function Join(parts: seq<string>, sep: char): string
  {
    if |parts| == 0 then ""
    else if |parts| == 1 then parts[0]
    else parts[0] + [sep] + Join(parts[1..], sep)
  }

  /** Joining the pieces of a split gives back the original string. */
  lemma {:induction false} JoinSplit(s: string, sep: char)
    ensures Join(Split(s, sep), sep) == s
  {
    if |s| > 0 {
      var rest := Split(s[1..], sep);
      JoinSplit(s[1..], sep);
      if s[0] == sep {
        JoinAfterEmpty(rest, sep);
      } else {
        JoinExtendFirst(s[0], rest, sep);
      }
      assert s == [s[0]] + s[1..];
    }
  }

  /** An empty first piece contributes only its separator. */
  lemma JoinAfterEmpty(rest: seq<string>, sep: char)
    requires |rest| >= 1
    ensures Join([""] + rest, sep) == [sep] + Join(rest, sep)
  {
    assert ([""] + rest)[1..] == rest;
  }

  /** Putting a character in front of the first piece puts it in front of the join. */
  lemma JoinExtendFirst(c: char, rest: seq<string>, sep: char)
    requires |rest| >= 1
    ensures Join([[c] + rest[0]] + rest[1..], sep) == [c] + Join(rest, sep)
  {
    var parts := [[c] + rest[0]] + rest[1..];
    if |rest| > 1 {
      assert parts[1..] == rest[1..];
    }
  }

  /** A string without the separator splits into itself. */
  lemma {:induction false} SplitNoSeparator(a: string, sep: char)
    requires sep !in a
    ensures Split(a, sep) == [a]
  {
    if |a| > 0 {
      SplitNoSeparator(a[1..], sep);
      assert [a[0]] + a[1..] == a;
    }
  }

  /** Splitting `a + sep + b`, where `a` has no separator, yields `a` then the split of `b`. */
  lemma {:induction false} SplitAtFirst(a: string, sep: char, b: string)
    requires sep !in a
    ensures Split(a + [sep] + b, sep) == [a] + Split(b, sep)
  {
    var s := a + [sep] + b;
    if |a| == 0 {
      assert s[1..] == b;
    } else {
      assert s[1..] == a[1..] + [sep] + b;
      SplitAtFirst(a[1..], sep, b);
      assert [a[0]] + a[1..] == a;
    }
  }

  /** Splitting a join of separator-free pieces gives back the pieces. */
  lemma {:induction false} SplitJoin(parts: seq<string>, sep: char)
    requires |parts| >= 1
    requires forall i :: 0 <= i < |parts| ==> sep !in parts[i]
    ensures Split(Join(parts, sep), sep) == parts
  {
    if |parts| == 1 {
      SplitNoSeparator(parts[0], sep);
    } else {
      SplitJoin(parts[1..], sep);
      SplitAtFirst(parts[0], sep, Join(parts[1..], sep));
      assert [parts[0]] + parts[1..] == parts;
    }
  }

  // ---------------------------------------------------------------------------
  // strings.Index / strings.HasPrefix

  predicate OccursAt(s: string, t: string, k: int)
  {
    0 <= k && k + |t| <= |s| && s[k..k + |t|] == t
  }

  /** `strings.Index(s, t)`: the first position where `t` occurs in `s`, or -1. */
  function Index(s: string, t: string): (r: int)
    ensures r == -1 || OccursAt(s, t, r)
    ensures r == -1 ==> forall k :: !OccursAt(s, t, k)
    ensures r >= 0 ==> forall k :: 0 <= k < r ==> !OccursAt(s, t, k)
    decreases |s|
  {
    if |t| > |s| then -1
    else if s[..|t|] == t then 0
    else
      var k := Index(s[1..], t);
      IndexStep(s, t, k);
      if k < 0 then -1 else k + 1
  }

  /** The search step of `Index`: with no match at 0, the first match in `s` is one past
      the first match in `s[1..]`. */
  lemma IndexStep(s: string, t: string, k: int)
    requires |s| > 0 && !OccursAt(s, t, 0)
    requires k == -1 || OccursAt(s[1..], t, k)
    requires k == -1 ==> forall j :: !OccursAt(s[1..], t, j)
    requires k >= 0 ==> forall j :: 0 <= j < k ==> !OccursAt(s[1..], t, j)
    ensures k == -1 ==> forall j :: !OccursAt(s, t, j)
    ensures k >= 0 ==> OccursAt(s, t, k + 1) && forall j :: 0 <= j < k + 1 ==> !OccursAt(s, t, j)
  {
    forall j | 1 <= j && OccursAt(s, t, j)
      ensures OccursAt(s[1..], t, j - 1)
    {
      assert s[1..][j - 1..j - 1 + |t|] == s[j..j + |t|];
    }
    if k >= 0 {
      assert s[1..][k..k + |t|] == s[k + 1..k + 1 + |t|];
    }
  }

  /** The first occurrence is where `Index` points. */
  lemma IndexAt(s: string, t: string, k: int)
    requires OccursAt(s, t, k) && forall j :: 0 <= j < k ==> !OccursAt(s, t, j)
    ensures Index(s, t) == k
  {
  }

  /** `strings.HasPrefix(s, p)`. */
  predicate HasPrefix(s: string, p: string)
  {
    |p| <= |s| && s[..|p|] == p
  }

  // ---------------------------------------------------------------------------
  // strings.ToLower, restricted to ASCII letters

  function LowerChar(c: char): char
  {
    if 'A' <= c <= 'Z' then (c as int + 32) as char else c
  }

  /** `strings.ToLower(s)` on ASCII letters; every other character is kept. */
  function ToLower(s: string): (r: string)
    ensures |r| == |s|
    ensures forall i :: 0 <= i < |s| ==> r[i] == LowerChar(s[i])
  {
    seq(|s|, i requires 0 <= i < |s| => LowerChar(s[i]))
  }

  /** Lower-casing twice is lower-casing once, so a registry keyed by `ToLower` names
      looks a lower-cased name up under itself. */
  lemma ToLowerIdempotent(s: string)
    ensures ToLower(ToLower(s)) == ToLower(s)
  {
  }

  // ---------------------------------------------------------------------------
  // strconv.Itoa / strconv.Atoi (64-bit int)

  predicate IsDigit(c: char)
  {
    '0' <= c <= '9'
  }

  function DigitValue(c: char): (d: nat)
    requires IsDigit(c)
    ensures d < 10
  {
    c as int - '0' as int
  }

  function DigitChar(d: int): char
    requires 0 <= d < 10
  {
    ('0' as int + d) as char
  }

  /** The decimal digits of `n`, most significant first, without leading zeros. */
  function NatToString(n: nat): (r: string)
    ensures |r| >= 1
    ensures forall i :: 0 <= i < |r| ==> IsDigit(r[i])
    decreases n
  {
    if n < 10 then [DigitChar(n)] else NatToString(n / 10) + [DigitChar(n % 10)]
  }

  /** `strconv.Itoa(n)`. */
  function Itoa(n: int): string
  {
    if n < 0 then "-" + NatToString(-n) else NatToString(n)
  }

  /** Left-to-right decimal accumulation: `n` followed by the digits of `s`. */
  function Accumulate(n: nat, s: string): nat
    requires forall i :: 0 <= i < |s| ==> IsDigit(s[i])
    decreases |s|
  {
    if |s| == 0 then n else Accumulate(n * 10 + DigitValue(s[0]), s[1..])
  }

  const UINT64_MAX: nat := 0xFFFF_FFFF_FFFF_FFFF

  datatype UintScan = Value(n: nat) | SyntaxError | RangeError

  /** The digit loop of `strconv.ParseUint(s, 10, 64)`, from accumulator `n`: a non-digit is
      a syntax error, and the loop stops with a range error as soon as the accumulated
      value passes the uint64 maximum, before looking at the characters after it. */
  function ScanUint(s: string, n: nat): UintScan
  {
    if |s| == 0 then Value(n)
    else if !IsDigit(s[0]) then SyntaxError
    else
      var n' := n * 10 + DigitValue(s[0]);
      if n' > UINT64_MAX then RangeError else ScanUint(s[1..], n')
  }

  /** `strconv.Atoi(s)` on a 64-bit platform, as the pair (value, err == nil): an optional
      sign, then decimal digits; a syntax error gives 0, an out-of-range value gives the
      nearest int64 bound. */
  function Atoi(s: string): (int, bool)
  {
    if |s| == 0 then (0, false)
    else
      var neg := s[0] == '-';
      var digits := Unsigned(s);
      var scan := if |digits| == 0 then SyntaxError else ScanUint(digits, 0);
      if scan.SyntaxError? then (0, false)
      else
        var un := if scan.RangeError? then UINT64_MAX else scan.n;
        if !neg && un > INT64_MAX then (INT64_MAX, false)
        else if neg && un > -INT64_MIN then (INT64_MIN, false)
        else (if neg then -un else un, scan.Value?)
  }

  lemma {:induction false} AccumulateAtLeast(n: nat, s: string)
    requires forall i :: 0 <= i < |s| ==> IsDigit(s[i])
    ensures Accumulate(n, s) >= n
    decreases |s|
  {
    if |s| > 0 {
      AccumulateAtLeast(n * 10 + DigitValue(s[0]), s[1..]);
    }
  }

  lemma {:induction false} AccumulateSnoc(n: nat, s: string, c: char)
    requires forall i :: 0 <= i < |s| ==> IsDigit(s[i])
    requires IsDigit(c)
    ensures Accumulate(n, s + [c]) == Accumulate(n, s) * 10 + (DigitValue(c))
    decreases |s|
  {
    if |s| > 0 {
      assert (s + [c])[1..] == s[1..] + [c];
      AccumulateSnoc(n * 10 + DigitValue(s[0]), s[1..], c);
    }
  }

  /** On an all-digit string the scan reports a range error exactly when the value
      exceeds the uint64 maximum. */
  lemma {:induction false} ScanDigits(s: string, n: nat)
    requires forall i :: 0 <= i < |s| ==> IsDigit(s[i])
    requires n <= UINT64_MAX
    ensures ScanUint(s, n) == if Accumulate(n, s) > UINT64_MAX then RangeError else Value(Accumulate(n, s))
  {
    if |s| > 0 {
      var n' := n * 10 + DigitValue(s[0]);
      assert Accumulate(n, s) == Accumulate(n', s[1..]);
      AccumulateAtLeast(n', s[1..]);
      if n' <= UINT64_MAX {
        ScanDigits(s[1..], n');
      }
    }
  }

  lemma {:induction false} NatToStringValue(n: nat)
    ensures Accumulate(0, NatToString(n)) == n
  {
    if n < 10 {
      assert NatToString(n)[1..] == [];
    } else {
      NatToStringValue(n / 10);
      AccumulateSnoc(0, NatToString(n / 10), DigitChar(n % 10));
    }
  }

  /** `strconv.Atoi(strconv.Itoa(n)) == n` with no error, for every int64 `n`. */
  lemma AtoiItoa(n: int)
    requires INT64_MIN <= n <= INT64_MAX
    ensures Atoi(Itoa(n)) == (n, true)
  {
    var m: nat := if n < 0 then -n else n;
    NatToStringValue(m);
    ScanDigits(NatToString(m), 0);
    if n < 0 {
      assert Itoa(n)[1..] == NatToString(m);
    }
  }

  /** The part of `s` after an optional leading sign. */
  function Unsigned(s: string): string
  {
    if |s| > 0 && (s[0] == '+' || s[0] == '-') then s[1..] else s
  }

  /** An optionally signed, non-empty run of decimal digits. */
  predicate IsInteger(s: string)
  {
    |Unsigned(s)| > 0 && forall i :: 0 <= i < |Unsigned(s)| ==> IsDigit(Unsigned(s)[i])
  }

  function Pow10(k: nat): nat
  {
    if k == 0 then 1 else 10 * Pow10(k - 1)
  }

  lemma {:induction false} AccumulateBound(n: nat, s: string)
    requires forall i :: 0 <= i < |s| ==> IsDigit(s[i])
    ensures Accumulate(n, s) < (n + 1) * Pow10(|s|)
    decreases |s|
  {
    if |s| > 0 {
      var d := DigitValue(s[0]);
      var p := Pow10(|s| - 1);
      assert Accumulate(n, s) == Accumulate(n * 10 + d, s[1..]);
      AccumulateBound(n * 10 + d, s[1..]);
      ScaleStep(n, d, p);
      assert Pow10(|s|) == 10 * p;
    }
  }

  /** One more digit multiplies the bound by ten. */
  lemma ScaleStep(n: nat, d: nat, p: nat)
    requires d <= 9
    ensures (n * 10 + d + 1) * p <= (n + 1) * (10 * p)
  {
    calc {
      (n * 10 + d + 1) * p;
      == n * 10 * p + (d + 1) * p;
      <= { assert (d + 1) * p <= 10 * p; } n * 10 * p + 10 * p;
      == (n + 1) * (10 * p);
    }
  }

  /** The index of the first non-digit of `s`, or |s| when there is none. */
  function FirstNonDigit(s: string): (j: nat)
    ensures j <= |s|
    ensures forall i :: 0 <= i < j ==> IsDigit(s[i])
    ensures j < |s| ==> !IsDigit(s[j])
  {
    if |s| == 0 || !IsDigit(s[0]) then 0 else 1 + FirstNonDigit(s[1..])
  }

  /** The scan of a string whose first non-digit comes before the value overflows ends in
      a syntax error. */
  lemma {:induction false} ScanStopsAtNonDigit(s: string, n: nat, j: nat)
    requires j < |s| && !IsDigit(s[j])
    requires forall i :: 0 <= i < j ==> IsDigit(s[i])
    requires n <= UINT64_MAX
    requires Accumulate(n, s[..j]) <= UINT64_MAX
    ensures ScanUint(s, n) == SyntaxError
    decreases j
  {
    if j > 0 {
      var n' := n * 10 + DigitValue(s[0]);
      assert s[..j][1..] == s[1..][..j - 1];
      assert Accumulate(n, s[..j]) == Accumulate(n', s[1..][..j - 1]);
      AccumulateAtLeast(n', s[1..][..j - 1]);
      ScanStopsAtNonDigit(s[1..], n', j - 1);
    }
  }

  /** A short token (at most 20 characters, so its digits cannot overflow before a
      non-digit is met) that is not an optionally signed run of digits reads as 0 with an
      error. */
  lemma AtoiNonInteger(s: string)
    requires |s| <= 20
    requires !IsInteger(s)
    ensures Atoi(s) == (0, false)
  {
    var d := Unsigned(s);
    if |s| > 0 && |d| > 0 {
      var j := FirstNonDigit(d);
      assert j < |d|;
      assert j <= 19 by {
        if s[0] == '+' || s[0] == '-' { assert |d| == |s| - 1; }
      }
      FewDigitsFit(d[..j]);
      ScanStopsAtNonDigit(d, 0, j);
    }
  }

  /** Nineteen digits or fewer stay below the uint64 maximum. */
  lemma FewDigitsFit(t: string)
    requires |t| <= 19 && forall i :: 0 <= i < |t| ==> IsDigit(t[i])
    ensures Accumulate(0, t) <= UINT64_MAX
  {
    AccumulateBound(0, t);
    Pow10Monotone(|t|, 19);
    Pow10Of19();
  }

  lemma Pow10Of19()
    ensures Pow10(19) == 10_000_000_000_000_000_000
  {
    assert Pow10(1) == 10;
    assert Pow10(2) == 100;
    assert Pow10(3) == 1000;
    assert Pow10(4) == 10_000;
    assert Pow10(5) == 100_000;
    assert Pow10(6) == 1_000_000;
    assert Pow10(7) == 10_000_000;
    assert Pow10(8) == 100_000_000;
    assert Pow10(9) == 1_000_000_000;
    assert Pow10(10) == 10_000_000_000;
    assert Pow10(11) == 100_000_000_000;
    assert Pow10(12) == 1_000_000_000_000;
    assert Pow10(13) == 10_000_000_000_000;
    assert Pow10(14) == 100_000_000_000_000;
    assert Pow10(15) == 1_000_000_000_000_000;
    assert Pow10(16) == 10_000_000_000_000_000;
    assert Pow10(17) == 100_000_000_000_000_000;
    assert Pow10(18) == 1_000_000_000_000_000_000;
  }

  lemma {:induction false} Pow10Monotone(i: nat, j: nat)
    requires i <= j
    ensures Pow10(i) <= Pow10(j)
    decreases j
  {
    if i < j {
      Pow10Monotone(i, j - 1);
    }
  }

  // ---------------------------------------------------------------------------
  // strings.TrimSpace

  /** `unicode.IsSpace`. */
  predicate IsSpace(c: char)
  {
    c == '\t' || c == '\n' || c == '\U{B}' || c == '\U{C}' || c == '\r' || c == ' '
    || c == '\U{85}' || c == '\U{A0}' || c == '\U{1680}'
    || ('\U{2000}' <= c <= '\U{200A}')
    || c == '\U{2028}' || c == '\U{2029}' || c == '\U{202F}' || c == '\U{205F}' || c == '\U{3000}'
  }

  /** The first position from `i` on that does not hold white space. */
  function SpanStart(s: string, i: nat): (k: nat)
    requires i <= |s|
    ensures i <= k <= |s|
    ensures forall m :: i <= m < k ==> IsSpace(s[m])
    ensures k < |s| ==> !IsSpace(s[k])
    decreases |s| - i
  {
    if i < |s| && IsSpace(s[i]) then SpanStart(s, i + 1) else i
  }

  /** The end of `s[start..j]` once its trailing white space is dropped. */
  function SpanEnd(s: string, start: nat, j: nat): (k: nat)
    requires start <= j <= |s|
    ensures start <= k <= j
    ensures forall m :: k <= m < j ==> IsSpace(s[m])
    ensures k > start ==> !IsSpace(s[k - 1])
    decreases j - start
  {
    if j > start && IsSpace(s[j - 1]) then SpanEnd(s, start, j - 1) else j
  }

  /** `r` is `s[i..j]`, and everything of `s` before `i` and from `j` on is white space. */
  predicate TrimmedSlice(s: string, r: string, i: int, j: int)
  {
    0 <= i <= j <= |s| && r == s[i..j]
    && (forall k :: 0 <= k < i ==> IsSpace(s[k]))
    && (forall k :: j <= k < |s| ==> IsSpace(s[k]))
  }

  /** `strings.TrimSpace(s)`: the slice of `s` left after dropping leading and trailing
      white space; it starts and ends with a non-space character or is empty. */
  function TrimSpace(s: string): (r: string)
    ensures exists i, j :: TrimmedSlice(s, r, i, j)
    ensures |r| > 0 ==> !IsSpace(r[0]) && !IsSpace(r[|r| - 1])
  {
    var i := SpanStart(s, 0);
    var j := SpanEnd(s, i, |s|);
    assert TrimmedSlice(s, s[i..j], i, j);
    s[i..j]
  }

  /** `Atoi`'s value always fits in an int64. */
  lemma AtoiBounds(s: string)
    ensures INT64_MIN <= Atoi(s).0 <= INT64_MAX
  {
    if |s| > 0 {
      var digits := Unsigned(s);
      if |digits| > 0 {
        var scan := ScanUint(digits, 0);
        if scan.Value? {
          ScanBound(digits, 0);
        }
      }
    }
  }

  /** A successful scan never exceeds the uint64 maximum. */
  lemma {:induction false} ScanBound(s: string, n: nat)
    requires n <= UINT64_MAX
    requires ScanUint(s, n).Value?
    ensures ScanUint(s, n).n <= UINT64_MAX
    decreases |s|
  {
    if |s| > 0 {
      ScanBound(s[1..], n * 10 + DigitValue(s[0]));
    }
  }

  /** A scan that ends with a value has read only digits. */
  lemma {:induction false} ScanValueDigits(s: string, n: nat)
    requires ScanUint(s, n).Value?
    ensures forall i :: 0 <= i < |s| ==> IsDigit(s[i])
    decreases |s|
  {
    if |s| > 0 {
      ScanValueDigits(s[1..], n * 10 + DigitValue(s[0]));
      assert forall i :: 1 <= i < |s| ==> s[i] == s[1..][i - 1];
    }
  }

  /** `Atoi` reports success only for an optionally signed, non-empty run of digits. */
  lemma AtoiOkIsInteger(s: string)
    requires Atoi(s).1
    ensures IsInteger(s)
  {
    ScanValueDigits(Unsigned(s), 0);
  }
}
