/** Small pieces of the C library and of C's arithmetic that the firmware relies on:
    NUL-terminated strings, bounded copies, truncating division and base-10 parsing
    with `strtol`/`atoi` on a 32-bit `long`. */
module CLib {

  datatype Option<T> = None | Some(value: T)

  const INT_MIN: int := -0x8000_0000
  const INT_MAX: int := 0x7fff_ffff

  function Min(a: int, b: int): int { if a <= b then a else b }

  function Abs(a: int): nat { if a < 0 then -a else a }

  /** The string a C `char *` designates: every character before the first NUL. */
  function CStr(s: string): (r: string)
    ensures |r| <= |s| && r == s[..|r|]
    ensures '\0' !in r
    ensures |r| < |s| ==> s[|r|] == '\0'
  {
    if s == [] || s[0] == '\0' then [] else [s[0]] + CStr(s[1..])
  }

  /** A string with no NUL in it is read whole as a C string. */
  lemma {:induction false} CStrOfPlain(s: string)
    requires '\0' !in s
    ensures CStr(s) == s
  {
    if s != [] {
      assert '\0' !in s[1..] by { assert forall k :: 0 <= k < |s| - 1 ==> s[1..][k] == s[k + 1]; }
      CStrOfPlain(s[1..]);
      assert s == [s[0]] + s[1..];
    }
  }

  /** A C string ends at the first NUL, whatever follows it. */
  lemma {:induction false} CStrStopsAtNul(p: string, rest: string)
    requires '\0' !in p
    ensures CStr(p + ['\0'] + rest) == CStr(p)
  {
    if p != [] {
      assert (p + ['\0'] + rest)[1..] == p[1..] + ['\0'] + rest;
      assert '\0' !in p[1..] by { assert forall k :: 0 <= k < |p| - 1 ==> p[1..][k] == p[k + 1]; }
      CStrStopsAtNul(p[1..], rest);
    }
  }

  /** The first `n` characters of `s` (all of `s` when it is shorter). */
  function Truncate(s: string, n: nat): (r: string)
    ensures |r| == Min(|s|, n)
    ensures r == s[..|r|]
  {
    if |s| <= n then s else s[..n]
  }

  /** What `strncpy(dst, src, size - 1); dst[size - 1] = '\0'` leaves in a `size`-byte
      buffer, and also what `snprintf` into a `size`-byte buffer keeps of its output. */
  function BoundedCopy(src: string, size: nat): (r: string)
    requires size > 0
    ensures |r| < size
    ensures '\0' !in r
    ensures |r| <= |CStr(src)| && r == CStr(src)[..|r|]
    ensures |CStr(src)| < size ==> r == CStr(src)
  {
    Truncate(CStr(src), size - 1)
  }

  /** C's `/` on integers: the quotient truncated toward zero. */
  function CDiv(a: int, b: int): (q: int)
    requires b != 0
    ensures Abs(q) == Abs(a) / Abs(b)
    ensures (a >= 0) == (b > 0) ==> q >= 0
    ensures (a >= 0) != (b > 0) ==> q <= 0
  {
    var x, y := Abs(a), Abs(b);
    DivOfNaturals(x, y);
    var m := x / y;
    if (a >= 0) == (b > 0) then m else -m
  }

  /** Kept apart from `CDiv`: stated there, this fact costs the solver far more. */
  lemma DivOfNaturals(x: nat, y: nat)
    requires y > 0
    ensures x / y >= 0
  {
  }

  /** `isspace` in the C locale. */
  predicate IsSpace(c: char) {
    c == ' ' || c == '\t' || c == '\n' || c as int == 11 || c as int == 12 || c == '\r'
  }

  predicate IsDigit(c: char) { '0' <= c <= '9' }

  function DigitValue(c: char): (d: nat)
    requires IsDigit(c)
    ensures d < 10
  {
    (c as int) - ('0' as int)
  }

  function DigitChar(d: nat): (c: char)
    requires d < 10
    ensures IsDigit(c) && DigitValue(c) == d
  {
    ((d + '0' as int) as char)
  }

  /** The value of a run of decimal digits, most significant first. */
  function DecimalValue(ds: string): nat
    requires forall k :: 0 <= k < |ds| ==> IsDigit(ds[k])
  {
    if ds == [] then 0 else 10 * DecimalValue(ds[..|ds| - 1]) + DigitValue(ds[|ds| - 1])
  }

  /** The first index at or after `i` whose character is not white space. */
  function SkipSpaces(s: string, i: nat): (j: nat)
    requires i <= |s|
    ensures i <= j <= |s|
    ensures forall k :: i <= k < j ==> IsSpace(s[k])
    ensures j < |s| ==> !IsSpace(s[j])
    decreases |s| - i
  {
    if i < |s| && IsSpace(s[i]) then SkipSpaces(s, i + 1) else i
  }

  /** The first index at or after `i` whose character is not a digit. */
  function SkipDigits(s: string, i: nat): (j: nat)
    requires i <= |s|
    ensures i <= j <= |s|
    ensures forall k :: i <= k < j ==> IsDigit(s[k])
    ensures j < |s| ==> !IsDigit(s[j])
    decreases |s| - i
  {
    if i < |s| && IsDigit(s[i]) then SkipDigits(s, i + 1) else i
  }

  /** A value and the index where `strtol` stopped reading (`*endptr`). */
  datatype Parsed = Parsed(value: int, end: nat)

  /** `long` on the target is 32 bits: `strtol` saturates at its bounds. */
  function ClampLong(v: int): (r: int)
    ensures INT_MIN <= r <= INT_MAX
    ensures INT_MIN <= v <= INT_MAX ==> r == v
  {
    if v < INT_MIN then INT_MIN else if v > INT_MAX then INT_MAX else v
  }

  /** `strtol(s, &end, 10)`: optional white space, an optional sign, then digits.
      With no digits nothing is consumed and the value is 0. */
  function Strtol(s: string): (r: Parsed)
    ensures r.end <= |s|
    ensures INT_MIN <= r.value <= INT_MAX
    ensures r.end == 0 ==> r.value == 0
  {
    var i := SkipSpaces(s, 0);
    var neg := i < |s| && s[i] == '-';
    var j := if i < |s| && (s[i] == '-' || s[i] == '+') then i + 1 else i;
    var k := SkipDigits(s, j);
    if k == j then Parsed(0, 0)
    else
      var magnitude: int := DecimalValue(s[j..k]);
      Parsed(ClampLong(if neg then -magnitude else magnitude), k)
  }

  /** `atoi(s)`: the value `strtol` reads, ignoring where it stopped. */
  function Atoi(s: string): int {
    Strtol(CStr(s)).value
  }

  /** The digits `%d` prints for a non-negative number. */
  function NatToDecimal(n: nat): (r: string)
    ensures |r| >= 1
    ensures forall k :: 0 <= k < |r| ==> IsDigit(r[k])
  {
    if n < 10 then [DigitChar(n)] else NatToDecimal(n / 10) + [DigitChar(n % 10)]
  }

  /** What `snprintf(buf, size, "%d", n)` prints before truncation. */
  function IntToDecimal(n: int): (r: string)
    ensures |r| >= 1
  {
    if n < 0 then "-" + NatToDecimal(-n) else NatToDecimal(n)
  }

  lemma {:induction false} DecimalRoundTrip(n: nat)
    ensures DecimalValue(NatToDecimal(n)) == n
  {
    var r := NatToDecimal(n);
    if n >= 10 {
      DecimalRoundTrip(n / 10);
      assert r[..|r| - 1] == NatToDecimal(n / 10);
    }
  }

  /** Whatever `%d` prints for a 32-bit int, `strtol` reads back entirely, with the same value. */
  lemma StrtolReadsDecimal(n: int)
    requires INT_MIN <= n <= INT_MAX
    ensures Strtol(IntToDecimal(n)) == Parsed(n, |IntToDecimal(n)|)
  {
    var s := IntToDecimal(n);
    var ds := NatToDecimal(Abs(n));
    var j := if n < 0 then 1 else 0;
    assert s[j..] == ds;
    assert !IsSpace(s[0]);
    assert SkipSpaces(s, 0) == 0;
    SkipDigitsToEnd(s, j);
    assert SkipDigits(s, j) == |s| > j;
    DecimalRoundTrip(Abs(n));
    assert s[j..|s|] == ds;
  }

  lemma SkipDigitsToEnd(s: string, j: nat)
    requires j <= |s|
    requires forall k :: j <= k < |s| ==> IsDigit(s[k])
    ensures SkipDigits(s, j) == |s|
  {
  }

  /** When `strtol` consumes a whole non-empty token, the token is white space, an
      optional sign and at least one digit, and nothing else. */
  lemma StrtolWholeToken(s: string) returns (i: nat, j: nat)
    requires s != [] && Strtol(s).end == |s|
    ensures i <= j < |s|
    ensures forall k :: 0 <= k < i ==> IsSpace(s[k])
    ensures j == i || (j == i + 1 && (s[i] == '-' || s[i] == '+'))
    ensures forall k :: j <= k < |s| ==> IsDigit(s[k])
  {
    i := SkipSpaces(s, 0);
    j := if i < |s| && (s[i] == '-' || s[i] == '+') then i + 1 else i;
  }

  /** The `n` slots of a ring buffer `s` that start at `start` and wrap around its end. */
  function Window<T>(s: seq<T>, start: nat, n: nat): (w: seq<T>)
    requires start < |s| && n <= |s|
    ensures |w| == n
  {
    if start + n <= |s| then s[start..start + n] else s[start..] + s[..start + n - |s|]
  }

  lemma WindowAt<T>(s: seq<T>, start: nat, n: nat, k: nat)
    requires start < |s| && n <= |s| && k < n
    ensures Window(s, start, n)[k] == s[if start + k < |s| then start + k else start + k - |s|]
  {
  }

  /** The ring position `i` slots after `start`, for `i` below `2 * n`. */
  function Wrap(i: nat, n: nat): nat {
    if i < n then i else i - n
  }

  /** Writing `x` just past the end of a window extends that window by `x`. */
  lemma WindowPush<T>(s: seq<T>, start: nat, n: nat, x: T)
    requires start < |s| && n < |s|
    ensures Window(s[Wrap(start + n, |s|) := x], start, n + 1) == Window(s, start, n) + [x]
  {
    var s' := s[Wrap(start + n, |s|) := x];
    forall k | 0 <= k < n + 1
      ensures Window(s', start, n + 1)[k] == (Window(s, start, n) + [x])[k]
    {
      WindowAt(s', start, n + 1, k);
      if k < n {
        WindowAt(s, start, n, k);
      }
    }
  }

  /** Moving the start of a window one slot on drops its first element. */
  lemma WindowPop<T>(s: seq<T>, start: nat, n: nat)
    requires start < |s| && 0 < n <= |s|
    ensures Window(s, start, n)[0] == s[start]
    ensures Window(s, Wrap(start + 1, |s|), n - 1) == Window(s, start, n)[1..]
  {
    WindowAt(s, start, n, 0);
    forall k | 0 <= k < n - 1
      ensures Window(s, Wrap(start + 1, |s|), n - 1)[k] == Window(s, start, n)[1..][k]
    {
      WindowAt(s, Wrap(start + 1, |s|), n - 1, k);
      WindowAt(s, start, n, k + 1);
    }
  }
}
