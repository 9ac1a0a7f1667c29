/** The few pieces of Python's `str` that the core relies on: ASCII case folding
    (`str.lower`), `startswith`/`endswith`, `split(sep)[0]`, `int(str)` and
    `str(int)` in base 10, and `str.encode("utf-8")`. */
module Text {
  import opened Wrappers

  // ---------------------------------------------------------------------------
  // Case folding (ASCII letters only)

  predicate IsUpper(c: char) { 'A' <= c <= 'Z' }

  function LowerChar(c: char): (d: char)
    ensures !IsUpper(d)
    ensures !IsUpper(c) ==> d == c
  {
    if IsUpper(c) then (c as int - 'A' as int + 'a' as int) as char else c
  }

  /** `s.lower()`: every upper-case letter replaced by its lower-case form. */
  function Lower(s: string): (r: string)
    ensures |r| == |s|
    ensures forall i :: 0 <= i < |s| ==> r[i] == LowerChar(s[i])
  {
    if s == [] then [] else [LowerChar(s[0])] + Lower(s[1..])
  }

  predicate IsLowerCase(s: string)
  {
    forall i :: 0 <= i < |s| ==> !IsUpper(s[i])
  }

  lemma LowerIsLowerCase(s: string)
    ensures IsLowerCase(Lower(s))
  {
  }

  /** Lower-casing text that has no upper-case letter leaves it as it is. */
  lemma LowerOfLowerCase(s: string)
    requires IsLowerCase(s)
    ensures Lower(s) == s
  {
  }

  lemma LowerIdempotent(s: string)
    ensures Lower(Lower(s)) == Lower(s)
  {
    LowerIsLowerCase(s);
    LowerOfLowerCase(Lower(s));
  }

  lemma {:induction false} LowerAppend(a: string, b: string)
    ensures Lower(a + b) == Lower(a) + Lower(b)
  {
    if a == [] {
      assert a + b == b;
    } else {
      assert (a + b)[1..] == a[1..] + b;
      LowerAppend(a[1..], b);
      assert Lower(a + b) == [LowerChar(a[0])] + (Lower(a[1..]) + Lower(b));
    }
  }

  // ---------------------------------------------------------------------------
  // Prefixes, suffixes, splitting

  predicate StartsWith(s: string, prefix: string)
  {
    |prefix| <= |s| && s[..|prefix|] == prefix
  }

  predicate EndsWith(s: string, suffix: string)
  {
    |suffix| <= |s| && s[|s| - |suffix|..] == suffix
  }

  /** `s.split(sep)[0]`: the part of `s` before the first `sep`, or all of `s`. */
  function BeforeFirst(s: string, sep: char): (r: string)
    ensures StartsWith(s, r)
    ensures sep !in r
    ensures |r| < |s| ==> s[|r|] == sep
  {
    if s == [] then []
    else if s[0] == sep then []
    else [s[0]] + BeforeFirst(s[1..], sep)
  }

  /** The text before the first separator of `m + [sep] + rest` is `m` when
      `m` holds no separator. */
  lemma {:induction false} BeforeFirstOfJoin(m: string, sep: char, rest: string)
    requires sep !in m
    ensures BeforeFirst(m + [sep] + rest, sep) == m
  {
    if m != [] {
      assert (m + [sep] + rest)[1..] == m[1..] + [sep] + rest;
      BeforeFirstOfJoin(m[1..], sep, rest);
    }
  }

  // ---------------------------------------------------------------------------
  // Base-10 integers: `str(n)` and `int(s)`

  predicate IsDigit(c: char) { '0' <= c <= '9' }

  /** Python's `str.strip()` whitespace, restricted to the ASCII range. */
  predicate IsSpace(c: char) { c == ' ' || 9 <= c as int <= 13 || 28 <= c as int <= 31 }

  function DigitChar(d: nat): (c: char)
    requires d < 10
    ensures IsDigit(c)
  {
    ('0' as int + d) as char
  }

  function DigitValue(c: char): (d: nat)
    requires IsDigit(c)
    ensures d < 10 && DigitChar(d) == c
  {
    c as int - '0' as int
  }

  predicate AllDigits(s: string) { forall i :: 0 <= i < |s| ==> IsDigit(s[i]) }

  /** The value of a string of decimal digits, most significant first. */
  function DigitsValue(s: string): nat
    requires AllDigits(s)
  {
    if s == [] then 0 else DigitsValue(s[..|s| - 1]) * 10 + DigitValue(s[|s| - 1])
  }

  /** `str(n)` for a natural number: no sign, no leading zero. */
  function FormatNat(n: nat): (r: string)
    ensures r != [] && AllDigits(r)
    ensures |r| > 1 ==> r[0] != '0'
    decreases n
  {
    if n < 10 then [DigitChar(n)] else FormatNat(n / 10) + [DigitChar(n % 10)]
  }

  /** `str(i)` for an integer. */
  function FormatInt(i: int): string
  {
    if i < 0 then "-" + FormatNat(-i) else FormatNat(i)
  }

  lemma {:induction false} DigitsValueOfFormatNat(n: nat)
    ensures DigitsValue(FormatNat(n)) == n
    decreases n
  {
    var s := FormatNat(n);
    if n >= 10 {
      DigitsValueOfFormatNat(n / 10);
      assert s[..|s| - 1] == FormatNat(n / 10);
    }
  }

  function TrimLeft(s: string): (r: string)
    ensures |r| <= |s| && r == s[|s| - |r|..]
    ensures r != [] ==> !IsSpace(r[0])
  {
    if s != [] && IsSpace(s[0]) then TrimLeft(s[1..]) else s
  }

  function TrimRight(s: string): (r: string)
    ensures |r| <= |s| && r == s[..|r|]
    ensures r != [] ==> !IsSpace(r[|r| - 1])
  {
    if s != [] && IsSpace(s[|s| - 1]) then TrimRight(s[..|s| - 1]) else s
  }

  /** `s.strip()`. */
  function Strip(s: string): string
  {
    TrimRight(TrimLeft(s))
  }

  /** Digits with single underscores between them, as `int()` accepts ("1_000"). */
  predicate WellGroupedDigits(s: string)
  {
    && s != []
    && IsDigit(s[0]) && IsDigit(s[|s| - 1])
    && (forall i :: 0 <= i < |s| ==> IsDigit(s[i]) || s[i] == '_')
    && (forall i :: 0 <= i < |s| - 1 && s[i] == '_' ==> s[i + 1] != '_')
  }

  function DropUnderscores(s: string): (r: string)
    requires forall i :: 0 <= i < |s| ==> IsDigit(s[i]) || s[i] == '_'
    ensures AllDigits(r)
    ensures AllDigits(s) ==> r == s
  {
    if s == [] then []
    else if s[0] == '_' then DropUnderscores(s[1..])
    else [s[0]] + DropUnderscores(s[1..])
  }

  /** `int(s)` in base 10: surrounding whitespace, an optional sign, then
      underscore-grouped digits; anything else is a ValueError (None here). */
  function ParseInt(s: string): Option<int>
  {
    var t := Strip(s);
    var negative := t != [] && t[0] == '-';
    var body := if t != [] && (t[0] == '-' || t[0] == '+') then t[1..] else t;
    if WellGroupedDigits(body) then
      var v: int := DigitsValue(DropUnderscores(body));
      Some(if negative then -v else v)
    else None
  }

  lemma StripOfDigitEnds(s: string)
    requires s != [] && !IsSpace(s[0]) && !IsSpace(s[|s| - 1])
    ensures Strip(s) == s
  {
  }

  lemma ParseDigits(body: string)
    requires AllDigits(body) && body != []
    ensures WellGroupedDigits(body)
    ensures DropUnderscores(body) == body
  {
  }

  /** `int` reads back a run of digits. */
  lemma ParseDigitString(digits: string)
    requires AllDigits(digits) && digits != []
    ensures ParseInt(digits) == Some(DigitsValue(digits) as int)
  {
    ParseDigits(digits);
    StripOfDigitEnds(digits);
    ParseUnsigned(digits);
  }

  /** What `int` makes of text that `strip` keeps and that starts with no sign. */
  lemma ParseUnsigned(t: string)
    requires Strip(t) == t && t != [] && t[0] != '-' && t[0] != '+'
    requires WellGroupedDigits(t)
    ensures ParseInt(t) == Some(DigitsValue(DropUnderscores(t)) as int)
  {
  }

  /** `int` reads back `-` followed by a run of digits. */
  lemma ParseNegativeString(f: string)
    requires |f| >= 2 && f[0] == '-' && AllDigits(f[1..])
    ensures ParseInt(f) == Some(-(DigitsValue(f[1..]) as int))
  {
    ParseDigits(f[1..]);
    assert f[|f| - 1] == f[1..][|f| - 2];
    StripOfDigitEnds(f);
    assert Strip(f) == f && f[0] == '-';
  }

  /** `int(str(i)) == i`. */
  lemma ParseFormatInt(i: int)
    ensures ParseInt(FormatInt(i)) == Some(i)
  {
    var n: nat := if i < 0 then -i else i;
    DigitsValueOfFormatNat(n);
    if i < 0 {
      var f := FormatInt(i);
      assert f[1..] == FormatNat(n);
      ParseNegativeString(f);
    } else {
      ParseDigitString(FormatNat(n));
    }
  }

  // ---------------------------------------------------------------------------
  // UTF-8

  type byte = x: int | 0 <= x < 256

  predicate IsContinuation(b: byte) { 0x80 <= b < 0xC0 }

  /** The UTF-8 encoding of one Unicode scalar value. */
  function EncodeChar(c: char): (r: seq<byte>)
    ensures 1 <= |r| <= 4
    ensures (c as int < 0x80) <==> |r| == 1
    ensures |r| == 1 ==> r[0] == c as int
    ensures forall k :: 1 <= k < |r| ==> IsContinuation(r[k])
  {
    var cp := c as int;
    if cp < 0x80 then [cp]
    else if cp < 0x800 then [0xC0 + cp / 64, 0x80 + cp % 64]
    else if cp < 0x10000 then [0xE0 + cp / 4096, 0x80 + (cp / 64) % 64, 0x80 + cp % 64]
    else [0xF0 + cp / 262144, 0x80 + (cp / 4096) % 64, 0x80 + (cp / 64) % 64, 0x80 + cp % 64]
  }

  /** `s.encode("utf-8")`. */
  function Utf8Encode(s: string): (r: seq<byte>)
    ensures |s| <= |r| <= 4 * |s|
  {
    if s == [] then [] else EncodeChar(s[0]) + Utf8Encode(s[1..])
  }

  predicate IsScalar(cp: int) { 0 <= cp < 0xD800 || 0xE000 <= cp < 0x110000 }

  /** Reads one well-formed UTF-8 sequence from the front of `bs`: the scalar
      value and the number of bytes it took. */
  function DecodeChar(bs: seq<byte>): (r: Option<(char, nat)>)
    ensures r.Some? ==> 1 <= r.value.1 <= |bs|
  {
    if bs == [] then None
    else
      var b0: int := bs[0];
      if b0 < 0x80 then Some((b0 as char, 1))
      else if 0xC2 <= b0 < 0xE0 && |bs| >= 2 && IsContinuation(bs[1]) then
        var cp := (b0 - 0xC0) * 64 + (bs[1] as int - 0x80);
        Some((cp as char, 2))
      else if 0xE0 <= b0 < 0xF0 && |bs| >= 3 && IsContinuation(bs[1]) && IsContinuation(bs[2]) then
        var cp := (b0 - 0xE0) * 4096 + (bs[1] as int - 0x80) * 64 + (bs[2] as int - 0x80);
        if 0x800 <= cp && IsScalar(cp) then Some((cp as char, 3)) else None
      else if 0xF0 <= b0 < 0xF5 && |bs| >= 4 && IsContinuation(bs[1]) && IsContinuation(bs[2])
              && IsContinuation(bs[3]) then
        var cp := (b0 - 0xF0) * 262144 + (bs[1] as int - 0x80) * 4096 + (bs[2] as int - 0x80) * 64 + (bs[3] as int - 0x80);
        if 0x10000 <= cp && IsScalar(cp) then Some((cp as char, 4)) else None
      else None
  }

  /** Decodes a whole byte string, or None if it is not well-formed UTF-8. */
  function Utf8Decode(bs: seq<byte>): Option<string>
    decreases |bs|
  {
    if bs == [] then Some([])
    else match DecodeChar(bs)
      case None => None
      case Some((c, n)) =>
        match Utf8Decode(bs[n..])
        case None => None
        case Some(rest) => Some([c] + rest)
  }

  lemma DecodeTwo(c: char, rest: seq<byte>)
    requires 0x80 <= c as int < 0x800
    ensures DecodeChar(EncodeChar(c) + rest) == Some((c, 2))
  {
    var cp := c as int;
    var hi, lo := cp / 64, cp % 64;
    assert cp == hi * 64 + lo;
    var bs := EncodeChar(c) + rest;
    assert bs[0] as int - 0xC0 == hi && bs[1] as int - 0x80 == lo;
  }

  lemma DecodeThree(c: char, rest: seq<byte>)
    requires 0x800 <= c as int < 0x10000
    ensures DecodeChar(EncodeChar(c) + rest) == Some((c, 3))
  {
    var cp := c as int;
    var q := cp / 64;
    var b2 := cp % 64;
    var b0, b1 := q / 64, q % 64;
    assert cp == q * 64 + b2 && q == b0 * 64 + b1;
    assert cp / 4096 == b0;
    assert cp == b0 * 4096 + b1 * 64 + b2;
    var bs := EncodeChar(c) + rest;
    assert bs[0] as int - 0xE0 == b0 && bs[1] as int - 0x80 == b1 && bs[2] as int - 0x80 == b2;
  }

  lemma DecodeFour(c: char, rest: seq<byte>)
    requires 0x10000 <= c as int
    ensures DecodeChar(EncodeChar(c) + rest) == Some((c, 4))
  {
    var cp := c as int;
    var q1 := cp / 64;
    var b3 := cp % 64;
    var q2 := q1 / 64;
    var b2 := q1 % 64;
    var b0, b1 := q2 / 64, q2 % 64;
    assert cp == q1 * 64 + b3 && q1 == q2 * 64 + b2 && q2 == b0 * 64 + b1;
    assert cp / 4096 == q2;
    assert cp / 262144 == b0;
    assert cp == b0 * 262144 + b1 * 4096 + b2 * 64 + b3;
    var bs := EncodeChar(c) + rest;
    assert bs[0] as int - 0xF0 == b0 && bs[1] as int - 0x80 == b1;
    assert bs[2] as int - 0x80 == b2 && bs[3] as int - 0x80 == b3;
  }

  lemma DecodeEncodeChar(c: char, rest: seq<byte>)
    ensures DecodeChar(EncodeChar(c) + rest) == Some((c, |EncodeChar(c)|))
  {
    var cp := c as int;
    if cp < 0x80 {
    } else if cp < 0x800 {
      DecodeTwo(c, rest);
    } else if cp < 0x10000 {
      DecodeThree(c, rest);
    } else {
      DecodeFour(c, rest);
    }
  }

  /** Decoding what `str.encode("utf-8")` produced gives back the string. */
  lemma {:induction false} Utf8RoundTrip(s: string)
    ensures Utf8Decode(Utf8Encode(s)) == Some(s)
  {
    if s != [] {
      var e := EncodeChar(s[0]);
      var bs := Utf8Encode(s);
      assert bs == e + Utf8Encode(s[1..]);
      DecodeEncodeChar(s[0], Utf8Encode(s[1..]));
      assert bs[|e|..] == Utf8Encode(s[1..]);
      Utf8RoundTrip(s[1..]);
      assert [s[0]] + s[1..] == s;
    }
  }
}
