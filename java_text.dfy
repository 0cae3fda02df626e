/**
 * The pieces of the Java platform's text handling that the option code relies on:
 * decimal printing and parsing of int/long values, String.trim's blank test,
 * String.toUpperCase on ASCII letters and List.toString.
 */
module JavaText {
  import opened Wrappers

  /** Java's 32-bit int. */
  newtype Int32 = x: int | -0x8000_0000 <= x < 0x8000_0000

  /** Java's 64-bit long. */
  newtype Int64 = x: int | -0x8000_0000_0000_0000 <= x < 0x8000_0000_0000_0000

  predicate IsDigit(c: char) {
    '0' <= c <= '9'
  }

  predicate AllDigits(s: string) {
    forall i :: 0 <= i < |s| ==> IsDigit(s[i])
  }

  function DigitValue(c: char): nat
    requires IsDigit(c)
  {
    c as int - '0' as int
  }

  function DigitChar(d: nat): (c: char)
    requires d < 10
    ensures IsDigit(c) && DigitValue(c) == d
  {
    ('0' as int + d) as char
  }

  /** The decimal digits of n, most significant first, without leading zeros. */
  function NatToDigits(n: nat): (s: string)
    ensures |s| > 0 && AllDigits(s)
    decreases n
  {
    if n < 10 then [DigitChar(n)] else NatToDigits(n / 10) + [DigitChar(n % 10)]
  }

  /** The number a non-empty run of decimal digits denotes. */
  function DigitsValue(s: string): nat
    requires AllDigits(s)
  {
    if s == [] then 0 else DigitsValue(s[..|s| - 1]) * 10 + DigitValue(s[|s| - 1])
  }

  lemma {:induction false} DigitsRoundTrip(n: nat)
    ensures DigitsValue(NatToDigits(n)) == n
    decreases n
  {
    if n >= 10 {
      var s := NatToDigits(n);
      assert s[..|s| - 1] == NatToDigits(n / 10);
      DigitsRoundTrip(n / 10);
    }
  }

  /** String.valueOf(int) / String.valueOf(long): an optional '-' and the digits. */
  function IntToString(v: int): string {
    if v < 0 then "-" + NatToDigits(-v) else NatToDigits(v)
  }

  /** The digits after an optional leading sign. */
  function Unsigned(s: string): string {
    if |s| > 0 && (s[0] == '-' || s[0] == '+') then s[1..] else s
  }

  /**
   * The text shape Integer.parseInt and Long.parseLong accept: an optional
   * '+' or '-', then at least one decimal digit, nothing else.
   */
  predicate IsDecimal(s: string) {
    |Unsigned(s)| > 0 && AllDigits(Unsigned(s))
  }

  function DecimalValue(s: string): int
    requires IsDecimal(s)
  {
    if s[0] == '-' then -(DigitsValue(Unsigned(s)) as int) else DigitsValue(Unsigned(s))
  }

  /** Integer.parseInt / Long.parseLong with the type's range [lo, hi]; None is a NumberFormatException. */
  function ParseDecimal(s: string, lo: int, hi: int): Option<int> {
    if IsDecimal(s) && lo <= DecimalValue(s) <= hi then Some(DecimalValue(s)) else None
  }

  /** Parsing what String.valueOf printed gives the number back, for every value in the range. */
  lemma ParseDecimalOfIntToString(v: int, lo: int, hi: int)
    requires lo <= v <= hi
    ensures ParseDecimal(IntToString(v), lo, hi) == Some(v)
  {
    var s := IntToString(v);
    if v < 0 {
      assert Unsigned(s) == NatToDigits(-v);
      DigitsRoundTrip(-v);
    } else {
      assert Unsigned(s) == NatToDigits(v);
      DigitsRoundTrip(v);
    }
  }

  /** Integer.parseInt. */
  function ParseInt32(s: string): (r: Option<Int32>)
    ensures r.Some? <==> IsDecimal(s) && -0x8000_0000 <= DecimalValue(s) < 0x8000_0000
  {
    match ParseDecimal(s, -0x8000_0000, 0x7fff_ffff)
    case Some(n) => Some(n as Int32)
    case None => None
  }

  /** Long.parseLong. */
  function ParseInt64(s: string): (r: Option<Int64>)
    ensures r.Some? <==> IsDecimal(s) && -0x8000_0000_0000_0000 <= DecimalValue(s) < 0x8000_0000_0000_0000
  {
    match ParseDecimal(s, -0x8000_0000_0000_0000, 0x7fff_ffff_ffff_ffff)
    case Some(n) => Some(n as Int64)
    case None => None
  }

  /** String.trim().length() == 0: every character is at most U+0020. */
  predicate IsBlank(s: string) {
    forall i :: 0 <= i < |s| ==> s[i] <= ' '
  }

  /** Character.toUpperCase restricted to ASCII letters. */
  function UpperChar(c: char): char {
    if 'a' <= c <= 'z' then (c as int - 32) as char else c
  }

  /** String.toUpperCase, character by character. */
  function ToUpperCase(s: string): (r: string)
    ensures |r| == |s|
  {
    seq(|s|, i requires 0 <= i < |s| => UpperChar(s[i]))
  }

  /** The elements separated by sep. */
  function JoinWith(xs: seq<string>, sep: string): string {
    if xs == [] then "" else if |xs| == 1 then xs[0] else JoinWith(xs[..|xs| - 1], sep) + sep + xs[|xs| - 1]
  }

  /** AbstractCollection.toString: "[a, b, c]". */
  function ListToString(xs: seq<string>): string {
    "[" + JoinWith(xs, ", ") + "]"
  }

  /** Concatenation regrouped to the right. */
  lemma Regroup<T>(a: seq<T>, b: seq<T>, c: seq<T>)
    ensures a + b + c == a + (b + c)
  {
  }

  /** The concatenation of all chunks, in order (what a StringBuilder holds after appending them). */
  function Concat(chunks: seq<string>): string {
    if chunks == [] then "" else Concat(chunks[..|chunks| - 1]) + chunks[|chunks| - 1]
  }

  lemma ConcatAppend(a: seq<string>, b: seq<string>)
    ensures Concat(a + b) == Concat(a) + Concat(b)
    decreases |b|
  {
    if b != [] {
      assert (a + b)[..|a + b| - 1] == a + b[..|b| - 1];
      ConcatAppend(a, b[..|b| - 1]);
    } else {
      assert a + b == a;
    }
  }

  /** One line per element, in order. */
  function Lines<T>(xs: seq<T>, f: T -> string): (r: seq<string>)
    ensures |r| == |xs|
    ensures forall i :: 0 <= i < |xs| ==> r[i] == f(xs[i])
  {
    seq(|xs|, i requires 0 <= i < |xs| => f(xs[i]))
  }

  lemma LinesSnoc<T>(xs: seq<T>, f: T -> string, i: nat)
    requires i < |xs|
    ensures Lines(xs[..i + 1], f) == Lines(xs[..i], f) + [f(xs[i])]
  {
    var l, m := Lines(xs[..i + 1], f), Lines(xs[..i], f) + [f(xs[i])];
    assert forall k :: 0 <= k < |l| ==> l[k] == m[k];
  }

  /** The text of a builder starts with the first chunk appended to it. */
  lemma {:induction false} ConcatStartsWith(chunks: seq<string>)
    requires chunks != []
    ensures |Concat(chunks)| >= |chunks[0]| && Concat(chunks)[..|chunks[0]|] == chunks[0]
    decreases |chunks|
  {
    var init := chunks[..|chunks| - 1];
    if init == [] {
      assert Concat(chunks) == Concat(init) + chunks[0];
    } else {
      ConcatStartsWith(init);
      var t := Concat(init);
      assert Concat(chunks) == t + chunks[|chunks| - 1];
      assert (t + chunks[|chunks| - 1])[..|chunks[0]|] == t[..|chunks[0]|];
    }
  }
}
