/** The few JavaScript built-ins the dashboard's rules rely on: Math.min/max/round,
    number-to-text conversions, a handful of string methods, parseFloat and plain
    object lookup. Numbers are real numbers, not IEEE doubles; strings are `seq<char>`. */
module JsBuiltins {
  import opened Wrappers

  function Min(a: real, b: real): (m: real)
    ensures m <= a && m <= b && (m == a || m == b)
  {
    if a <= b then a else b
  }

  function Max(a: real, b: real): (m: real)
    ensures m >= a && m >= b && (m == a || m == b)
  {
    if a >= b then a else b
  }

  /** `Math.round(x)`: the nearest integer, halves rounded up (towards +infinity). */
  function Round(x: real): (n: int)
    ensures x - 0.5 < n as real <= x + 0.5
  {
    (x + 0.5).Floor
  }

  /** `x || d` on a number: NaN (here `None`) and zero are falsy and give `d`. */
  function NumberOr(x: Option<real>, d: real): (r: real)
    ensures x.Some? && x.value != 0.0 ==> r == x.value
    ensures x.None? || x.value == 0.0 ==> r == d
  {
    if x.Some? && x.value != 0.0 then x.value else d
  }

  lemma {:induction false} RoundMonotone(x: real, y: real)
    requires x <= y
    ensures Round(x) <= Round(y)
  {
  }

  predicate IsDigit(c: char) { '0' <= c <= '9' }

  function DigitChar(d: nat): (c: char)
    requires d < 10
    ensures IsDigit(c)
  {
    ('0' as int + d) as char
  }

  function DigitValue(c: char): (d: nat)
    requires IsDigit(c)
    ensures d < 10 && DigitChar(d) == c
  {
    (c as int - '0' as int)
  }

  /** `n.toString()` for a non-negative integer: decimal digits, no leading zeros. */
  function NatToString(n: nat): (s: string)
    ensures |s| >= 1 && IsDigit(s[0])
    ensures forall i :: 0 <= i < |s| ==> IsDigit(s[i])
    ensures DigitsValue(s) == n
  {
    if n < 10 then [DigitChar(n)]
    else
      var prefix, last := NatToString(n / 10), DigitChar(n % 10);
      var s := prefix + [last];
      assert s[..|prefix|] == prefix && s[|s| - 1] == last;
      s
  }

  /** The natural number a string of decimal digits denotes. */
  function DigitsValue(s: string): nat
    requires forall i :: 0 <= i < |s| ==> IsDigit(s[i])
  {
    if s == [] then 0 else 10 * DigitsValue(s[..|s| - 1]) + DigitValue(s[|s| - 1])
  }

  /** The whole number of hundredths `x.toFixed(2)` spells: `x * 100` rounded,
      ties away from zero. */
  function Hundredths(x: real): (h: int)
    ensures x * 100.0 - 0.5 <= h as real <= x * 100.0 + 0.5
    ensures x >= 0.0 ==> h >= 0
    ensures x < 0.0 ==> h <= 0
  {
    if x < 0.0 then -Round(-x * 100.0) else Round(x * 100.0)
  }

  /** `x.toFixed(2)` for |x| < 10^21: the hundredths of x, written out with a
      leading '-' when x is negative (so "-0.00" for a small negative x). */
  function Fixed2(x: real): (s: string)
    ensures |s| >= 4
    ensures x < 0.0 ==> s[0] == '-'
    ensures x >= 0.0 ==> IsDigit(s[0])
    ensures SpellsFixed2(s, x)
  {
    var h := Hundredths(x);
    if x < 0.0 then
      var u := HundredthsText(-h);
      assert ("-" + u)[1..] == u;
      "-" + u
    else HundredthsText(h)
  }

  /** A count of hundredths as text: the whole part, a point and two digits. */
  function HundredthsText(n: nat): (s: string)
    ensures |s| >= 4 && IsDigit(s[0])
    ensures SpellsHundredths(s, n)
  {
    var whole, cents := n / 100, n % 100;
    var w := NatToString(whole);
    var d := [DigitChar(cents / 10), DigitChar(cents % 10)];
    var s := w + ['.'] + d;
    assert s[..|s| - 3] == w && s[|s| - 2..] == d;
    assert DigitsValue(d) == cents by {
      var first := d[..1];
      assert first[..0] == [] && first[0] == d[0];
      assert DigitsValue(first) == cents / 10;
      assert DigitsValue(d) == 10 * DigitsValue(first) + cents % 10;
    }
    s
  }

  /** `s` is decimal digits, a point and exactly two more digits, and reads
      back as `n` hundredths. */
  predicate SpellsHundredths(s: string, n: nat) {
    && |s| >= 4 && s[|s| - 3] == '.'
    && (forall i :: 0 <= i < |s| && i != |s| - 3 ==> IsDigit(s[i]))
    && DigitsValue(s[..|s| - 3]) * 100 + DigitsValue(s[|s| - 2..]) == n
  }

  /** `s` is what `x.toFixed(2)` shows: a '-' exactly when x is negative, then
      the digits of |x| rounded to hundredths. */
  predicate SpellsFixed2(s: string, x: real) {
    if x < 0.0 then s != [] && s[0] == '-' && SpellsHundredths(s[1..], -Hundredths(x))
    else SpellsHundredths(s, Hundredths(x))
  }

  /** `s.replace(c, '')` with a string pattern: only the FIRST occurrence goes. */
  function RemoveFirst(s: string, c: char): (r: string)
    ensures c !in s ==> r == s
    ensures c in s ==> |r| == |s| - 1
    ensures c in s ==> var k := FirstIndex(s, c); r == s[..k] + s[k + 1..]
  {
    if s == [] then []
    else if s[0] == c then s[1..]
    else
      var rest := RemoveFirst(s[1..], c);
      assert c in s ==> c in s[1..] && FirstIndex(s, c) == 1 + FirstIndex(s[1..], c);
      [s[0]] + rest
  }

  /** `s.indexOf(c)` for a character that occurs: the position of its first occurrence. */
  function FirstIndex(s: string, c: char): (k: nat)
    requires c in s
    ensures k < |s| && s[k] == c && c !in s[..k]
  {
    if s[0] == c then 0
    else
      var k := 1 + FirstIndex(s[1..], c);
      assert s[..k] == [s[0]] + s[1..][..k - 1];
      k
  }

  /** `s.replace(/[...]/g, '')`: every character of `cs` goes, the rest keep their order. */
  function RemoveAll(s: string, cs: set<char>): (r: string)
    ensures forall i :: 0 <= i < |r| ==> r[i] !in cs
    ensures |r| <= |s|
  {
    if s == [] then []
    else if s[0] in cs then RemoveAll(s[1..], cs)
    else [s[0]] + RemoveAll(s[1..], cs)
  }

  /** `c.toLowerCase()` on the ASCII letters; other characters are unchanged. */
  function LowerChar(c: char): char {
    if 'A' <= c <= 'Z' then (c as int + 32) as char else c
  }

  function ToLower(s: string): (r: string)
    ensures |r| == |s|
    ensures forall i :: 0 <= i < |s| ==> r[i] == LowerChar(s[i])
  {
    seq(|s|, i requires 0 <= i < |s| => LowerChar(s[i]))
  }

  /** Number of leading decimal digits of `s`. */
  function LeadingDigits(s: string): (k: nat)
    ensures k <= |s|
    ensures forall i :: 0 <= i < k ==> IsDigit(s[i])
    ensures k < |s| ==> !IsDigit(s[k])
  {
    if s != [] && IsDigit(s[0]) then 1 + LeadingDigits(s[1..]) else 0
  }

  predicate IsSpace(c: char) { c == ' ' || c == '\t' || c == '\n' || c == '\r' }

  function TrimStart(s: string): (r: string)
    ensures |r| <= |s| && r == s[|s| - |r|..]
    ensures r != [] ==> !IsSpace(r[0])
  {
    if s != [] && IsSpace(s[0]) then TrimStart(s[1..]) else s
  }

  /** The leading run of decimal digits of `s`. */
  function DigitPrefix(s: string): (p: string)
    ensures p == s[..LeadingDigits(s)]
    ensures forall i :: 0 <= i < |p| ==> IsDigit(p[i])
  {
    s[..LeadingDigits(s)]
  }

  /** `parseFloat(s)`: leading white space is skipped, then the longest prefix of
      the form [+-] digits [. digits] with at least one digit is read; `None`
      stands for NaN (no digits at all). */
  function ParseFloat(s: string): (r: Option<real>)
  {
    ParseSigned(TrimStart(s))
  }

  /** An optional sign, then an unsigned decimal. */
  function ParseSigned(t: string): (r: Option<real>)
  {
    if t != [] && t[0] == '-' then
      match ParseUnsigned(t[1..])
      case None => None
      case Some(v) => Some(-v)
    else if t != [] && t[0] == '+' then ParseUnsigned(t[1..])
    else ParseUnsigned(t)
  }

  /** digits [. digits], with at least one digit on either side of the point. */
  function ParseUnsigned(body: string): (r: Option<real>)
  {
    var whole := DigitPrefix(body);
    var rest := body[|whole|..];
    var fraction := if rest != [] && rest[0] == '.' then DigitPrefix(rest[1..]) else [];
    if whole == [] && fraction == [] then None
    else Some(DecimalValue(whole, fraction))
  }

  /** The value of `whole.fraction`, both digit strings. */
  function DecimalValue(whole: string, fraction: string): real
    requires forall i :: 0 <= i < |whole| ==> IsDigit(whole[i])
    requires forall i :: 0 <= i < |fraction| ==> IsDigit(fraction[i])
  {
    DigitsValue(whole) as real + FractionValue(fraction)
  }

  /** The value of the digits after the point: 0.d1d2... == (d1 + 0.d2...) / 10. */
  function FractionValue(fraction: string): (v: real)
    requires forall i :: 0 <= i < |fraction| ==> IsDigit(fraction[i])
    ensures 0.0 <= v < 1.0
  {
    if fraction == [] then 0.0
    else (DigitValue(fraction[0]) as real + FractionValue(fraction[1..])) / 10.0
  }
}

/** Object.prototype's own property names: `obj[key]` on a plain object literal
    finds one of these (a function or an object, so truthy) even though the
    literal never declared it. */
module JsObject {
  const PrototypeMembers: set<string> := {
    "constructor", "__defineGetter__", "__defineSetter__", "hasOwnProperty",
    "__lookupGetter__", "__lookupSetter__", "isPrototypeOf", "propertyIsEnumerable",
    "toString", "valueOf", "__proto__", "toLocaleString" }

  /** What `record[key]` yields on an object literal whose own string properties are `own`. */
  datatype Lookup = Own(value: string) | Inherited(name: string) | Absent

  function Get(own: map<string, string>, key: string): (r: Lookup)
    ensures r.Own? <==> key in own
    ensures r.Inherited? <==> key !in own && key in PrototypeMembers
  {
    if key in own then Own(own[key])
    else if key in PrototypeMembers then Inherited(key)
    else Absent
  }
}
