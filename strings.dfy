/** Text helpers shared by the client: Python's `str(int)` and `int(str)`,
    lower-case hexadecimal as printed by escapes, and `sep.join(...)`. */
module Strings {
  import opened Wrappers

  predicate IsDigit(c: char) {
    '0' <= c <= '9'
  }

  predicate IsAscii(s: string) {
    forall i :: 0 <= i < |s| ==> s[i] as int < 128
  }

  function DigitChar(d: nat): (c: char)
    requires d < 10
    ensures IsDigit(c) && c as int - '0' as int == d
  {
    ('0' as int + d) as char
  }

  function DigitValue(c: char): (d: nat)
    requires IsDigit(c)
    ensures d < 10 && DigitChar(d) == c
  {
    c as int - '0' as int
  }

  /** Decimal digits of a natural number, most significant first. */
  function NatToString(n: nat): (s: string)
    ensures s != [] && forall i :: 0 <= i < |s| ==> IsDigit(s[i])
    decreases n
  {
    if n < 10 then [DigitChar(n)] else NatToString(n / 10) + [DigitChar(n % 10)]
  }

  /** Python's `str(i)` for an int. */
  function IntToString(i: int): (s: string)
    ensures s != [] && IsAscii(s)
  {
    var s := if i < 0 then "-" + NatToString(-i) else NatToString(i);
    assert forall k :: 0 <= k < |s| ==> s[k] == '-' || IsDigit(s[k]);
    s
  }

  /** The value of a non-empty run of ASCII digits. */
  function DigitsValue(s: string): (n: nat)
    requires forall i :: 0 <= i < |s| ==> IsDigit(s[i])
    decreases |s|
  {
    if s == [] then 0 else DigitsValue(s[..|s| - 1]) * 10 + DigitValue(s[|s| - 1])
  }

  function ParseNat(s: string): (r: Option<nat>)
    ensures r.Some? <==> s != [] && forall i :: 0 <= i < |s| ==> IsDigit(s[i])
  {
    if s != [] && forall i :: 0 <= i < |s| ==> IsDigit(s[i]) then Some(DigitsValue(s)) else None
  }

  /** Python's `int(s)` on a header value: an optional sign followed by
      decimal digits; None stands for the ValueError it raises otherwise. */
  function ParseInt(s: string): (r: Option<int>)
    ensures r.Some? <==>
      (s != [] &&
       var d := if s[0] == '-' || s[0] == '+' then s[1..] else s;
       d != [] && forall i :: 0 <= i < |d| ==> IsDigit(d[i]))
    ensures r.Some? ==>
      (var d := if s[0] == '-' || s[0] == '+' then s[1..] else s;
       r.value == if s[0] == '-' then 0 - DigitsValue(d) else DigitsValue(d))
  {
    if s == [] then None
    else if s[0] == '-' then
      match ParseNat(s[1..])
      case Some(n) => Some(0 - n as int)
      case None => None
    else if s[0] == '+' then
      match ParseNat(s[1..])
      case Some(n) => Some(n)
      case None => None
    else
      match ParseNat(s)
      case Some(n) => Some(n)
      case None => None
  }

  lemma {:induction false} DigitsValueOfNatToString(n: nat)
    ensures DigitsValue(NatToString(n)) == n
    decreases n
  {
    var s := NatToString(n);
    if n >= 10 {
      DigitsValueOfNatToString(n / 10);
      assert s[..|s| - 1] == NatToString(n / 10);
    }
  }

  /** `int(str(i)) == i`: the decimal rendering parses back to the number. */
  lemma ParseIntOfIntToString(i: int)
    ensures ParseInt(IntToString(i)) == Some(i)
  {
    if i < 0 {
      var s := "-" + NatToString(-i);
      assert s[1..] == NatToString(-i);
      DigitsValueOfNatToString(-i);
    } else {
      DigitsValueOfNatToString(i);
    }
  }

  /** One lower-case hexadecimal digit. */
  function HexDigit(d: nat): (c: char)
    requires d < 16
    ensures c as int < 128
  {
    "0123456789abcdef"[d]
  }

  /** `n` in lower-case hexadecimal, zero-padded on the left to `width`
      digits, as the `\xhh` and `\uXXXX` escapes need. */
  function Hex(n: nat, width: nat): (s: string)
    ensures |s| == width && IsAscii(s)
    decreases width
  {
    if width == 0 then "" else Hex(n / 16, width - 1) + [HexDigit(n % 16)]
  }

  /** The concatenation of a sequence of strings. */
  function Concat(ss: seq<string>): (s: string)
    decreases |ss|
  {
    if ss == [] then "" else ss[0] + Concat(ss[1..])
  }

  /** Python's `sep.join(ss)`. */
  function Join(ss: seq<string>, sep: string): (s: string)
    decreases |ss|
  {
    if ss == [] then "" else if |ss| == 1 then ss[0] else ss[0] + sep + Join(ss[1..], sep)
  }

  lemma {:induction false} ConcatAscii(ss: seq<string>)
    requires forall i :: 0 <= i < |ss| ==> IsAscii(ss[i])
    ensures IsAscii(Concat(ss))
    decreases |ss|
  {
    if ss != [] {
      ConcatAscii(ss[1..]);
    }
  }

  lemma {:induction false} JoinAscii(ss: seq<string>, sep: string)
    requires IsAscii(sep)
    requires forall i :: 0 <= i < |ss| ==> IsAscii(ss[i])
    ensures IsAscii(Join(ss, sep))
    decreases |ss|
  {
    if |ss| > 1 {
      JoinAscii(ss[1..], sep);
    }
  }
}
