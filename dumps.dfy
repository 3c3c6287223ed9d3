/** `json.dumps(v)` with Python's defaults (`ensure_ascii=True`, item
    separator ", ", key separator ": "), the serialisation of request bodies. */
module JsonDumps {
  import opened Strings
  import opened Json

  /** `\uXXXX` with four lower-case hex digits. */
  function UnicodeEscape(n: nat): (t: string)
    ensures |t| == 6 && IsAscii(t)
  {
    "\\u" + Hex(n, 4)
  }

  /** One character of a JSON string literal: the short escapes, printable
      ASCII as itself, everything else as `\uXXXX` (a surrogate pair above
      U+FFFF). */
  function EscapeChar(c: char): (t: string)
    ensures t != [] && IsAscii(t)
  {
    var n := c as int;
    if c == '"' then "\\\""
    else if c == '\\' then "\\\\"
    else if c == '\n' then "\\n"
    else if c == '\r' then "\\r"
    else if c == '\t' then "\\t"
    else if n == 0x08 then "\\b"
    else if n == 0x0C then "\\f"
    else if 0x20 <= n <= 0x7E then [c]
    else if n < 0x1_0000 then UnicodeEscape(n)
    else
      var v := n - 0x1_0000;
      UnicodeEscape(0xD800 + v / 0x400) + UnicodeEscape(0xDC00 + v % 0x400)
  }

  function DumpsString(s: string): (t: string)
    ensures IsAscii(t)
  {
    var parts := seq(|s|, i requires 0 <= i < |s| => EscapeChar(s[i]));
    ConcatAscii(parts);
    "\"" + Concat(parts) + "\""
  }

  function Dumps(j: Json): (t: string)
    decreases j
  {
    match j
    case JNull => "null"
    case JBool(b) => if b then "true" else "false"
    case JInt(i) => IntToString(i)
    case JString(s) => DumpsString(s)
    case JArray(items) =>
      "[" + Join(seq(|items|, k requires 0 <= k < |items| => Dumps(items[k])), ", ") + "]"
    case JObject(members) =>
      "{" + Join(seq(|members|, k requires 0 <= k < |members| =>
                   DumpsString(members[k].key) + ": " + Dumps(members[k].value)), ", ") + "}"
  }

  /** With `ensure_ascii` every serialised value is pure ASCII, so its UTF-8
      encoding has exactly one byte per character. */
  lemma {:induction false} DumpsAscii(j: Json)
    ensures IsAscii(Dumps(j))
    decreases j
  {
    match j
    case JNull =>
    case JBool(b) =>
    case JInt(i) =>
    case JString(s) =>
    case JArray(items) =>
      var parts := seq(|items|, k requires 0 <= k < |items| => Dumps(items[k]));
      forall k | 0 <= k < |items| ensures IsAscii(parts[k]) {
        DumpsAscii(items[k]);
      }
      JoinAscii(parts, ", ");
    case JObject(members) =>
      var parts := seq(|members|, k requires 0 <= k < |members| =>
                     DumpsString(members[k].key) + ": " + Dumps(members[k].value));
      forall k | 0 <= k < |members| ensures IsAscii(parts[k]) {
        DumpsAscii(members[k].value);
      }
      JoinAscii(parts, ", ");
  }

  /** Printable ASCII other than `"` and `\\` is written as it is. */
  predicate JsonPlainText(s: string) {
    forall i :: 0 <= i < |s| ==> 0x20 <= s[i] as int <= 0x7E && s[i] != '"' && s[i] != '\\'
  }

  lemma {:induction false} ConcatEscapedPlain(s: string)
    requires JsonPlainText(s)
    ensures Concat(seq(|s|, i requires 0 <= i < |s| => EscapeChar(s[i]))) == s
    decreases |s|
  {
    var parts := seq(|s|, i requires 0 <= i < |s| => EscapeChar(s[i]));
    if s != [] {
      ConcatEscapedPlain(s[1..]);
      assert parts[1..] == seq(|s[1..]|, i requires 0 <= i < |s[1..]| => EscapeChar(s[1..][i]));
      assert parts[0] == [s[0]];
      assert s == [s[0]] + s[1..];
    }
  }

  /** Plain text serialises to itself between double quotes. */
  lemma DumpsPlainString(s: string)
    requires JsonPlainText(s)
    ensures DumpsString(s) == "\"" + s + "\""
    ensures Dumps(JString(s)) == "\"" + s + "\""
  {
    ConcatEscapedPlain(s);
  }
}
