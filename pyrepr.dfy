/** Python's `repr()` and `str()` of decoded JSON values, which the 422
    error message is built from (`repr(e["field"])`, `f"{message} ..."`). */
module PyRepr {
  import opened Strings
  import opened Json

  /** The quote `repr` puts around a string: single quotes, unless the
      string holds a single quote and no double quote. */
  function QuoteFor(s: string): (q: char)
    ensures q == '\'' || q == '"'
  {
    if '\'' in s && '"' !in s then '"' else '\''
  }

  /** One character of a string literal as `repr` writes it between quotes `q`. */
  function ReprChar(c: char, q: char): (t: string)
    ensures t != []
  {
    if c == '\\' then "\\\\"
    else if c == q then ['\\', q]
    else if c == '\t' then "\\t"
    else if c == '\n' then "\\n"
    else if c == '\r' then "\\r"
    else if c as int < 0x20 || c as int == 0x7F then "\\x" + Hex(c as int, 2)
    else [c]
  }

  function ReprString(s: string): (t: string)
    ensures |t| >= |s| + 2
  {
    var q := QuoteFor(s);
    var body := Concat(seq(|s|, i requires 0 <= i < |s| => ReprChar(s[i], q)));
    ConcatLength(seq(|s|, i requires 0 <= i < |s| => ReprChar(s[i], q)));
    [q] + body + [q]
  }

  lemma {:induction false} ConcatLength(ss: seq<string>)
    requires forall i :: 0 <= i < |ss| ==> ss[i] != []
    ensures |Concat(ss)| >= |ss|
    decreases |ss|
  {
    if ss != [] {
      ConcatLength(ss[1..]);
    }
  }

  /** Python's `repr(v)`. */
  function Repr(j: Json): (t: string)
    ensures t != []
    decreases j
  {
    match j
    case JNull => "None"
    case JBool(b) => if b then "True" else "False"
    case JInt(i) => IntToString(i)
    case JString(s) => ReprString(s)
    case JArray(items) =>
      "[" + Join(seq(|items|, k requires 0 <= k < |items| => Repr(items[k])), ", ") + "]"
    case JObject(members) =>
      "{" + Join(seq(|members|, k requires 0 <= k < |members| =>
                   ReprString(members[k].key) + ": " + Repr(members[k].value)), ", ") + "}"
  }

  /** Python's `str(v)`: a string is itself, anything else its `repr`. */
  function Str(j: Json): (t: string)
  {
    if j.JString? then j.s else Repr(j)
  }

  /** Printable ASCII other than the quote and the backslash: text that
      `repr` writes as itself between single quotes. */
  predicate PlainText(s: string) {
    forall i :: 0 <= i < |s| ==>
      s[i] != '\'' && s[i] != '\\' && 0x20 <= s[i] as int < 0x7F
  }

  lemma {:induction false} ConcatPlain(s: string)
    requires PlainText(s)
    ensures Concat(seq(|s|, i requires 0 <= i < |s| => ReprChar(s[i], '\''))) == s
    decreases |s|
  {
    var parts := seq(|s|, i requires 0 <= i < |s| => ReprChar(s[i], '\''));
    if s != [] {
      ConcatPlain(s[1..]);
      assert parts[1..] == seq(|s[1..]|, i requires 0 <= i < |s[1..]| => ReprChar(s[1..][i], '\''));
      assert parts[0] == [s[0]];
      assert s == [s[0]] + s[1..];
    }
  }

  lemma ReprPlainString(s: string)
    requires PlainText(s)
    ensures Repr(JString(s)) == "'" + s + "'"
  {
    assert QuoteFor(s) == '\'';
    ConcatPlain(s);
  }
}
