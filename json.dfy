/** The pieces of Go's `encoding/json` encoder that `Result.Bytes` uses: string
    literals (with the encoder's default HTML-safe escaping) and integers, each
    with a reader for the same grammar (RFC 8259, sections 6 and 7) so that
    what is written can be shown to read back. The escapes are those of the
    encoder from Go 1.22 on, which writes `\b` and `\f` where earlier
    versions wrote `\u0008` and `\u000c`. */
module Json {

  import opened Base

  // ---------------------------------------------------------------------------
  // Hexadecimal digits, lower case as Go writes them

  function HexDigit(d: nat): (c: char)
    requires d < 16
    ensures IsHexDigit(c) && HexValue(c) == d
  {
    if d < 10 then ('0' as int + d) as char else ('a' as int + d - 10) as char
  }

  predicate IsHexDigit(c: char) {
    ('0' <= c <= '9') || ('a' <= c <= 'f') || ('A' <= c <= 'F')
  }

  function HexValue(c: char): (d: nat)
    requires IsHexDigit(c)
    ensures d < 16
  {
    if '0' <= c <= '9' then c as int - '0' as int
    else if 'a' <= c <= 'f' then c as int - 'a' as int + 10
    else c as int - 'A' as int + 10
  }

  // ---------------------------------------------------------------------------
  // String literals

  /** Characters Go's encoder writes as they are (its `htmlSafeSet`): everything
      from the space upwards except `"`, `\`, `<`, `>`, `&` and the two line
      separators U+2028, U+2029. */
  predicate HtmlSafe(c: char) {
    ' ' <= c && c != '"' && c != '\\' && c != '<' && c != '>' && c != '&'
    && c as int != 0x2028 && c as int != 0x2029
  }

  /** How the encoder writes one character inside a string literal: `\"` and `\\`,
      the short escapes `\b`, `\f`, `\n`, `\r`, `\t`, `\u00XX` with lower-case hex
      for the other control characters and for `<`, `>`, `&`, and `\u2028`,
      `\u2029` for the line separators. */
  function EscapeChar(c: char): (r: string)
    ensures |r| >= 1
    ensures HtmlSafe(c) <==> r == [c]
    ensures !HtmlSafe(c) ==> r[0] == '\\'
  {
    if c == '"' then "\\\""
    else if c == '\\' then "\\\\"
    else if c as int == 8 then "\\b"
    else if c as int == 12 then "\\f"
    else if c == '\n' then "\\n"
    else if c == '\r' then "\\r"
    else if c == '\t' then "\\t"
    else if c < ' ' || c == '<' || c == '>' || c == '&' then
      ['\\', 'u', '0', '0', HexDigit(c as int / 16), HexDigit(c as int % 16)]
    else if c as int == 0x2028 then "\\u2028"
    else if c as int == 0x2029 then "\\u2029"
    else [c]
  }

  function EscapeChars(s: string): string {
    if s == [] then [] else EscapeChar(s[0]) + EscapeChars(s[1..])
  }

  /** The JSON literal Go writes for the string `s`. */
  function Quote(s: string): string {
    "\"" + EscapeChars(s) + "\""
  }

  /** A string of safe characters is written between quotes unchanged. */
  lemma {:induction false} EscapeSafe(s: string)
    requires forall i :: 0 <= i < |s| ==> HtmlSafe(s[i])
    ensures EscapeChars(s) == s
  {
    if s != [] {
      EscapeSafe(s[1..]);
    }
  }

  /** `Some(([c] + v, rest))` when the inner read succeeded with `(v, rest)`. */
  function Prepend(c: char, o: Option<(string, string)>): Option<(string, string)> {
    match o
    case None => None
    case Some(p) => Some(([c] + p.0, p.1))
  }

  /** Reads the characters of a string literal up to and including its closing
      quote, undoing the escapes of RFC 8259 section 7 (surrogate pairs are not
      combined; a lone surrogate escape is refused). Gives the value and what
      follows the closing quote. */
  function ReadChars(s: string): (r: Option<(string, string)>)
    ensures r.Some? ==> |r.value.1| < |s|
    decreases |s|
  {
    if s == [] then None
    else if s[0] == '"' then Some(([], s[1..]))
    else if s[0] == '\\' then
      if |s| < 2 then None
      else if s[1] == '"' then Prepend('"', ReadChars(s[2..]))
      else if s[1] == '\\' then Prepend('\\', ReadChars(s[2..]))
      else if s[1] == '/' then Prepend('/', ReadChars(s[2..]))
      else if s[1] == 'b' then Prepend(8 as char, ReadChars(s[2..]))
      else if s[1] == 'f' then Prepend(12 as char, ReadChars(s[2..]))
      else if s[1] == 'n' then Prepend('\n', ReadChars(s[2..]))
      else if s[1] == 'r' then Prepend('\r', ReadChars(s[2..]))
      else if s[1] == 't' then Prepend('\t', ReadChars(s[2..]))
      else if s[1] == 'u' && |s| >= 6 && IsHexDigit(s[2]) && IsHexDigit(s[3])
              && IsHexDigit(s[4]) && IsHexDigit(s[5]) then
        var n := HexValue(s[2]) * 4096 + HexValue(s[3]) * 256 + HexValue(s[4]) * 16 + HexValue(s[5]);
        if n < 0xD800 || 0xE000 <= n then Prepend(n as char, ReadChars(s[6..])) else None
      else None
    else if s[0] < ' ' then None
    else Prepend(s[0], ReadChars(s[1..]))
  }

  /** Reads a string literal at the start of `s`. */
  function ReadString(s: string): (r: Option<(string, string)>)
    ensures r.Some? ==> |r.value.1| < |s|
  {
    if |s| > 0 && s[0] == '"' then ReadChars(s[1..]) else None
  }

  /** Reading back one escaped character gives the character. */
  lemma ReadEscapedChar(c: char, t: string)
    ensures ReadChars(EscapeChar(c) + t) == Prepend(c, ReadChars(t))
  {
    if HtmlSafe(c) {
      assert (EscapeChar(c) + t)[1..] == t;
    } else if c == '"' || c == '\\' || c as int == 8 || c as int == 12 || c == '\n' || c == '\r' || c == '\t' {
      ReadShortEscape(c, t);
    } else if c as int == 0x2028 || c as int == 0x2029 {
      ReadSeparatorEscape(c, t);
    } else {
      ReadHexEscape(c, t);
    }
  }

  lemma ReadShortEscape(c: char, t: string)
    requires c == '"' || c == '\\' || c as int == 8 || c as int == 12 || c == '\n' || c == '\r' || c == '\t'
    ensures ReadChars(EscapeChar(c) + t) == Prepend(c, ReadChars(t))
  {
    var s := EscapeChar(c) + t;
    assert |EscapeChar(c)| == 2 && s[2..] == t;
  }

  lemma ReadSeparatorEscape(c: char, t: string)
    requires c as int == 0x2028 || c as int == 0x2029
    ensures ReadChars(EscapeChar(c) + t) == Prepend(c, ReadChars(t))
  {
    var e := EscapeChar(c);
    var last := if c as int == 0x2028 then '8' else '9';
    assert e == ['\\', 'u', '2', '0', '2', last];
    var s := e + t;
    assert s[0] == '\\' && s[1] == 'u' && s[2] == '2' && s[3] == '0' && s[4] == '2' && s[5] == last;
    assert HexValue(s[2]) * 4096 + HexValue(s[3]) * 256 + HexValue(s[4]) * 16 + HexValue(s[5]) == c as int;
    assert s[6..] == t;
  }

  lemma ReadHexEscape(c: char, t: string)
    requires !HtmlSafe(c) && c != '"' && c != '\\' && c as int != 8 && c as int != 12
    requires c != '\n' && c != '\r' && c != '\t' && c as int != 0x2028 && c as int != 0x2029
    ensures ReadChars(EscapeChar(c) + t) == Prepend(c, ReadChars(t))
  {
    var hi, lo := c as int / 16, c as int % 16;
    var e := EscapeChar(c);
    assert e == ['\\', 'u', '0', '0', HexDigit(hi), HexDigit(lo)];
    var s := e + t;
    assert s[2] == '0' && s[3] == '0' && s[4] == HexDigit(hi) && s[5] == HexDigit(lo);
    assert HexValue(s[2]) * 4096 + HexValue(s[3]) * 256 + HexValue(s[4]) * 16 + HexValue(s[5]) == c as int;
    assert s[6..] == t;
  }

  /** Round trip: the literal Go writes for `v` reads back as `v`, and reading
      stops right after it. */
  lemma {:induction false} ReadQuote(v: string, rest: string)
    ensures ReadString(Quote(v) + rest) == Some((v, rest))
  {
    assert Quote(v) + rest == "\"" + (EscapeChars(v) + "\"" + rest);
    assert (Quote(v) + rest)[1..] == EscapeChars(v) + "\"" + rest;
    ReadCharsEscaped(v, rest);
  }

  lemma {:induction false} ReadCharsEscaped(v: string, rest: string)
    ensures ReadChars(EscapeChars(v) + "\"" + rest) == Some((v, rest))
    decreases |v|
  {
    if v == [] {
      assert EscapeChars(v) + "\"" + rest == "\"" + rest;
      assert ("\"" + rest)[1..] == rest;
    } else {
      ReadCharsEscaped(v[1..], rest);
      assert EscapeChars(v) + "\"" + rest == EscapeChar(v[0]) + (EscapeChars(v[1..]) + "\"" + rest);
      ReadEscapedChar(v[0], EscapeChars(v[1..]) + "\"" + rest);
      assert [v[0]] + v[1..] == v;
    }
  }

  // ---------------------------------------------------------------------------
  // Integers

  predicate IsDigit(c: char) { '0' <= c <= '9' }

  function DigitChar(d: nat): (c: char)
    requires d < 10
    ensures IsDigit(c) && DigitValue(c) == d
  {
    ('0' as int + d) as char
  }

  /** Decimal digits of `n` with no leading zero, as `strconv` writes them. */
  function NatText(n: nat): (r: string)
    ensures |r| >= 1 && forall i :: 0 <= i < |r| ==> IsDigit(r[i])
  {
    if n < 10 then [DigitChar(n)] else NatText(n / 10) + [DigitChar(n % 10)]
  }

  /** The JSON number Go writes for an `int`. */
  function IntText(n: int): string {
    if n < 0 then "-" + NatText(-n) else NatText(n)
  }

  function DigitValue(c: char): (d: nat)
    requires IsDigit(c)
    ensures d < 10
  {
    c as int - '0' as int
  }

  /** The value of a string of decimal digits. */
  function DigitsValue(d: string): nat
    requires forall i :: 0 <= i < |d| ==> IsDigit(d[i])
  {
    if d == [] then 0 else DigitsValue(d[..|d| - 1]) * 10 + DigitValue(d[|d| - 1])
  }

  /** The length of the run of digits at the start of `s`. */
  function DigitRun(s: string): (k: nat)
    ensures k <= |s| && forall i :: 0 <= i < k ==> IsDigit(s[i])
    ensures k < |s| ==> !IsDigit(s[k])
  {
    if s != [] && IsDigit(s[0]) then 1 + DigitRun(s[1..]) else 0
  }

  /** Reads an integer at the start of `s`: an optional minus sign and at least
      one digit. */
  function ReadInt(s: string): (r: Option<(int, string)>)
    ensures r.Some? ==> |r.value.1| < |s|
  {
    if |s| > 0 && s[0] == '-' then
      var k := DigitRun(s[1..]);
      var v: int := DigitsValue(s[1..][..k]);
      if k == 0 then None else Some((-v, s[1..][k..]))
    else
      var k := DigitRun(s);
      if k == 0 then None else Some((DigitsValue(s[..k]), s[k..]))
  }

  lemma {:induction false} DigitsValueOfText(n: nat)
    ensures DigitsValue(NatText(n)) == n
  {
    if n >= 10 {
      DigitsValueOfText(n / 10);
      var t := NatText(n);
      assert t[..|t| - 1] == NatText(n / 10);
    }
  }

  lemma {:induction false} DigitRunOver(d: string, rest: string)
    requires forall i :: 0 <= i < |d| ==> IsDigit(d[i])
    requires rest == [] || !IsDigit(rest[0])
    ensures DigitRun(d + rest) == |d|
    decreases |d|
  {
    if d != [] {
      assert (d + rest)[1..] == d[1..] + rest;
      DigitRunOver(d[1..], rest);
    }
  }

  /** Round trip: the digits Go writes for `n` read back as `n` when what follows
      does not start with a digit (in `Result.Bytes` a comma follows). */
  lemma ReadIntText(n: int, rest: string)
    requires rest == [] || !IsDigit(rest[0])
    ensures ReadInt(IntText(n) + rest) == Some((n, rest))
  {
    if n < 0 {
      assert IntText(n) + rest == "-" + (NatText(-n) + rest);
      ReadNegativeText(-n, rest);
    } else {
      ReadNaturalText(n, rest);
    }
  }

  lemma ReadNaturalText(n: nat, rest: string)
    requires rest == [] || !IsDigit(rest[0])
    ensures ReadInt(NatText(n) + rest) == Some((n, rest))
  {
    assert (NatText(n) + rest)[0] == NatText(n)[0];
    ReadDigits(n, rest);
  }

  lemma ReadNegativeText(n: nat, rest: string)
    requires rest == [] || !IsDigit(rest[0])
    ensures ReadInt("-" + (NatText(n) + rest)) == Some((-(n as int), rest))
  {
    var s := "-" + (NatText(n) + rest);
    assert s[0] == '-';
    assert s[1..] == NatText(n) + rest;
    ReadDigits(n, rest);
  }

  /** The digits of `n` are the whole leading run and read back as `n`. */
  lemma ReadDigits(n: nat, rest: string)
    requires rest == [] || !IsDigit(rest[0])
    ensures var s := NatText(n) + rest;
      var k := DigitRun(s);
      k == |NatText(n)| && DigitsValue(s[..k]) == n && s[k..] == rest
  {
    var t := NatText(n);
    DigitRunOver(t, rest);
    DigitsValueOfText(n);
    assert (t + rest)[..|t|] == t && (t + rest)[|t|..] == rest;
  }

  // ---------------------------------------------------------------------------
  // Objects, as Go's encoder writes a struct

  /** The two kinds of value a `Result` field holds. */
  datatype Value = Int(i: int) | Str(s: string)

  /** A field of a struct as the encoder sees it: the key and the options of its
      `json` tag (the tag `name,opt1,opt2` split at its commas) and its value. */
  datatype Field = Field(name: string, options: seq<string>, value: Value)

  /** Go's `isEmptyValue` for the two kinds. */
  predicate IsEmptyValue(v: Value) {
    match v
    case Int(i) => i == 0
    case Str(s) => s == ""
  }

  /** The member the encoder writes for one field: none when its tag carries the
      option `omitempty` and its value is empty, otherwise the tag's key with the
      value. */
  function EmitOne(f: Field): (r: seq<(string, Value)>)
    ensures r == [] <==> ("omitempty" in f.options && IsEmptyValue(f.value))
    ensures r != [] ==> r == [(f.name, f.value)]
  {
    if "omitempty" in f.options && IsEmptyValue(f.value) then []
    else [(f.name, f.value)]
  }

  /** The members the encoder writes, in field order. */
  function Emitted(fields: seq<Field>): seq<(string, Value)> {
    if fields == [] then [] else EmitOne(fields[0]) + Emitted(fields[1..])
  }

  lemma EmittedCons(f: Field, fs: seq<Field>)
    ensures Emitted([f] + fs) == EmitOne(f) + Emitted(fs)
  {
    assert ([f] + fs)[1..] == fs;
  }

  function RenderValue(v: Value): string {
    match v
    case Int(i) => IntText(i)
    case Str(s) => Quote(s)
  }

  function RenderMember(m: (string, Value)): string {
    Quote(m.0) + ":" + RenderValue(m.1)
  }

  /** Members separated by commas. */
  function RenderMembers(ms: seq<(string, Value)>): string {
    if ms == [] then ""
    else if |ms| == 1 then RenderMember(ms[0])
    else RenderMember(ms[0]) + "," + RenderMembers(ms[1..])
  }

  /** What `json.Marshal` writes for a struct with these fields. */
  function Marshal(fields: seq<Field>): (r: string)
    ensures |r| >= 2 && r[0] == '{' && r[|r| - 1] == '}'
    ensures r == "{}" <==> Emitted(fields) == []
  {
    var ms := Emitted(fields);
    if ms != [] then
      RenderedMembersLength(ms);
      "{" + RenderMembers(ms) + "}"
    else
      "{" + RenderMembers(ms) + "}"
  }

  function ReadValue(s: string): (r: Option<(Value, string)>)
    ensures r.Some? ==> |r.value.1| < |s|
  {
    if |s| > 0 && s[0] == '"' then
      match ReadString(s)
      case None => None
      case Some(p) => Some((Str(p.0), p.1))
    else
      match ReadInt(s)
      case None => None
      case Some(p) => Some((Int(p.0), p.1))
  }

  /** Reads `"key":value`. */
  function ReadMember(s: string): (r: Option<((string, Value), string)>)
    ensures r.Some? ==> |r.value.1| < |s|
  {
    match ReadString(s)
    case None => None
    case Some(k) =>
      if |k.1| == 0 || k.1[0] != ':' then None
      else
        match ReadValue(k.1[1..])
        case None => None
        case Some(v) => Some(((k.0, v.0), v.1))
  }

  /** Reads one or more members and the closing brace, which must end the text. */
  function ReadMembers(s: string): Option<seq<(string, Value)>>
    decreases |s|
  {
    match ReadMember(s)
    case None => None
    case Some(p) =>
      if p.1 == "}" then Some([p.0])
      else if |p.1| > 0 && p.1[0] == ',' then
        match ReadMembers(p.1[1..])
        case None => None
        case Some(ms) => Some([p.0] + ms)
      else None
  }

  /** Reads a whole JSON object whose values are strings or integers. */
  function ReadObject(s: string): Option<seq<(string, Value)>> {
    if s == "{}" then Some([])
    else if |s| > 0 && s[0] == '{' then ReadMembers(s[1..])
    else None
  }

  lemma ReadRenderedMember(m: (string, Value), rest: string)
    requires rest != [] && (rest[0] == ',' || rest[0] == '}')
    ensures ReadMember(RenderMember(m) + rest) == Some((m, rest))
  {
    var valueText := RenderValue(m.1) + rest;
    assert RenderMember(m) + rest == Quote(m.0) + (":" + valueText);
    ReadQuote(m.0, ":" + valueText);
    assert (":" + valueText)[1..] == valueText;
    ReadRenderedValue(m.1, rest);
  }

  /** A rendered value is read back, leaving what follows it. */
  lemma ReadRenderedValue(v: Value, rest: string)
    requires rest != [] && (rest[0] == ',' || rest[0] == '}')
    ensures ReadValue(RenderValue(v) + rest) == Some((v, rest))
  {
    match v
    case Int(i) => ReadRenderedInt(i, rest);
    case Str(t) => ReadQuote(t, rest);
  }

  lemma ReadRenderedInt(i: int, rest: string)
    requires rest != [] && (rest[0] == ',' || rest[0] == '}')
    ensures ReadValue(IntText(i) + rest) == Some((Int(i), rest))
  {
    ReadIntText(i, rest);
    if i < 0 {
      assert (IntText(i) + rest)[0] == '-';
    } else {
      assert (IntText(i) + rest)[0] == NatText(i)[0];
    }
  }

  lemma ReadMembersStep(s: string, m: (string, Value), rest: string, ms: seq<(string, Value)>)
    requires ReadMember(s) == Some((m, rest)) && rest != [] && rest[0] == ','
    requires ReadMembers(rest[1..]) == Some(ms)
    ensures ReadMembers(s) == Some([m] + ms)
  {
  }

  lemma ReadMembersLast(s: string, m: (string, Value))
    requires ReadMember(s) == Some((m, "}"))
    ensures ReadMembers(s) == Some([m])
  {
  }

  lemma Regroup<T>(a: seq<T>, b: seq<T>, c: seq<T>, d: seq<T>)
    ensures a + b + c + d == a + (b + (c + d))
  {
  }

  lemma ReadMembersCons(m: (string, Value), t: string, ms: seq<(string, Value)>)
    requires ReadMembers(t) == Some(ms)
    ensures ReadMembers(RenderMember(m) + ("," + t)) == Some([m] + ms)
  {
    ReadRenderedMember(m, "," + t);
    assert ("," + t)[1..] == t;
    ReadMembersStep(RenderMember(m) + ("," + t), m, "," + t, ms);
  }

  lemma {:induction false} ReadRenderedMembers(ms: seq<(string, Value)>)
    requires ms != []
    ensures ReadMembers(RenderMembers(ms) + "}") == Some(ms)
    decreases |ms|
  {
    if |ms| == 1 {
      ReadRenderedMember(ms[0], "}");
      ReadMembersLast(RenderMember(ms[0]) + "}", ms[0]);
      assert [ms[0]] == ms;
    } else {
      var head, body := RenderMember(ms[0]), RenderMembers(ms[1..]);
      ReadRenderedMembers(ms[1..]);
      ReadMembersCons(ms[0], body + "}", ms[1..]);
      assert RenderMembers(ms) == head + "," + body;
      Regroup(head, ",", body, "}");
      assert [ms[0]] + ms[1..] == ms;
    }
  }

  /** Round trip: reading what `Marshal` writes gives back exactly the emitted
      members, keys and values, in field order. */
  lemma ReadMarshal(fields: seq<Field>)
    ensures ReadObject(Marshal(fields)) == Some(Emitted(fields))
  {
    var ms := Emitted(fields);
    var r := RenderMembers(ms);
    assert Marshal(fields) == "{" + (r + "}");
    if ms == [] {
      assert "{" + (r + "}") == "{}";
    } else {
      RenderedMembersLength(ms);
      ReadObjectBrace(r + "}");
      ReadRenderedMembers(ms);
    }
  }

  /** Members take at least the two quotes of the first key. */
  lemma RenderedMembersLength(ms: seq<(string, Value)>)
    requires ms != []
    ensures |RenderMembers(ms)| >= 2
  {
    assert |Quote(ms[0].0)| >= 2;
  }

  /** An object with something other than a bare closing brace is read as members. */
  lemma ReadObjectBrace(t: string)
    requires |t| >= 2
    ensures ReadObject("{" + t) == ReadMembers(t)
  {
    assert ("{" + t)[1..] == t;
    assert |"{" + t| > 2;
  }
}
