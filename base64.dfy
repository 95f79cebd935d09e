/** Standard base64 with padding, RFC 4648 section 4, as Go's
    `base64.StdEncoding.EncodeToString` writes it, and a decoder for that form. */
module Base64 {

  import opened Base

  /** The character for the 6-bit value `d`: `A`-`Z`, `a`-`z`, `0`-`9`, `+`, `/`. */
  function CharOf(d: nat): (c: char)
    requires d < 64
    ensures IsBase64Char(c) && ValueOf(c) == d
  {
    if d < 26 then ('A' as int + d) as char
    else if d < 52 then ('a' as int + d - 26) as char
    else if d < 62 then ('0' as int + d - 52) as char
    else if d == 62 then '+'
    else '/'
  }

  predicate IsBase64Char(c: char) {
    ('A' <= c <= 'Z') || ('a' <= c <= 'z') || ('0' <= c <= '9') || c == '+' || c == '/'
  }

  function ValueOf(c: char): (d: nat)
    requires IsBase64Char(c)
    ensures d < 64
  {
    if 'A' <= c <= 'Z' then c as int - 'A' as int
    else if 'a' <= c <= 'z' then c as int - 'a' as int + 26
    else if '0' <= c <= '9' then c as int - '0' as int + 52
    else if c == '+' then 62
    else 63
  }

  /** Four characters for three bytes. */
  function Group3(b0: byte, b1: byte, b2: byte): string {
    [CharOf(b0 / 4), CharOf((b0 % 4) * 16 + b1 / 16), CharOf((b1 % 16) * 4 + b2 / 64), CharOf(b2 % 64)]
  }

  /** The padded encoding of `b`: four characters per three bytes, the last group
      completed with `=` when `|b|` is not a multiple of three. */
  function Encode(b: seq<byte>): (s: string)
    ensures |s| == 4 * ((|b| + 2) / 3)
    decreases |b|
  {
    if |b| == 0 then ""
    else if |b| == 1 then [CharOf(b[0] / 4), CharOf((b[0] % 4) * 16), '=', '=']
    else if |b| == 2 then [CharOf(b[0] / 4), CharOf((b[0] % 4) * 16 + b[1] / 16), CharOf((b[1] % 16) * 4), '=']
    else Group3(b[0], b[1], b[2]) + Encode(b[3..])
  }

  /** Reads padded base64 back into bytes; `None` for text that is not of that form. */
  function Decode(s: string): Option<seq<byte>>
    decreases |s|
  {
    if |s| == 0 then Some([])
    else if |s| < 4 || !IsBase64Char(s[0]) || !IsBase64Char(s[1]) then None
    else
      var c0, c1 := ValueOf(s[0]), ValueOf(s[1]);
      var b0: byte := c0 * 4 + c1 / 16;
      if s[2] == '=' then
        if s[3] == '=' && |s| == 4 then Some([b0]) else None
      else if !IsBase64Char(s[2]) then None
      else
        var c2 := ValueOf(s[2]);
        var b1: byte := (c1 % 16) * 16 + c2 / 4;
        if s[3] == '=' then
          if |s| == 4 then Some([b0, b1]) else None
        else if !IsBase64Char(s[3]) then None
        else
          var b2: byte := (c2 % 4) * 64 + ValueOf(s[3]);
          match Decode(s[4..])
          case None => None
          case Some(tail) => Some([b0, b1, b2] + tail)
  }

  /** Every character of an encoding is from the alphabet or is the pad `=`. */
  lemma {:induction false} EncodeAlphabet(b: seq<byte>)
    ensures forall i :: 0 <= i < |Encode(b)| ==> IsBase64Char(Encode(b)[i]) || Encode(b)[i] == '='
    decreases |b|
  {
    if |b| >= 3 {
      EncodeAlphabet(b[3..]);
      var s := Encode(b);
      assert s == Group3(b[0], b[1], b[2]) + Encode(b[3..]);
      forall i | 4 <= i < |s| ensures s[i] == Encode(b[3..])[i - 4] { }
    }
  }

  lemma SplitFirst(b0: byte, b1: byte)
    ensures ((b0 % 4) * 16 + b1 / 16) / 16 == b0 % 4
    ensures ((b0 % 4) * 16 + b1 / 16) % 16 == b1 / 16
    ensures (b0 / 4) * 4 + b0 % 4 == b0
  {
  }

  lemma SplitSecond(b1: byte, b2: byte)
    ensures ((b1 % 16) * 4 + b2 / 64) / 4 == b1 % 16
    ensures ((b1 % 16) * 4 + b2 / 64) % 4 == b2 / 64
    ensures (b1 / 16) * 16 + b1 % 16 == b1
    ensures (b2 / 64) * 64 + b2 % 64 == b2
  {
  }

  lemma DecodeOne(b0: byte)
    ensures Decode([CharOf(b0 / 4), CharOf((b0 % 4) * 16), '=', '=']) == Some([b0])
  {
    SplitFirst(b0, 0);
  }

  lemma DecodeTwo(b0: byte, b1: byte)
    ensures Decode([CharOf(b0 / 4), CharOf((b0 % 4) * 16 + b1 / 16), CharOf((b1 % 16) * 4), '=']) == Some([b0, b1])
  {
    SplitFirst(b0, b1);
    SplitSecond(b1, 0);
  }

  lemma DecodeGroup(b0: byte, b1: byte, b2: byte, t: string, tail: seq<byte>)
    requires Decode(t) == Some(tail)
    ensures Decode(Group3(b0, b1, b2) + t) == Some([b0, b1, b2] + tail)
  {
    SplitFirst(b0, b1);
    SplitSecond(b1, b2);
    var s := Group3(b0, b1, b2) + t;
    assert s[0] == CharOf(b0 / 4) && s[1] == CharOf((b0 % 4) * 16 + b1 / 16);
    assert s[2] == CharOf((b1 % 16) * 4 + b2 / 64) && s[3] == CharOf(b2 % 64);
    assert s[4..] == t;
  }

  /** Round trip: decoding an encoding gives back the bytes. */
  lemma {:induction false} DecodeEncode(b: seq<byte>)
    ensures Decode(Encode(b)) == Some(b)
    decreases |b|
  {
    if |b| == 1 {
      DecodeOne(b[0]);
      assert [b[0]] == b;
    } else if |b| == 2 {
      DecodeTwo(b[0], b[1]);
      assert [b[0], b[1]] == b;
    } else if |b| >= 3 {
      DecodeEncode(b[3..]);
      DecodeGroup(b[0], b[1], b[2], Encode(b[3..]), b[3..]);
      assert [b[0], b[1], b[2]] + b[3..] == b;
    }
  }
}
