/** The parts of Go's `strings` package the core relies on: `strings.ToLower` and
    `strings.Contains`. */
module Strings {

  /** `p` is a prefix of `s`. */
  predicate IsPrefix<T(==)>(p: seq<T>, s: seq<T>) {
    |p| <= |s| && s[..|p|] == p
  }

  /** `strings.Contains(s, sub)`: `sub` occurs somewhere in `s` (the empty string
      occurs everywhere). */
  predicate Contains(s: string, sub: string)
    decreases |s|
  {
    IsPrefix(sub, s) || (|s| > 0 && Contains(s[1..], sub))
  }

  /** `unicode.ToLower` on the characters that matter to the model. It is exact on
      every character that Go lower-cases INTO the ASCII range: `A`-`Z`, U+0130
      (capital I with dot above, lower-cased by Go to plain `i`) and U+212A (the
      Kelvin sign, lower-cased to `k`). Other non-ASCII characters are returned
      unchanged, which differs from Go only by one non-ASCII character for
      another, so tests against ASCII text come out the same. */
  function LowerChar(c: char): (r: char)
    ensures ('A' <= c <= 'Z') ==> r as int == c as int + 32
    ensures (c as int < 128 && !('A' <= c <= 'Z')) ==> r == c
    ensures r as int < 128 <==> (c as int < 128 || c as int == 0x130 || c as int == 0x212A)
  {
    if 'A' <= c <= 'Z' then (c as int + 32) as char
    else if c as int == 0x130 then 'i'
    else if c as int == 0x212A then 'k'
    else c
  }

  /** `strings.ToLower(s)`: character by character. */
  function ToLower(s: string): (r: string)
    ensures |r| == |s|
    ensures forall i :: 0 <= i < |s| ==> r[i] == LowerChar(s[i])
  {
    seq(|s|, i requires 0 <= i < |s| => LowerChar(s[i]))
  }

  /** An occurrence of `sub` at position `i` is found by `Contains`, and every
      success of `Contains` comes from such a position. */
  lemma {:induction false} ContainsAt(s: string, sub: string)
    ensures Contains(s, sub) <==> exists i :: 0 <= i && i + |sub| <= |s| && IsPrefix(sub, s[i..])
    decreases |s|
  {
    assert s[0..] == s;
    if |s| > 0 && !IsPrefix(sub, s) {
      ContainsAt(s[1..], sub);
      if Contains(s[1..], sub) {
        var i :| 0 <= i && i + |sub| <= |s[1..]| && IsPrefix(sub, s[1..][i..]);
        assert s[1..][i..] == s[i + 1..];
      }
      forall i | 0 < i && i + |sub| <= |s| && IsPrefix(sub, s[i..])
        ensures Contains(s[1..], sub)
      {
        assert s[1..][i - 1..] == s[i..];
      }
    }
  }
}
