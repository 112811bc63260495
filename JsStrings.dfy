/** The JavaScript string operations the two bots rely on, over strings as
    sequences of characters (one character per character of the JavaScript
    string). */
module JsStrings {

  /** A character that `String.prototype.trim` removes: the ECMAScript
      WhiteSpace characters (tab, vertical tab, form feed, no-break space,
      byte-order mark and the space separators) and the line terminators. */
  predicate IsJsSpace(c: char) {
    || c == '\t' || c == '\n' || c == '\U{B}' || c == '\U{C}' || c == '\r'
    || c == ' ' || c == '\U{A0}' || c == '\U{1680}'
    || ('\U{2000}' <= c <= '\U{200A}')
    || c == '\U{2028}' || c == '\U{2029}' || c == '\U{202F}' || c == '\U{205F}'
    || c == '\U{3000}' || c == '\U{FEFF}'
  }

  predicate AllSpace(s: string) {
    forall i :: 0 <= i < |s| ==> IsJsSpace(s[i])
  }

  /** No whitespace at either end: what `trim` leaves behind. */
  predicate Trimmed(s: string) {
    s == [] || (!IsJsSpace(s[0]) && !IsJsSpace(s[|s| - 1]))
  }

  /** `s.trimStart()`: drops the leading whitespace and keeps the rest. */
  function TrimStart(s: string): (r: string)
    ensures |r| <= |s| && r == s[|s| - |r|..]
    ensures AllSpace(s[..|s| - |r|])
    ensures r == [] || !IsJsSpace(r[0])
    decreases |s|
  {
    if s != [] && IsJsSpace(s[0]) then
      var r := TrimStart(s[1..]);
      assert s[..|s| - |r|] == [s[0]] + s[1..][..|s| - 1 - |r|];
      assert s[|s| - |r|..] == s[1..][|s| - 1 - |r|..];
      r
    else s
  }

  /** `s.trimEnd()`: drops the trailing whitespace and keeps the rest. */
  function TrimEnd(s: string): (r: string)
    ensures |r| <= |s| && r == s[..|r|]
    ensures AllSpace(s[|r|..])
    ensures r == [] || !IsJsSpace(r[|r| - 1])
    decreases |s|
  {
    if s != [] && IsJsSpace(s[|s| - 1]) then
      var r := TrimEnd(s[..|s| - 1]);
      assert s[|r|..] == s[..|s| - 1][|r|..] + [s[|s| - 1]];
      assert s[..|r|] == s[..|s| - 1][..|r|];
      r
    else s
  }

  /** `s.trim()`: whitespace removed from both ends; empty exactly when `s`
      is all whitespace. */
  function Trim(s: string): (r: string)
    ensures Trimmed(r)
    ensures r == [] <==> AllSpace(s)
  {
    var t := TrimStart(s);
    var r := TrimEnd(t);
    assert r == [] ==> AllSpace(s) by {
      if r == [] {
        assert AllSpace(t);
        assert s == s[..|s| - |t|] + t;
      }
    }
    r
  }

  /** `trim` keeps a middle slice of `s` whose surroundings are whitespace. */
  lemma {:induction false} TrimSlice(s: string) returns (i: nat)
    ensures i + |Trim(s)| <= |s| && Trim(s) == s[i..i + |Trim(s)|]
    ensures AllSpace(s[..i]) && AllSpace(s[i + |Trim(s)|..])
  {
    var t := TrimStart(s);
    var r := TrimEnd(t);
    i := |s| - |t|;
    assert t == s[i..];
    assert r == t[..|r|];
    assert s[i + |r|..] == t[|r|..];
  }

  /** `trim` adds no character that was not there. */
  lemma TrimAddsNothing(s: string, c: char)
    ensures c in Trim(s) ==> c in s
  {
    if c in Trim(s) {
      var i := TrimSlice(s);
      var k :| 0 <= k < |Trim(s)| && Trim(s)[k] == c;
      assert s[i + k] == c;
    }
  }

  /** `trim` leaves a string without whitespace at its ends unchanged, so
      trimming twice is trimming once. */
  lemma TrimKeepsTrimmed(s: string)
    ensures Trimmed(s) <==> Trim(s) == s
  {
    if Trimmed(s) {
      assert TrimStart(s) == s;
      assert TrimEnd(s) == s;
    }
  }

  /** `s.startsWith(p)`. */
  predicate StartsWith(s: string, p: string) {
    |p| <= |s| && s[..|p|] == p
  }

  /** `s.endsWith(p)`. */
  predicate EndsWith(s: string, p: string) {
    |p| <= |s| && s[|s| - |p|..] == p
  }

  predicate OccursAt(s: string, p: string, i: int) {
    0 <= i && i + |p| <= |s| && s[i..i + |p|] == p
  }

  /** `s.includes(p)`: `p` occurs somewhere in `s`. */
  predicate Includes(s: string, p: string) {
    exists i :: 0 <= i <= |s| - |p| && OccursAt(s, p, i)
  }

  function LowerAscii(c: char): char {
    if 'A' <= c <= 'Z' then (c as int + 32) as char else c
  }

  /** `s.toLowerCase()` restricted to ASCII letters. */
  function ToLowerAscii(s: string): (r: string)
    ensures |r| == |s|
    ensures forall i :: 0 <= i < |s| ==> r[i] == LowerAscii(s[i])
  {
    seq(|s|, i requires 0 <= i < |s| => LowerAscii(s[i]))
  }

  /** `s.split('@')[0]`: everything before the first `@`, or all of `s`
      when it has none. */
  function BeforeAt(s: string): (r: string)
    ensures StartsWith(s, r)
    ensures '@' !in r
    ensures |r| < |s| ==> s[|r|] == '@'
    decreases |s|
  {
    if s == [] || s[0] == '@' then [] else [s[0]] + BeforeAt(s[1..])
  }

  /** `s.replace(/[;]/g, ' ')`. */
  function SemicolonsToSpaces(s: string): (r: string)
    ensures |r| == |s| && ';' !in r
    ensures forall i :: 0 <= i < |s| && s[i] != ';' ==> r[i] == s[i]
    ensures forall i :: 0 <= i < |s| && s[i] == ';' ==> r[i] == ' '
  {
    seq(|s|, i requires 0 <= i < |s| => if s[i] == ';' then ' ' else s[i])
  }
}
