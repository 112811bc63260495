/** Reading the vCard the contact bot sends: the file is accepted when it
    looks like a vCard, and the contact's display name is taken from its
    `FN` property. */
module Vcard {
  import opened Wrappers
  import opened JsStrings

  const BeginMarker := "BEGIN:VCARD"
  const EndMarker := "END:VCARD"
  const DefaultName := "Kontak"

  /** An accepted file: its content, unchanged, and the name to show. */
  datatype VcardData = VcardData(content: string, displayName: string)

  predicate IsLineBreak(c: char) {
    c == '\n' || c == '\r'
  }

  /** `FN` in any case starts at `p`. */
  predicate IsFnAt(c: string, p: int) {
    0 <= p && p + 2 <= |c| && LowerAscii(c[p]) == 'f' && LowerAscii(c[p + 1]) == 'n'
  }

  /** The first `:` at or after `i`, if any. */
  function ColonFrom(c: string, i: nat): (r: Option<nat>)
    ensures r.Some? ==> i <= r.value < |c| && c[r.value] == ':'
    ensures forall j :: i <= j < |c| && (r.None? || j < r.value) ==> c[j] != ':'
    decreases |c| - i
  {
    if i >= |c| then None
    else if c[i] == ':' then Some(i)
    else ColonFrom(c, i + 1)
  }

  /** The first line break at or after `i`, or the end of `c`. */
  function LineEndFrom(c: string, i: nat): (e: nat)
    requires i <= |c|
    ensures i <= e <= |c|
    ensures forall j :: i <= j < e ==> !IsLineBreak(c[j])
    ensures e < |c| ==> IsLineBreak(c[e])
    decreases |c| - i
  {
    if i == |c| || IsLineBreak(c[i]) then i else LineEndFrom(c, i + 1)
  }

  /** What `/FN[^:]*:([^\n\r]+)/i` captures when its match starts at `p`:
      `[^:]*` runs up to the first colon after `FN`, and the capture is the
      rest of that line, which must not be empty. */
  function MatchAt(c: string, p: nat): Option<string> {
    if !IsFnAt(c, p) then None
    else match ColonFrom(c, p + 2)
      case None => None
      case Some(q) =>
        var e := LineEndFrom(c, q + 1);
        if e > q + 1 then Some(c[q + 1..e]) else None
  }

  /** The regular expression's meaning, written independently of how it is
      searched: `FN` at `p`, a colon at `q` with no colon between them, and
      `v` the whole non-empty rest of the line after the colon. */
  predicate MatchesAs(c: string, p: nat, q: nat, v: string) {
    && IsFnAt(c, p) && p + 2 <= q && q + 1 + |v| <= |c| && c[q] == ':'
    && (forall j :: p + 2 <= j < q ==> c[j] != ':')
    && v != [] && c[q + 1..q + 1 + |v|] == v
    && (forall j :: 0 <= j < |v| ==> !IsLineBreak(v[j]))
    && (q + 1 + |v| == |c| || IsLineBreak(c[q + 1 + |v|]))
  }

  /** The search agrees with the declarative reading of the pattern: a
      match at `p` captures `v` exactly when `v` is what the pattern
      describes there. */
  lemma MatchAtMeaning(c: string, p: nat, v: string)
    ensures MatchAt(c, p) == Some(v) <==> exists q :: MatchesAs(c, p, q, v)
  {
    if MatchAt(c, p) == Some(v) {
      var q := ColonFrom(c, p + 2).value;
      var e := LineEndFrom(c, q + 1);
      assert v == c[q + 1..e];
      assert MatchesAs(c, p, q, v);
    }
    if q: nat :| MatchesAs(c, p, q, v) {
      var q' := ColonFrom(c, p + 2);
      assert q'.Some? && q'.value == q by {
        assert c[q] == ':';
      }
      assert LineEndFrom(c, q + 1) == q + 1 + |v| by {
        assert forall j :: q + 1 <= j < q + 1 + |v| ==> c[j] == v[j - q - 1];
      }
    }
  }

  /** The leftmost start at or after `p` where the pattern matches. */
  function FnMatchFrom(c: string, p: nat): Option<string>
    decreases |c| + 1 - p
  {
    if p > |c| then None
    else if MatchAt(c, p).Some? then MatchAt(c, p)
    else FnMatchFrom(c, p + 1)
  }

  /** `content.match(/FN[^:]*:([^\n\r]+)/i)`, captured group 1. */
  function FnMatch(c: string): Option<string> {
    FnMatchFrom(c, 0)
  }

  /** The search from `p` finds the match of the leftmost start from `p`
      on, and finds nothing only when no start from `p` on matches. */
  lemma {:induction false} FnMatchFromLeftmost(c: string, p: nat) returns (k: nat)
    ensures FnMatchFrom(c, p).Some? ==>
      p <= k <= |c| && FnMatchFrom(c, p) == MatchAt(c, k)
      && forall j :: p <= j < k ==> MatchAt(c, j).None?
    ensures FnMatchFrom(c, p).None? ==> forall j :: p <= j <= |c| ==> MatchAt(c, j).None?
    decreases |c| + 1 - p
  {
    if p > |c| {
      k := p;
    } else if MatchAt(c, p).Some? {
      k := p;
    } else {
      k := FnMatchFromLeftmost(c, p + 1);
      forall j | p <= j <= |c| && FnMatchFrom(c, p).None?
        ensures MatchAt(c, j).None?
      {
        if j > p {
          assert FnMatchFrom(c, p + 1).None?;
        }
      }
    }
  }

  /** The capture comes from the leftmost start where the pattern matches;
      there is none exactly when the pattern matches nowhere. */
  lemma FnMatchLeftmost(c: string)
    ensures FnMatch(c).None? <==> forall j :: 0 <= j <= |c| ==> MatchAt(c, j).None?
    ensures FnMatch(c).Some? ==>
      exists k, q ::
        && 0 <= k <= |c| && MatchesAs(c, k, q, FnMatch(c).value)
        && forall j :: 0 <= j < k ==> MatchAt(c, j).None?
  {
    var k := FnMatchFromLeftmost(c, 0);
    if FnMatch(c).Some? {
      assert MatchAt(c, k).Some?;
      MatchAtMeaning(c, k, FnMatch(c).value);
    }
  }

  /** `fnMatch[1].trim().replace(/[;]/g, ' ').trim()`: no semicolon and no
      whitespace at either end remain, and it is empty exactly when the
      value was whitespace and semicolons only. */
  function NormalizeName(v: string): (r: string)
    ensures ';' !in r && Trimmed(r)
    ensures r == [] <==> AllSpace(SemicolonsToSpaces(Trim(v)))
  {
    var s := SemicolonsToSpaces(Trim(v));
    var r := Trim(s);
    TrimAddsNothing(s, ';');
    r
  }

  /** Normalising a normalised name changes nothing. */
  lemma NormalizeNameIdempotent(v: string)
    ensures NormalizeName(NormalizeName(v)) == NormalizeName(v)
  {
    var n := NormalizeName(v);
    TrimKeepsTrimmed(n);
    assert SemicolonsToSpaces(n) == n;
  }

  /** `readVcardFile()` once the file is read: `file` is its content, or
      nothing when it is missing or cannot be read. It is accepted exactly
      when both markers occur in it; the content is kept unchanged, and the
      name is the normalised `FN` value, or `Kontak` when there is none or
      it normalises to nothing. */
  function ReadVcard(file: Option<string>): (r: Option<VcardData>)
    ensures r.Some? <==> file.Some? && Includes(file.value, BeginMarker) && Includes(file.value, EndMarker)
    ensures r.Some? ==> r.value.content == file.value
    ensures r.Some? ==> r.value.displayName != "" && ';' !in r.value.displayName && Trimmed(r.value.displayName)
    ensures r.Some? && FnMatch(file.value).None? ==> r.value.displayName == DefaultName
    ensures r.Some? && FnMatch(file.value).Some? && NormalizeName(FnMatch(file.value).value) != "" ==>
      r.value.displayName == NormalizeName(FnMatch(file.value).value)
    ensures r.Some? && FnMatch(file.value).Some? && NormalizeName(FnMatch(file.value).value) == "" ==>
      r.value.displayName == DefaultName
  {
    match file
    case None => None
    case Some(c) =>
      if !Includes(c, BeginMarker) || !Includes(c, EndMarker) then None
      else
        var name := match FnMatch(c) case None => DefaultName case Some(v) => NormalizeName(v);
        Some(VcardData(c, if name == "" then DefaultName else name))
  }
}
