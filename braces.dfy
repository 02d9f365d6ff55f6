/** `re.findall(r"\{[^{}]*\}", s)`: every substring that opens with `{`,
    closes with `}` and has no brace in between, scanned left to right. */
module Braces {

  predicate IsBrace(c: char) {
    c == '{' || c == '}'
  }

  /** A flat object: `{`, any brace-free text, `}`. */
  predicate IsFlat(t: string) {
    |t| >= 2 && t[0] == '{' && t[|t| - 1] == '}'
    && forall k :: 0 < k < |t| - 1 ==> !IsBrace(t[k])
  }

  /** The first brace at or after `i`, or `|s|` if there is none; the
      pattern's `[^{}]*` runs from just after a `{` up to it. */
  function NextBrace(s: string, i: nat): (j: nat)
    requires i <= |s|
    ensures i <= j <= |s|
    ensures forall k :: i <= k < j ==> !IsBrace(s[k])
    ensures j < |s| ==> IsBrace(s[j])
    decreases |s| - i
  {
    if i == |s| || IsBrace(s[i]) then i else NextBrace(s, i + 1)
  }

  /** The pattern matches at `i`: a `{` there whose next brace is a `}`. */
  predicate MatchesAt(s: string, i: nat) {
    i < |s| && s[i] == '{' && NextBrace(s, i + 1) < |s| && s[NextBrace(s, i + 1)] == '}'
  }

  /** The start positions the scanner reports from `i` on: after a match
      it resumes just past the closing brace, otherwise one position on. */
  function MatchStarts(s: string, i: nat): (st: seq<nat>)
    requires i <= |s|
    ensures forall k :: 0 <= k < |st| ==> i <= st[k] && MatchesAt(s, st[k])
    ensures forall k, l :: 0 <= k < l < |st| ==> st[k] < st[l]
    decreases |s| - i
  {
    if i == |s| then []
    else if MatchesAt(s, i) then [i] + MatchStarts(s, NextBrace(s, i + 1) + 1)
    else MatchStarts(s, i + 1)
  }

  /** The text of the match that starts at `i`. */
  function MatchText(s: string, i: nat): (t: string)
    requires MatchesAt(s, i)
    ensures IsFlat(t)
  {
    var j := NextBrace(s, i + 1);
    var t := s[i..j + 1];
    assert forall k :: 0 < k < |t| - 1 ==> t[k] == s[i + k];
    t
  }

  /** `re.findall(r"\{[^{}]*\}", s)`. */
  function FindAll(s: string): (ms: seq<string>)
    ensures |ms| == |MatchStarts(s, 0)|
    ensures forall k :: 0 <= k < |ms| ==> IsFlat(ms[k])
  {
    var st := MatchStarts(s, 0);
    seq(|st|, k requires 0 <= k < |st| => MatchText(s, st[k]))
  }

  /** `s[a..b + 1]` is a flat object. */
  predicate FlatAt(s: string, a: nat, b: nat) {
    a < b < |s| && IsFlat(s[a..b + 1])
  }

  /** A flat object occurring at `a` is always found by the scan from any
      earlier position: the scanner never steps over a `{` that starts one. */
  lemma {:induction false} ScanFindsFlat(s: string, i: nat, a: nat, b: nat)
    requires i <= a < b < |s|
    requires IsFlat(s[a..b + 1])
    ensures a in MatchStarts(s, i)
    decreases |s| - i
  {
    var t := s[a..b + 1];
    assert s[a] == t[0] && s[b] == t[|t| - 1];
    assert forall k :: a < k < b ==> s[k] == t[k - a];
    assert NextBrace(s, a + 1) == b by { NextBraceIs(s, a + 1, b); }
    if i == a {
    } else if MatchesAt(s, i) {
      var e := NextBrace(s, i + 1);
      // `a` is a brace, so it is not strictly inside the match at `i`.
      assert IsBrace(s[a]) && s[e] == '}';
      assert e < a;
      ScanFindsFlat(s, e + 1, a, b);
    } else {
      ScanFindsFlat(s, i + 1, a, b);
    }
  }

  /** `NextBrace` from `i` is the first brace at or after `i`. */
  lemma {:induction false} NextBraceIs(s: string, i: nat, j: nat)
    requires i <= j < |s| && IsBrace(s[j])
    requires forall k :: i <= k < j ==> !IsBrace(s[k])
    ensures NextBrace(s, i) == j
    decreases j - i
  {
    if i < j {
      NextBraceIs(s, i + 1, j);
    }
  }

  /** The matches are exactly the flat objects of `s`, left to right: the
      k-th match is the flat object starting at the k-th reported position,
      the positions increase, and every flat object's start is reported. */
  lemma FindAllExact(s: string)
    ensures var ms, st := FindAll(s), MatchStarts(s, 0);
      (forall k :: 0 <= k < |st| ==> st[k] + |ms[k]| <= |s| && ms[k] == s[st[k]..st[k] + |ms[k]|])
      && (forall k, l :: 0 <= k < l < |st| ==> st[k] < st[l])
      && (forall a, b :: FlatAt(s, a, b) ==> a in st)
  {
    forall a, b | FlatAt(s, a, b)
      ensures a in MatchStarts(s, 0)
    {
      ScanFindsFlat(s, 0, a, b);
    }
  }

  /** Text wrapped around one flat object still yields it as a match. */
  lemma WrappedObjectFound(prose: string, obj: string, tail: string)
    requires IsFlat(obj)
    ensures obj in FindAll(prose + obj + tail)
  {
    var s := prose + obj + tail;
    var a, b := |prose|, |prose| + |obj| - 1;
    assert s[a..b + 1] == obj;
    ScanFindsFlat(s, 0, a, b);
    var st := MatchStarts(s, 0);
    var k :| 0 <= k < |st| && st[k] == a;
    assert NextBrace(s, a + 1) == b by {
      assert forall j :: a < j < b ==> s[j] == obj[j - a];
      NextBraceIs(s, a + 1, b);
    }
    assert FindAll(s)[k] == obj;
  }
}
