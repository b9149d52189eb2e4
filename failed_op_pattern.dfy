/** The regular expression `/FailedOp\((.*)\)/` of the error normaliser,
    evaluated as JavaScript's `String.prototype.match` does without the `g`
    or `s` flags: the leftmost match, with `.*` greedy, where `.` matches
    every character except a line terminator. */
module FailedOpPattern {
  import opened Wrappers
  import opened JsSemantics

  /** The literal part `FailedOp\(` of the pattern. */
  const FailedOpOpen: string := "FailedOp("

  /** The characters `.` does not match. */
  predicate IsLineTerminator(c: char) {
    c == '\n' || c == '\r' || c == '\U{2028}' || c == '\U{2029}'
  }

  /** No line terminator among `s[from..to]`. */
  ghost predicate LineFree(s: string, from: nat, to: nat) {
    forall m :: from <= m < to && m < |s| ==> !IsLineTerminator(s[m])
  }

  /** `.*\)` can match `s[from..j+1]`: a `)` at `j` reachable from `from` within one line. */
  ghost predicate CloseAt(s: string, from: nat, j: nat) {
    from <= j < |s| && s[j] == ')' && LineFree(s, from, j)
  }

  /** The whole pattern matches `s[i..j+1]`; the capture is `s[i + 9..j]`. */
  ghost predicate MatchAt(s: string, i: nat, j: nat) {
    OccursAt(s, FailedOpOpen, i) && CloseAt(s, i + |FailedOpOpen|, j)
  }

  /** The leftmost match starting at or after `from`, with the greedy `.*`
      taking the longest line it can: no match starts in `from..i`, and no
      match starting at `i` reaches past `j`. */
  ghost predicate LeftmostGreedyFrom(s: string, from: nat, i: nat, j: nat) {
    from <= i && MatchAt(s, i, j) &&
    (forall i': nat, j': nat :: from <= i' < i ==> !MatchAt(s, i', j')) &&
    (forall j': nat :: MatchAt(s, i, j') ==> j' <= j)
  }

  /** The match JavaScript reports for the whole string. */
  ghost predicate IsRegexMatch(s: string, i: nat, j: nat) {
    LeftmostGreedyFrom(s, 0, i, j)
  }

  /** The last `)` reachable from `from` before a line terminator or the end. */
  function LastClose(s: string, from: nat): (r: Option<nat>)
    ensures r.Some? ==> CloseAt(s, from, r.value)
    ensures forall j: nat :: CloseAt(s, from, j) ==> r.Some? && j <= r.value
    decreases |s| - from
  {
    if from >= |s| || IsLineTerminator(s[from]) then None
    else
      var rest := LastClose(s, from + 1);
      assert forall j: nat :: CloseAt(s, from, j) && from < j ==> CloseAt(s, from + 1, j);
      if rest.Some? then rest
      else if s[from] == ')' then Some(from)
      else None
  }

  /** The positions `(i, j)` of the leftmost-greedy match starting at or after `from`. */
  function FindMatch(s: string, from: nat): (r: Option<(nat, nat)>)
    ensures r.None? <==> forall i: nat, j: nat :: from <= i ==> !MatchAt(s, i, j)
    ensures r.Some? ==> LeftmostGreedyFrom(s, from, r.value.0, r.value.1)
    decreases |s| - from
  {
    if from + |FailedOpOpen| > |s| then None
    else
      var close := LastClose(s, from + |FailedOpOpen|);
      if OccursAt(s, FailedOpOpen, from) && close.Some? then
        assert MatchAt(s, from, close.value);
        Some((from, close.value))
      else
        assert forall j: nat :: !MatchAt(s, from, j);
        NoMatchAtStart(s, from);
        FindMatch(s, from + 1)
  }

  /** When no match starts at `from`, the leftmost match from `from + 1` is
      the leftmost match from `from`. */
  lemma NoMatchAtStart(s: string, from: nat)
    requires forall j: nat :: !MatchAt(s, from, j)
    ensures forall i: nat, j: nat ::
      LeftmostGreedyFrom(s, from + 1, i, j) ==> LeftmostGreedyFrom(s, from, i, j)
  {
    forall i: nat, j: nat | LeftmostGreedyFrom(s, from + 1, i, j)
      ensures LeftmostGreedyFrom(s, from, i, j)
    {
      forall i': nat, j': nat | from <= i' < i
        ensures !MatchAt(s, i', j')
      {
        if i' > from {
          assert from + 1 <= i' < i;
        }
      }
    }
  }

  /** `s.match(/FailedOp\((.*)\)/)?.[1]`. */
  function MatchFailedOp(s: string): (r: Option<string>)
    ensures r.None? <==> forall i: nat, j: nat :: !MatchAt(s, i, j)
    ensures r.Some? ==>
      exists i: nat, j: nat :: IsRegexMatch(s, i, j) && r.value == s[i + |FailedOpOpen|..j]
  {
    match FindMatch(s, 0)
    case None => None
    case Some((i, j)) =>
      assert IsRegexMatch(s, i, j);
      Some(s[i + |FailedOpOpen|..j])
  }

  /** The reported match is unique. */
  lemma RegexMatchUnique(s: string, i: nat, j: nat, i': nat, j': nat)
    requires IsRegexMatch(s, i, j) && IsRegexMatch(s, i', j')
    ensures i == i' && j == j'
  {
  }

  /** Whenever the regular expression matches, `MatchFailedOp` returns its capture. */
  lemma MatchFailedOpCapture(s: string, i: nat, j: nat)
    requires IsRegexMatch(s, i, j)
    ensures MatchFailedOp(s) == Some(s[i + |FailedOpOpen|..j])
  {
    var r := MatchFailedOp(s);
    assert r.Some? by { assert MatchAt(s, i, j); }
    var i0: nat, j0: nat :| IsRegexMatch(s, i0, j0) && r.value == s[i0 + |FailedOpOpen|..j0];
    RegexMatchUnique(s, i, j, i0, j0);
  }

  /** A match of the pattern implies the `includes('FailedOp')` guard before it holds. */
  lemma MatchImpliesIncludes(s: string)
    ensures MatchFailedOp(s).Some? ==> Includes(s, "FailedOp")
  {
    if MatchFailedOp(s).Some? {
      var i: nat, j: nat :| IsRegexMatch(s, i, j) && MatchFailedOp(s).value == s[i + |FailedOpOpen|..j];
      assert s[i..i + 8] == s[i..i + 9][..8];
      assert OccursAt(s, "FailedOp", i);
    }
  }

  /** A message that is text without `(`, then `FailedOp(x)`, then text
      without `)`, where `x` stays on one line, yields exactly `x` as the
      capture: the match starts right after the leading text and the greedy
      `.*` stops at the last `)`. */
  lemma {:induction false} CaptureAfterPrefix(pre: string, x: string, post: string)
    requires '(' !in pre
    requires forall m :: 0 <= m < |x| ==> !IsLineTerminator(x[m])
    requires ')' !in post
    ensures MatchFailedOp(pre + FailedOpOpen + x + ")" + post) == Some(x)
  {
    var s := pre + FailedOpOpen + x + ")" + post;
    var p := |pre|;
    var n := p + |FailedOpOpen|;
    var j := n + |x|;
    assert s[p..n] == FailedOpOpen;
    assert OccursAt(s, FailedOpOpen, p);
    assert s[j] == ')';
    assert forall m :: n <= m < j ==> s[m] == x[m - n];
    assert LineFree(s, n, j);
    assert MatchAt(s, p, j);
    assert forall m :: j < m < |s| ==> s[m] == post[m - j - 1];
    assert forall m :: j < m < |s| ==> s[m] != ')';
    forall i': nat, j': nat | i' < p
      ensures !MatchAt(s, i', j')
    {
      if i' + |FailedOpOpen| <= |s| {
        assert s[i' + 8] != '(' by {
          if i' + 8 < p {
            assert s[i' + 8] == pre[i' + 8];
          } else {
            assert s[i' + 8] == FailedOpOpen[i' + 8 - p];
          }
        }
        assert s[i'..i' + |FailedOpOpen|][8] == s[i' + 8];
      }
    }
    assert IsRegexMatch(s, p, j);
    MatchFailedOpCapture(s, p, j);
    assert s[n..j] == x;
  }
}
