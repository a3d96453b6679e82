/**
 * The Swift standard-library string operations the core relies on, on strings as
 * sequences of characters: `split(separator:)` (empty pieces omitted), `joined(separator:)`,
 * `hasSuffix`, and `replacingOccurrences(of:with:)`.
 */
module Strings {
  import opened Utils

  /** `xs.joined(separator: sep)`. */
  function Join(xs: seq<string>, sep: string): string
    decreases |xs|
  {
    if |xs| == 0 then ""
    else if |xs| == 1 then xs[0]
    else xs[0] + sep + Join(xs[1..], sep)
  }

  /** Length of the longest prefix of `s` free of `c`. */
  function RunLength(s: string, c: char): (k: nat)
    ensures k <= |s|
    ensures forall i :: 0 <= i < k ==> s[i] != c
    ensures k < |s| ==> s[k] == c
    decreases |s|
  {
    if |s| == 0 || s[0] == c then 0 else 1 + RunLength(s[1..], c)
  }

  /** `s.split(separator: sep)`: the maximal runs free of `sep`, empty runs omitted. */
  function Split(s: string, sep: char): (parts: seq<string>)
    ensures forall i :: 0 <= i < |parts| ==> |parts[i]| > 0 && sep !in parts[i]
    decreases |s|
  {
    if |s| == 0 then []
    else if s[0] == sep then Split(s[1..], sep)
    else
      var k := RunLength(s, sep);
      [s[..k]] + Split(s[k..], sep)
  }

  lemma {:induction false} RunLengthOfJoin(a: string, c: char, b: string)
    requires c !in a
    ensures RunLength(a + [c] + b, c) == |a|
    decreases |a|
  {
    if |a| > 0 {
      assert (a + [c] + b)[1..] == a[1..] + [c] + b;
      RunLengthOfJoin(a[1..], c, b);
    }
  }

  /** Splitting a joined list of non-empty, separator-free pieces gives the pieces back. */
  lemma {:induction false} SplitJoin(xs: seq<string>, sep: char)
    requires forall i :: 0 <= i < |xs| ==> |xs[i]| > 0 && sep !in xs[i]
    ensures Split(Join(xs, [sep]), sep) == xs
    decreases |xs|
  {
    if |xs| == 1 {
      var x := xs[0];
      assert x[RunLength(x, sep)..] == [];
      assert x[..RunLength(x, sep)] == x;
    } else if |xs| > 1 {
      var s := Join(xs, [sep]);
      var rest := Join(xs[1..], [sep]);
      assert s == xs[0] + [sep] + rest;
      RunLengthOfJoin(xs[0], sep, rest);
      assert s[..|xs[0]|] == xs[0];
      assert s[|xs[0]|..] == [sep] + rest;
      assert ([sep] + rest)[1..] == rest;
      SplitJoin(xs[1..], sep);
    }
  }

  /** Where the i-th piece starts in `Join(xs, sep)`: the earlier pieces, each followed by a separator. */
  function JoinOffset(xs: seq<string>, sep: string, i: nat): nat
    requires i <= |xs|
    decreases i
  {
    if i == 0 then 0 else |xs[0]| + |sep| + JoinOffset(xs[1..], sep, i - 1)
  }

  /** The offsets advance by a piece and a separator. */
  lemma {:induction false} JoinOffsetStep(xs: seq<string>, sep: string, i: nat)
    requires i < |xs|
    ensures JoinOffset(xs, sep, i + 1) == JoinOffset(xs, sep, i) + |xs[i]| + |sep|
    decreases i
  {
    if i > 0 {
      JoinOffsetStep(xs[1..], sep, i - 1);
      assert xs[1..][i - 1] == xs[i];
    }
  }

  /** From the offset of piece i on, a joined string is the join of the pieces from i on. */
  lemma {:induction false} JoinDrop(xs: seq<string>, sep: string, i: nat)
    requires i < |xs|
    ensures JoinOffset(xs, sep, i) <= |Join(xs, sep)|
    ensures Join(xs, sep)[JoinOffset(xs, sep, i)..] == Join(xs[i..], sep)
    decreases i
  {
    if i == 0 {
      assert xs[0..] == xs;
    } else {
      var s := Join(xs, sep);
      var rest := Join(xs[1..], sep);
      var head := |xs[0]| + |sep|;
      assert s == xs[0] + sep + rest;
      JoinDrop(xs[1..], sep, i - 1);
      var o := JoinOffset(xs[1..], sep, i - 1);
      assert xs[1..][i - 1..] == xs[i..];
      assert s[head..] == rest;
      assert s[head + o..] == rest[o..];
    }
  }

  /**
   * The layout of a joined string: piece i sits at its offset and is followed by the
   * separator when another piece comes after it, and the last piece ends the string.
   */
  lemma JoinLayout(xs: seq<string>, sep: string, i: nat)
    requires i < |xs|
    ensures JoinOffset(xs, sep, i) + |xs[i]| <= |Join(xs, sep)|
    ensures Join(xs, sep)[JoinOffset(xs, sep, i)..JoinOffset(xs, sep, i) + |xs[i]|] == xs[i]
    ensures i + 1 < |xs| ==> JoinOffset(xs, sep, i + 1) == JoinOffset(xs, sep, i) + |xs[i]| + |sep|
    ensures i + 1 < |xs| ==> JoinOffset(xs, sep, i + 1) <= |Join(xs, sep)|
    ensures i + 1 < |xs| ==> Join(xs, sep)[JoinOffset(xs, sep, i) + |xs[i]|..JoinOffset(xs, sep, i + 1)] == sep
    ensures i + 1 == |xs| ==> |Join(xs, sep)| == JoinOffset(xs, sep, i) + |xs[i]|
  {
    var s := Join(xs, sep);
    var o := JoinOffset(xs, sep, i);
    JoinDrop(xs, sep, i);
    JoinOffsetStep(xs, sep, i);
    var t := xs[i..];
    var tail := s[o..];
    assert tail == Join(t, sep);
    if i + 1 < |xs| {
      assert tail == xs[i] + sep + Join(t[1..], sep);
      assert tail[..|xs[i]|] == xs[i] && tail[|xs[i]|..|xs[i]| + |sep|] == sep;
      SliceOfDrop(s, o, 0, |xs[i]|);
      SliceOfDrop(s, o, |xs[i]|, |xs[i]| + |sep|);
    } else {
      assert t == [xs[i]];
      assert tail == xs[i];
      SliceOfDrop(s, o, 0, |xs[i]|);
      assert tail[0..|xs[i]|] == tail;
    }
  }

  /** `s` with every occurrence of `c` removed. */
  function Remove(s: string, c: char): (r: string)
    ensures c !in r
    decreases |s|
  {
    if |s| == 0 then "" else (if s[0] == c then "" else [s[0]]) + Remove(s[1..], c)
  }

  lemma {:induction false} RemoveAppend(a: string, b: string, c: char)
    ensures Remove(a + b, c) == Remove(a, c) + Remove(b, c)
    decreases |a|
  {
    if |a| > 0 {
      assert (a + b)[1..] == a[1..] + b;
      RemoveAppend(a[1..], b, c);
    } else {
      assert a + b == b;
    }
  }

  lemma {:induction false} RemoveAbsent(a: string, c: char)
    requires c !in a
    ensures Remove(a, c) == a
    decreases |a|
  {
    if |a| > 0 {
      RemoveAbsent(a[1..], c);
    }
  }

  /** Removing the separator from a join of separator-free pieces concatenates the pieces. */
  lemma {:induction false} RemoveSeparators(xs: seq<string>, c: char)
    requires forall i :: 0 <= i < |xs| ==> c !in xs[i]
    ensures Remove(Join(xs, [c]), c) == Flatten(xs)
    decreases |xs|
  {
    if |xs| == 1 {
      RemoveAbsent(xs[0], c);
      assert Flatten(xs) == xs[0] + Flatten(xs[1..]);
    } else if |xs| > 1 {
      RemoveSeparators(xs[1..], c);
      RemoveAppend(xs[0] + [c], Join(xs[1..], [c]), c);
      RemoveAppend(xs[0], [c], c);
      RemoveAbsent(xs[0], c);
      assert Remove([c], c) == "";
    }
  }

  /** `s.hasSuffix(suffix)`. */
  predicate EndsWith(s: string, suffix: string) {
    |suffix| <= |s| && s[|s| - |suffix|..] == suffix
  }

  predicate OccursAt(s: string, pat: string, j: int) {
    0 <= j && j + |pat| <= |s| && s[j..j + |pat|] == pat
  }

  /**
   * `s.replacingOccurrences(of: pat, with: rep)`: scans left to right and replaces each
   * occurrence that does not overlap an earlier replaced one; the replacement text is not
   * scanned again.
   */
  function ReplaceAll(s: string, pat: string, rep: string): string
    requires |pat| > 0
    decreases |s|
  {
    if |s| < |pat| then s
    else if s[..|pat|] == pat then rep + ReplaceAll(s[|pat|..], pat, rep)
    else [s[0]] + ReplaceAll(s[1..], pat, rep)
  }

  /** The number of occurrences `ReplaceAll` replaces. */
  function Occurrences(s: string, pat: string): nat
    requires |pat| > 0
    decreases |s|
  {
    if |s| < |pat| then 0
    else if s[..|pat|] == pat then 1 + Occurrences(s[|pat|..], pat)
    else Occurrences(s[1..], pat)
  }

  /** Nothing but the occurrences changes: replacing a pattern by itself is the identity. */
  lemma {:induction false} ReplaceBySelf(s: string, pat: string)
    requires |pat| > 0
    ensures ReplaceAll(s, pat, pat) == s
    decreases |s|
  {
    if |s| >= |pat| {
      if s[..|pat|] == pat {
        ReplaceBySelf(s[|pat|..], pat);
        assert s == pat + s[|pat|..];
      } else {
        ReplaceBySelf(s[1..], pat);
        assert s == [s[0]] + s[1..];
      }
    }
  }

  /** A string without an occurrence of the pattern is left unchanged. */
  lemma {:induction false} ReplaceAbsent(s: string, pat: string, rep: string)
    requires |pat| > 0
    requires forall j :: !OccursAt(s, pat, j)
    ensures ReplaceAll(s, pat, rep) == s
    ensures Occurrences(s, pat) == 0
    decreases |s|
  {
    if |s| >= |pat| {
      assert !OccursAt(s, pat, 0);
      forall j ensures !OccursAt(s[1..], pat, j) {
        if OccursAt(s[1..], pat, j) {
          assert s[1..][j..j + |pat|] == s[j + 1..j + 1 + |pat|];
          assert OccursAt(s, pat, j + 1);
        }
      }
      ReplaceAbsent(s[1..], pat, rep);
      assert s == [s[0]] + s[1..];
    }
  }

  /** No occurrence of `pat` in `a + b` starts inside `a` and ends inside `b`. */
  ghost predicate NoStraddle(a: string, b: string, pat: string) {
    forall j :: 0 <= j < |a| < j + |pat| ==> !OccursAt(a + b, pat, j)
  }

  /** Dropping a prefix of `a` keeps the no-straddle property. */
  lemma NoStraddleDrop(a: string, b: string, pat: string, d: nat)
    requires |pat| > 0 && d <= |a| && NoStraddle(a, b, pat)
    ensures NoStraddle(a[d..], b, pat)
  {
    var a' := a[d..];
    assert a' + b == (a + b)[d..];
    forall j | 0 <= j < |a'| < j + |pat| ensures !OccursAt(a' + b, pat, j) {
      if j + |pat| <= |a' + b| {
        assert (a' + b)[j..j + |pat|] == (a + b)[j + d..j + d + |pat|];
        assert !OccursAt(a + b, pat, j + d);
      }
    }
  }

  /** An occurrence at the start of `a + b` that straddles nothing lies inside `a`. */
  lemma MatchInside(a: string, b: string, pat: string)
    requires |pat| > 0 && NoStraddle(a, b, pat) && |a| > 0
    requires |pat| <= |a + b| && (a + b)[..|pat|] == pat
    ensures |pat| <= |a| && a[..|pat|] == pat && (a + b)[|pat|..] == a[|pat|..] + b
  {
    assert OccursAt(a + b, pat, 0);
  }

  /** Without a leading occurrence the first character of `a + b` is `a`'s. */
  lemma NoMatchHead(a: string, b: string, pat: string)
    requires |pat| > 0 && |a| > 0 && |pat| <= |a + b| && (a + b)[..|pat|] != pat
    ensures (a + b)[0] == a[0] && (a + b)[1..] == a[1..] + b
    ensures |a| >= |pat| ==> a[..|pat|] != pat
  {
    if |a| >= |pat| {
      assert a[..|pat|] == (a + b)[..|pat|];
    }
  }

  /** Replacement distributes over a concatenation that no occurrence straddles. */
  lemma {:induction false} ReplaceAppend(a: string, b: string, pat: string, rep: string)
    requires |pat| > 0
    requires NoStraddle(a, b, pat)
    ensures ReplaceAll(a + b, pat, rep) == ReplaceAll(a, pat, rep) + ReplaceAll(b, pat, rep)
    decreases |a|
  {
    var s := a + b;
    if |a| == 0 {
      assert s == b;
    } else if |s| < |pat| {
      assert ReplaceAll(b, pat, rep) == b;
    } else if s[..|pat|] == pat {
      MatchInside(a, b, pat);
      NoStraddleDrop(a, b, pat, |pat|);
      ReplaceAppend(a[|pat|..], b, pat, rep);
      assert ReplaceAll(s, pat, rep) == rep + ReplaceAll(a[|pat|..] + b, pat, rep);
      assert ReplaceAll(a, pat, rep) == rep + ReplaceAll(a[|pat|..], pat, rep);
    } else {
      NoMatchHead(a, b, pat);
      NoStraddleDrop(a, b, pat, 1);
      ReplaceAppend(a[1..], b, pat, rep);
      assert ReplaceAll(s, pat, rep) == [a[0]] + ReplaceAll(a[1..] + b, pat, rep);
      if |a| >= |pat| {
        assert ReplaceAll(a, pat, rep) == [a[0]] + ReplaceAll(a[1..], pat, rep);
      } else {
        assert ReplaceAll(a, pat, rep) == a;
        assert ReplaceAll(a[1..], pat, rep) == a[1..];
        assert a == [a[0]] + a[1..];
      }
    }
  }

  /** The occurrence count is additive over a concatenation that no occurrence straddles. */
  lemma {:induction false} OccurrencesAppend(a: string, b: string, pat: string)
    requires |pat| > 0
    requires NoStraddle(a, b, pat)
    ensures Occurrences(a + b, pat) == Occurrences(a, pat) + Occurrences(b, pat)
    decreases |a|
  {
    var s := a + b;
    if |a| == 0 {
      assert s == b;
    } else if |s| < |pat| {
      assert Occurrences(b, pat) == 0;
    } else if s[..|pat|] == pat {
      MatchInside(a, b, pat);
      NoStraddleDrop(a, b, pat, |pat|);
      OccurrencesAppend(a[|pat|..], b, pat);
      assert Occurrences(s, pat) == 1 + Occurrences(a[|pat|..] + b, pat);
      assert Occurrences(a, pat) == 1 + Occurrences(a[|pat|..], pat);
    } else {
      NoMatchHead(a, b, pat);
      NoStraddleDrop(a, b, pat, 1);
      OccurrencesAppend(a[1..], b, pat);
      assert Occurrences(s, pat) == Occurrences(a[1..] + b, pat);
      if |a| >= |pat| {
        assert Occurrences(a, pat) == Occurrences(a[1..], pat);
      } else {
        assert Occurrences(a, pat) == 0;
        assert Occurrences(a[1..], pat) == 0;
      }
    }
  }

  /** A leading occurrence is replaced and the scan resumes right after it. */
  lemma ReplaceLeading(b: string, pat: string, rep: string)
    requires |pat| > 0
    ensures ReplaceAll(pat + b, pat, rep) == rep + ReplaceAll(b, pat, rep)
    ensures Occurrences(pat + b, pat) == 1 + Occurrences(b, pat)
  {
    assert (pat + b)[..|pat|] == pat;
    assert (pat + b)[|pat|..] == b;
  }

  /** A prefix free of the pattern's first character passes through unchanged. */
  lemma {:induction false} ReplaceAfterPlain(a: string, b: string, pat: string, rep: string)
    requires |pat| > 0 && pat[0] !in a
    ensures ReplaceAll(a + b, pat, rep) == a + ReplaceAll(b, pat, rep)
    ensures Occurrences(a + b, pat) == Occurrences(b, pat)
  {
    forall j | 0 <= j < |a| < j + |pat| ensures !OccursAt(a + b, pat, j) {
      assert (a + b)[j] == a[j];
    }
    forall j ensures !OccursAt(a, pat, j) {
      if 0 <= j && j + |pat| <= |a| {
        assert a[j..j + |pat|][0] == a[j];
      }
    }
    ReplaceAbsent(a, pat, rep);
    ReplaceAppend(a, b, pat, rep);
    OccurrencesAppend(a, b, pat);
  }
}
