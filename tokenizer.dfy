/**
 * The byte-level BPE tokenizer of the LLM package (Sources/LLM/Tokenizer.swift).
 *
 * Text is cut into pieces by a pre-tokenisation pattern, each piece's UTF-8 bytes are
 * spelled with one printable glyph per byte, and each glyph string is merged bottom-up by
 * the merge ranks read from the merges text; the resulting symbols are looked up in the
 * vocabulary. The pattern matcher, the UTF-8 coder and the byte/glyph tables are not
 * part of this model's code and are fields of the `Tokenizer` value, constrained by
 * `Tokenizer.Valid`.
 */
module Tokenizing {
  import opened Utils
  import opened Strings

  type byte = b: int | 0 <= b < 256

  /** An ordered pair of adjacent symbols; equality and hashing use both members. */
  datatype BytePair = BytePair(a: string, b: string)

  type Ranks = map<BytePair, int>

  /** Two different pairs never share a rank. */
  ghost predicate DistinctRanks(ranks: Ranks) {
    forall p, q :: p in ranks && q in ranks && ranks[p] == ranks[q] ==> p == q
  }

  // ---------------------------------------------------------------------------
  // Merge ranks (Tokenizer.init)
  // ---------------------------------------------------------------------------

  /** Every line after the first (a header) names at least two space-separated symbols. */
  predicate WellFormedMerges(lines: seq<string>) {
    forall i :: 1 <= i < |lines| ==> |Split(lines[i], ' ')| >= 2
  }

  /** `BytePair(tuple:)` of a merge line: its first two fields. */
  function PairOf(line: string): BytePair
    requires |Split(line, ' ')| >= 2
  {
    BytePair(Split(line, ' ')[0], Split(line, ' ')[1])
  }

  /** The pair named by each line (a placeholder for the header line 0, which is never read). */
  function LinePairs(lines: seq<string>): (ps: seq<BytePair>)
    requires WellFormedMerges(lines)
    ensures |ps| == |lines|
    ensures forall k :: 1 <= k < |lines| ==> ps[k] == PairOf(lines[k])
  {
    seq(|lines|, k requires 0 <= k < |lines| => if k == 0 then BytePair("", "") else PairOf(lines[k]))
  }

  /**
   * The rank table read from the first `n` line pairs of `ps`: every line after the first
   * contributes its pair, and a pair's rank is one less than the index of the last line
   * that names it.
   */
  ghost predicate RanksUpTo(ranks: Ranks, ps: seq<BytePair>, n: int)
    requires n <= |ps|
  {
    && (forall k :: 1 <= k < n ==> ps[k] in ranks)
    && (forall p {:trigger ranks[p]} :: p in ranks ==> 0 <= ranks[p] && ranks[p] + 1 < n && ps[ranks[p] + 1] == p)
    && (forall p, j :: p in ranks && ranks[p] + 1 < j < n ==> ps[j] != p)
  }

  ghost predicate RanksOf(ranks: Ranks, ps: seq<BytePair>) {
    RanksUpTo(ranks, ps, |ps|)
  }

  /** Reading line `i` stores its pair with rank i - 1. */
  lemma RanksUpToStep(ranks: Ranks, ps: seq<BytePair>, i: int)
    requires 1 <= i < |ps| && RanksUpTo(ranks, ps, i)
    ensures RanksUpTo(ranks[ps[i] := i - 1], ps, i + 1)
  {
    var next := ranks[ps[i] := i - 1];
    forall k | 1 <= k < i + 1 ensures ps[k] in next {
    }
    forall p | p in next ensures 0 <= next[p] && next[p] + 1 < i + 1 && ps[next[p] + 1] == p {
      if p != ps[i] {
        assert next[p] == ranks[p];
      }
    }
    forall p, j | p in next && next[p] + 1 < j < i + 1 ensures ps[j] != p {
      if p != ps[i] {
        assert next[p] == ranks[p];
      }
    }
  }

  /**
   * The rank loop of `init`: line i of the merges text (non-empty lines, the first one
   * skipped) is stored with rank i - 1, a later line overwriting an earlier one.
   */
  method BuildRanks(mergesText: string) returns (ranks: Ranks)
    requires WellFormedMerges(Split(mergesText, '\n'))
    ensures RanksOf(ranks, LinePairs(Split(mergesText, '\n')))
  {
    var lines := Split(mergesText, '\n');
    ghost var ps := LinePairs(lines);
    ranks := map[];
    if |lines| > 0 {
      for i := 1 to |lines|
        invariant RanksUpTo(ranks, ps, i)
      {
        var tuple := Split(lines[i], ' ');
        var bp := BytePair(tuple[0], tuple[1]);
        assert bp == ps[i];
        RanksUpToStep(ranks, ps, i);
        ranks := ranks[bp := i - 1];
      }
    }
  }

  /**
   * What the rank table means: its keys are exactly the pairs of lines 1.., line k's pair
   * has rank k - 1 exactly when no later line names the same pair, and ranks are distinct.
   */
  lemma RanksOfLines(ranks: Ranks, ps: seq<BytePair>)
    requires RanksOf(ranks, ps)
    ensures DistinctRanks(ranks)
    ensures forall p :: p in ranks <==> exists k :: 1 <= k < |ps| && ps[k] == p
    ensures forall k :: 1 <= k < |ps| ==> (ranks[ps[k]] == k - 1 <==> forall j :: k < j < |ps| ==> ps[j] != ps[k])
  {
    forall p, q | p in ranks && q in ranks && ranks[p] == ranks[q] ensures p == q {
      assert ps[ranks[p] + 1] == p && ps[ranks[q] + 1] == q;
    }
    forall p | p in ranks ensures exists k :: 1 <= k < |ps| && ps[k] == p {
      assert ps[ranks[p] + 1] == p;
    }
    forall k | 1 <= k < |ps| && forall j :: k < j < |ps| ==> ps[j] != ps[k]
      ensures ranks[ps[k]] == k - 1
    {
      var r := ranks[ps[k]];
    }
  }

  // ---------------------------------------------------------------------------
  // Symbol pairs and one merge pass
  // ---------------------------------------------------------------------------

  /** The pair starting at position `i`. */
  function PairAt(word: seq<string>, i: int): BytePair
    requires 0 <= i < |word| - 1
  {
    BytePair(word[i], word[i + 1])
  }

  /** The set of adjacent pairs of `word`. */
  ghost function Pairs(word: seq<string>): set<BytePair> {
    set i | 0 <= i < |word| - 1 :: PairAt(word, i)
  }

  /** `getPairs`: collects the adjacent pairs; the source's range traps on an empty word. */
  method GetPairs(word: seq<string>) returns (s: set<BytePair>)
    requires |word| >= 1
    ensures forall p :: p in s <==> exists i :: 0 <= i < |word| - 1 && p == PairAt(word, i)
    ensures s == Pairs(word)
  {
    s := {};
    for i := 0 to |word| - 1
      invariant forall p :: p in s <==> exists k :: 0 <= k < i && p == PairAt(word, k)
    {
      s := s + {PairAt(word, i)};
    }
  }

  /** The pairs of `word` that have a rank (the `bigrams` filter). */
  ghost function Ranked(ranks: Ranks, word: seq<string>): set<BytePair> {
    set p | p in Pairs(word) && p in ranks
  }

  /**
   * One merge pass: scanning left to right, every occurrence of `first` directly followed
   * by `second` becomes the single symbol `first + second`; a merged symbol is not looked
   * at again, so occurrences never overlap.
   */
  function MergePass(word: seq<string>, first: string, second: string): seq<string>
    decreases |word|
  {
    if |word| == 0 then []
    else if |word| >= 2 && word[0] == first && word[1] == second then
      [first + second] + MergePass(word[2..], first, second)
    else
      [word[0]] + MergePass(word[1..], first, second)
  }

  /** The first position at or after `from` holding `x` (`firstIndex(of:)` on a slice). */
  function FirstIndexFrom(word: seq<string>, from: nat, x: string): (r: Option<nat>)
    requires from <= |word|
    ensures r.Some? ==>
      from <= r.value < |word| && word[r.value] == x && forall k :: from <= k < r.value ==> word[k] != x
    ensures r.None? ==> forall k :: from <= k < |word| ==> word[k] != x
    decreases |word| - from
  {
    if from == |word| then None
    else if word[from] == x then Some(from)
    else FirstIndexFrom(word, from + 1, x)
  }

  /** A stretch without `first` passes through a merge pass unchanged. */
  lemma {:induction false} MergePassSkip(word: seq<string>, i: nat, j: nat, first: string, second: string)
    requires i <= j <= |word|
    requires forall k :: i <= k < j ==> word[k] != first
    ensures MergePass(word[i..], first, second) == word[i..j] + MergePass(word[j..], first, second)
    decreases j - i
  {
    if i < j {
      MergePassSkip(word, i + 1, j, first, second);
      MergePassStep(word, i, first, second);
      assert word[i..j] == [word[i]] + word[i + 1..j];
      AppendAssoc([word[i]], word[i + 1..j], MergePass(word[j..], first, second));
    }
  }

  /** One step of a merge pass at position `i`. */
  lemma MergePassStep(word: seq<string>, i: nat, first: string, second: string)
    requires i < |word|
    ensures i < |word| - 1 && word[i] == first && word[i + 1] == second ==>
      MergePass(word[i..], first, second) == [first + second] + MergePass(word[i + 2..], first, second)
    ensures !(i < |word| - 1 && word[i] == first && word[i + 1] == second) ==>
      MergePass(word[i..], first, second) == [word[i]] + MergePass(word[i + 1..], first, second)
  {
    assert word[i..][1..] == word[i + 1..];
    if i < |word| - 1 {
      assert word[i..][2..] == word[i + 2..];
    }
  }

  /** Copying the stretch before the next `first`, then merging or copying it, keeps the pass on track. */
  lemma MergeAt(word: seq<string>, i: nat, j: nat, first: string, second: string,
                done: seq<string>, target: seq<string>)
    requires i <= j < |word| && word[j] == first && forall k :: i <= k < j ==> word[k] != first
    requires done + MergePass(word[i..], first, second) == target
    ensures j < |word| - 1 && word[j + 1] == second ==>
      done + word[i..j] + [first + second] + MergePass(word[j + 2..], first, second) == target
    ensures !(j < |word| - 1 && word[j + 1] == second) ==>
      done + word[i..j] + [word[j]] + MergePass(word[j + 1..], first, second) == target
  {
    MergePassSkip(word, i, j, first, second);
    AppendAssoc(done, word[i..j], MergePass(word[j..], first, second));
    MergePassStep(word, j, first, second);
    if j < |word| - 1 && word[j + 1] == second {
      AppendAssoc(done + word[i..j], [first + second], MergePass(word[j + 2..], first, second));
    } else {
      AppendAssoc(done + word[i..j], [word[j]], MergePass(word[j + 1..], first, second));
    }
  }

  /**
   * The inner loop of `bpe`: jumps to the next `first`, copies what it skipped, and either
   * merges `first second` or copies the single symbol.
   */
  method MergeOccurrences(word: seq<string>, first: string, second: string) returns (newWord: seq<string>)
    ensures newWord == MergePass(word, first, second)
  {
    ghost var target := MergePass(word, first, second);
    newWord := [];
    var i := 0;
    assert word[0..] == word;
    while i < |word|
      invariant 0 <= i <= |word|
      invariant newWord + MergePass(word[i..], first, second) == target
      decreases |word| - i
    {
      var found := FirstIndexFrom(word, i, first);
      if found.None? {
        MergePassSkip(word, i, |word|, first, second);
        assert word[|word|..] == [];
        newWord := newWord + word[i..];
        i := |word|;
        break;
      }
      var j := found.value;
      MergeAt(word, i, j, first, second, newWord, target);
      newWord := newWord + word[i..j];
      i := j;
      if word[i] == first && i < |word| - 1 && word[i + 1] == second {
        newWord := newWord + [first + second];
        i := i + 2;
      } else {
        newWord := newWord + [word[i]];
        i := i + 1;
      }
    }
    assert word[i..] == [];
  }

  /** A merge pass preserves the concatenated content. */
  lemma {:induction false} MergePassContent(word: seq<string>, first: string, second: string)
    ensures Flatten(MergePass(word, first, second)) == Flatten(word)
    decreases |word|
  {
    if |word| >= 2 && word[0] == first && word[1] == second {
      MergePassContent(word[2..], first, second);
      assert word == [word[0], word[1]] + word[2..];
      FlattenAppend([word[0], word[1]], word[2..]);
    } else if |word| > 0 {
      MergePassContent(word[1..], first, second);
      assert word == [word[0]] + word[1..];
    }
  }

  /** A merge pass never lengthens, and strictly shortens a word holding the pair. */
  lemma {:induction false} MergePassShortens(word: seq<string>, first: string, second: string)
    ensures |MergePass(word, first, second)| <= |word|
    ensures BytePair(first, second) in Pairs(word) ==> |MergePass(word, first, second)| < |word|
    decreases |word|
  {
    if |word| >= 2 && word[0] == first && word[1] == second {
      MergePassShortens(word[2..], first, second);
    } else if |word| > 0 {
      MergePassShortens(word[1..], first, second);
      if BytePair(first, second) in Pairs(word) {
        var i :| 0 <= i < |word| - 1 && PairAt(word, i) == BytePair(first, second);
        assert i != 0;
        assert PairAt(word[1..], i - 1) in Pairs(word[1..]);
      }
    }
  }

  /** A word without the pair is left unchanged. */
  lemma {:induction false} MergePassAbsent(word: seq<string>, first: string, second: string)
    requires BytePair(first, second) !in Pairs(word)
    ensures MergePass(word, first, second) == word
    decreases |word|
  {
    if |word| > 0 {
      assert |word| >= 2 ==> PairAt(word, 0) in Pairs(word);
      assert Pairs(word[1..]) <= Pairs(word) by {
        forall p | p in Pairs(word[1..]) ensures p in Pairs(word) {
          var i :| 0 <= i < |word[1..]| - 1 && p == PairAt(word[1..], i);
          assert p == PairAt(word, i + 1);
        }
      }
      MergePassAbsent(word[1..], first, second);
      assert word == [word[0]] + word[1..];
    }
  }

  predicate NonEmptySymbols(word: seq<string>) {
    forall i :: 0 <= i < |word| ==> word[i] != ""
  }

  /** A pair absent from `r` and not formed with its new head is absent from `[x] + r`. */
  lemma PairsCons(x: string, r: seq<string>, q: BytePair)
    requires q !in Pairs(r) && (|r| > 0 ==> BytePair(x, r[0]) != q)
    ensures q !in Pairs([x] + r)
  {
    var w := [x] + r;
    forall i | 0 <= i < |w| - 1 ensures PairAt(w, i) != q {
      if i > 0 {
        assert PairAt(w, i) == PairAt(r, i - 1);
      }
    }
  }

  lemma NonEmptyCons(x: string, r: seq<string>)
    requires x != "" && NonEmptySymbols(r)
    ensures NonEmptySymbols([x] + r)
  {
    var w := [x] + r;
    forall i | 0 < i < |w| ensures w[i] != "" {
      assert w[i] == r[i - 1];
    }
  }

  /** The first symbol of a pass is the word's first symbol or the merged pair. */
  lemma MergePassHead(word: seq<string>, first: string, second: string)
    requires |word| > 0
    ensures |MergePass(word, first, second)| > 0
    ensures MergePass(word, first, second)[0] == word[0]
      || (MergePass(word, first, second)[0] == first + second && word[0] == first)
  {
  }

  /**
   * With non-empty symbols, a pass leaves no adjacent `first second` behind, and every
   * symbol of the result is non-empty.
   */
  lemma {:induction false} MergePassRemovesPair(word: seq<string>, first: string, second: string)
    requires first != "" && second != "" && NonEmptySymbols(word)
    ensures BytePair(first, second) !in Pairs(MergePass(word, first, second))
    ensures NonEmptySymbols(MergePass(word, first, second))
    decreases |word|
  {
    if |word| > 0 {
      var merged := |word| >= 2 && word[0] == first && word[1] == second;
      var rest := if merged then word[2..] else word[1..];
      var x := if merged then first + second else word[0];
      MergePassRemovesPair(rest, first, second);
      var r' := MergePass(rest, first, second);
      assert MergePass(word, first, second) == [x] + r';
      if |r'| > 0 {
        MergePassHead(rest, first, second);
        if merged {
          assert |x| > |first|;
        } else if x == first {
          assert |rest| > 0 && rest[0] != second;
          assert |first + second| > |second|;
        }
      }
      PairsCons(x, r', BytePair(first, second));
      NonEmptyCons(x, r');
    }
  }

  // ---------------------------------------------------------------------------
  // The merge loop (bpe)
  // ---------------------------------------------------------------------------

  /** `p` is a ranked pair of `ps` with the smallest rank among them. */
  predicate IsLowest(ranks: Ranks, ps: set<BytePair>, p: BytePair) {
    p in ps && p in ranks && forall q :: q in ps && q in ranks ==> ranks[p] <= ranks[q]
  }

  lemma {:induction false} LowestExists(ranks: Ranks, ps: set<BytePair>)
    requires exists p :: p in ps && p in ranks
    ensures exists p :: IsLowest(ranks, ps, p)
    decreases |ps|
  {
    var p :| p in ps && p in ranks;
    var others := ps - {p};
    if q :| q in others && q in ranks {
      LowestExists(ranks, others);
      var m :| IsLowest(ranks, others, m);
      if ranks[p] <= ranks[m] {
        assert IsLowest(ranks, ps, p);
      } else {
        assert IsLowest(ranks, ps, m);
      }
    } else {
      assert IsLowest(ranks, ps, p);
    }
  }

  /** With distinct ranks the lowest pair is unique, whatever order the set is scanned in. */
  lemma LowestUnique(ranks: Ranks, ps: set<BytePair>, p: BytePair, q: BytePair)
    requires DistinctRanks(ranks) && IsLowest(ranks, ps, p) && IsLowest(ranks, ps, q)
    ensures p == q
  {
  }

  /** The lowest-ranked pair present. */
  ghost function Lowest(ranks: Ranks, ps: set<BytePair>): (p: BytePair)
    requires exists q :: q in ps && q in ranks
    ensures IsLowest(ranks, ps, p)
  {
    LowestExists(ranks, ps);
    var p :| IsLowest(ranks, ps, p); p
  }

  /**
   * The symbols `bpe` ends with: repeatedly merge the lowest-ranked adjacent pair, until one
   * symbol remains or no adjacent pair has a rank.
   */
  ghost function MergeAll(ranks: Ranks, word: seq<string>): seq<string>
    decreases |word|
  {
    if |word| <= 1 || Ranked(ranks, word) == {} then word
    else
      var bigram := Lowest(ranks, Pairs(word));
      MergePassShortens(word, bigram.a, bigram.b);
      MergeAll(ranks, MergePass(word, bigram.a, bigram.b))
  }

  /** `Array(token).map { String($0) }`: one symbol per character. */
  function Symbols(token: string): (word: seq<string>)
    ensures |word| == |token|
    ensures forall i :: 0 <= i < |token| ==> word[i] == [token[i]]
  {
    seq(|token|, i requires 0 <= i < |token| => [token[i]])
  }

  lemma {:induction false} SymbolsContent(token: string)
    ensures Flatten(Symbols(token)) == token
    decreases |token|
  {
    if |token| > 0 {
      var w := Symbols(token);
      SymbolsContent(token[1..]);
      assert w[1..] == Symbols(token[1..]);
      assert Flatten(w) == [token[0]] + Flatten(w[1..]);
      assert token == [token[0]] + token[1..];
    }
  }

  /** Merging never changes the concatenated content. */
  lemma {:induction false} MergeAllContent(ranks: Ranks, word: seq<string>)
    ensures Flatten(MergeAll(ranks, word)) == Flatten(word)
    decreases |word|
  {
    if !(|word| <= 1 || Ranked(ranks, word) == {}) {
      var bigram := Lowest(ranks, Pairs(word));
      MergePassShortens(word, bigram.a, bigram.b);
      MergePassContent(word, bigram.a, bigram.b);
      MergeAllContent(ranks, MergePass(word, bigram.a, bigram.b));
    }
  }

  /**
   * The merge loop stops exactly when one symbol (or none) remains or no adjacent pair has
   * a rank, the symbol list never grows, and symbols stay non-empty.
   */
  lemma {:induction false} MergeAllStops(ranks: Ranks, word: seq<string>)
    requires NonEmptySymbols(word)
    ensures |MergeAll(ranks, word)| <= 1 || Ranked(ranks, MergeAll(ranks, word)) == {}
    ensures |MergeAll(ranks, word)| <= |word|
    ensures NonEmptySymbols(MergeAll(ranks, word))
    decreases |word|
  {
    if !(|word| <= 1 || Ranked(ranks, word) == {}) {
      var bigram := Lowest(ranks, Pairs(word));
      MergePassShortens(word, bigram.a, bigram.b);
      var i :| 0 <= i < |word| - 1 && PairAt(word, i) == bigram;
      MergePassRemovesPair(word, bigram.a, bigram.b);
      MergeAllStops(ranks, MergePass(word, bigram.a, bigram.b));
    }
  }

  /** A word whose every pair is unranked, or of at most one symbol, is already final. */
  lemma MergeAllFinal(ranks: Ranks, word: seq<string>)
    requires |word| <= 1 || Ranked(ranks, word) == {}
    ensures MergeAll(ranks, word) == word
  {
  }

  /** A character not in a flattened sequence is in none of its parts. */
  lemma AbsentFromParts(xs: seq<string>, c: char)
    requires c !in Flatten(xs)
    ensures forall i :: 0 <= i < |xs| ==> c !in xs[i]
  {
    forall i | 0 <= i < |xs| ensures c !in xs[i] {
      if c in xs[i] {
        FlattenMember(xs, i, c);
      }
    }
  }

  /** The string `bpe` returns: the final symbols joined by single spaces. */
  ghost function BpeString(ranks: Ranks, token: string): string {
    Join(MergeAll(ranks, Symbols(token)), " ")
  }

  /**
   * `bpe`: a token of at most one character is returned as is; otherwise the merge loop
   * runs with the lowest-ranked bigram chosen from the pair set, whose iteration order is
   * unspecified, and the final symbols are joined by spaces.
   */
  method Bpe(ranks: Ranks, token: string) returns (r: string)
    requires DistinctRanks(ranks)
    ensures |token| <= 1 ==> r == token
    ensures r == BpeString(ranks, token)
  {
    if |token| <= 1 {
      assert MergeAll(ranks, Symbols(token)) == Symbols(token);
      if |token| == 1 {
        assert Symbols(token) == [[token[0]]];
        assert token == [token[0]];
      }
      return token;
    }
    var word := Symbols(token);
    var pairs := GetPairs(word);
    while true
      invariant |word| >= 2
      invariant pairs == Pairs(word)
      invariant MergeAll(ranks, word) == MergeAll(ranks, Symbols(token))
      decreases |word|
    {
      var bigrams := set p | p in pairs && p in ranks;
      if |bigrams| == 0 {
        assert Ranked(ranks, word) == {};
        break;
      }
      LowestExists(ranks, pairs);
      var bigram :| IsLowest(ranks, pairs, bigram);
      LowestUnique(ranks, pairs, bigram, Lowest(ranks, Pairs(word)));
      var first := bigram.a;
      var second := bigram.b;
      MergePassShortens(word, first, second);
      var newWord := MergeOccurrences(word, first, second);
      word := newWord;
      if |word| == 1 {
        break;
      }
      pairs := GetPairs(word);
    }
    r := Join(word, " ");
  }

  /** `bpe` keeps the content: dropping its separating spaces gives the token back. */
  lemma BpeContent(ranks: Ranks, token: string)
    requires ' ' !in token
    ensures Remove(BpeString(ranks, token), ' ') == token
  {
    var ws := MergeAll(ranks, Symbols(token));
    MergeAllContent(ranks, Symbols(token));
    SymbolsContent(token);
    AbsentFromParts(ws, ' ');
    RemoveSeparators(ws, ' ');
  }

  /** Splitting the result of `bpe` at spaces gives exactly the final symbols. */
  lemma BpeSymbols(ranks: Ranks, token: string)
    requires ' ' !in token
    ensures Split(BpeString(ranks, token), ' ') == MergeAll(ranks, Symbols(token))
  {
    var ws := MergeAll(ranks, Symbols(token));
    MergeAllContent(ranks, Symbols(token));
    MergeAllStops(ranks, Symbols(token));
    SymbolsContent(token);
    AbsentFromParts(ws, ' ');
    SplitJoin(ws, ' ');
  }

  // ---------------------------------------------------------------------------
  // Pre-tokenisation (String.ranges(of:)) and the byte/glyph tables
  // ---------------------------------------------------------------------------

  /** A half-open range of character positions. */
  datatype Span = Span(lo: nat, hi: nat)

  /**
   * The pre-tokenisation pattern as a matcher: the first match in `s` at or after the
   * start position, or `None`.
   */
  type Matcher = (string, nat) -> Option<Span>

  /**
   * A match lies inside the searched range; an empty match is never at the end of the
   * string (the pattern has no alternative matching the empty string, and an empty match
   * at the end would make the source's loop search the same empty range forever).
   */
  predicate MatchOk(s: string, start: nat, r: Option<Span>) {
    r.Some? ==> start <= r.value.lo <= r.value.hi <= |s| && (r.value.lo == r.value.hi ==> r.value.lo < |s|)
  }

  ghost predicate MatcherOk(m: Matcher) {
    forall s: string, start: nat :: start <= |s| ==> MatchOk(s, start, m(s, start))
  }

  /** Where the next search starts: after a non-empty match, or one past an empty one. */
  function NextStart(s: string, r: Span): (next: nat)
    requires r.lo <= r.hi <= |s|
    ensures next <= |s|
  {
    if r.lo < r.hi then r.hi else if r.lo + 1 <= |s| then r.lo + 1 else |s|
  }

  /** All matches of the pattern from `start` on, in the order the search finds them. */
  ghost function MatchesFrom(m: Matcher, s: string, start: nat): seq<Span>
    requires MatcherOk(m) && start <= |s|
    decreases |s| - start
  {
    match m(s, start)
    case None => []
    case Some(r) => [r] + MatchesFrom(m, s, NextStart(s, r))
  }

  /** The matches lie in the string at or after `start`, in order, without overlapping. */
  lemma {:induction false} MatchesInOrder(m: Matcher, s: string, start: nat)
    requires MatcherOk(m) && start <= |s|
    ensures forall i :: 0 <= i < |MatchesFrom(m, s, start)| ==>
      start <= MatchesFrom(m, s, start)[i].lo <= MatchesFrom(m, s, start)[i].hi <= |s|
    ensures forall i, j :: 0 <= i < j < |MatchesFrom(m, s, start)| ==>
      MatchesFrom(m, s, start)[i].hi <= MatchesFrom(m, s, start)[j].lo
    decreases |s| - start
  {
    var found := m(s, start);
    if found.Some? {
      var r := found.value;
      var next := NextStart(s, r);
      MatchesInOrder(m, s, next);
      var ms := MatchesFrom(m, s, start);
      assert ms == [r] + MatchesFrom(m, s, next);
      assert forall i :: 0 < i < |ms| ==> ms[i] == MatchesFrom(m, s, next)[i - 1];
    }
  }

  /** `String.ranges(of:)`: collects the matches, moving the start past each one. */
  method Ranges(m: Matcher, s: string) returns (result: seq<Span>)
    requires MatcherOk(m)
    ensures result == MatchesFrom(m, s, 0)
    ensures forall i :: 0 <= i < |result| ==> result[i].lo <= result[i].hi <= |s|
    ensures forall i, j :: 0 <= i < j < |result| ==> result[i].hi <= result[j].lo
  {
    result := [];
    var start := 0;
    while true
      invariant start <= |s|
      invariant result + MatchesFrom(m, s, start) == MatchesFrom(m, s, 0)
      decreases |s| - start
    {
      var found := m(s, start);
      if found.None? {
        assert MatchesFrom(m, s, start) == [];
        break;
      }
      var range := found.value;
      assert MatchesFrom(m, s, start) == [range] + MatchesFrom(m, s, NextStart(s, range));
      AppendAssoc(result, [range], MatchesFrom(m, s, NextStart(s, range)));
      result := result + [range];
      start := if range.lo < range.hi then range.hi else if range.lo + 1 <= |s| then range.lo + 1 else |s|;
      assert start == NextStart(s, range);
    }
    assert result + [] == result;
    MatchesInOrder(m, s, 0);
  }

  /**
   * The byte/glyph tables: every byte has a glyph, the tables are mutually inverse, and
   * no glyph is a space (the space byte is spelled by a visible glyph), so the spaces
   * `bpe` puts between symbols never clash with content.
   */
  ghost predicate ByteTables(enc: map<byte, char>, dec: map<char, byte>) {
    && (forall b: byte :: b in enc && enc[b] in dec && dec[enc[b]] == b)
    && (forall c :: c in dec ==> enc[dec[c]] == c)
    && ' ' !in dec
  }

  /** `Array(token.utf8).map { byteEncoder[$0]! }.joined()`: one glyph per byte. */
  function Glyphs(enc: map<byte, char>, bytes: seq<byte>): (text: string)
    requires forall b: byte :: b in enc
    ensures |text| == |bytes|
  {
    seq(|bytes|, i requires 0 <= i < |bytes| => enc[bytes[i]])
  }

  /** `text.map { byteDecoder[String($0)]! }`: the byte behind each glyph. */
  function UnGlyphs(dec: map<char, byte>, text: string): (bytes: seq<byte>)
    requires forall c :: c in text ==> c in dec
    ensures |bytes| == |text|
  {
    seq(|text|, i requires 0 <= i < |text| => dec[text[i]])
  }

  /** Spelling bytes as glyphs and reading them back gives the bytes; no glyph is a space. */
  lemma GlyphsRoundTrip(enc: map<byte, char>, dec: map<char, byte>, bytes: seq<byte>)
    requires ByteTables(enc, dec)
    ensures ' ' !in Glyphs(enc, bytes)
    ensures forall c :: c in Glyphs(enc, bytes) ==> c in dec
    ensures UnGlyphs(dec, Glyphs(enc, bytes)) == bytes
  {
  }

  /** Glyph spelling distributes over concatenation. */
  lemma GlyphsAppend(enc: map<byte, char>, a: seq<byte>, b: seq<byte>)
    requires forall x: byte :: x in enc
    ensures Glyphs(enc, a + b) == Glyphs(enc, a) + Glyphs(enc, b)
  {
  }

  // ---------------------------------------------------------------------------
  // The tokenizer
  // ---------------------------------------------------------------------------

  /**
   * `decoder` is `invert(encoder)`: its ids are exactly the vocabulary's ids and each maps
   * back to a symbol carrying that id.
   */
  ghost predicate InverseOf(decoder: map<int, string>, encoder: map<string, int>) {
    && decoder.Keys == encoder.Values
    && (forall id :: id in decoder ==> decoder[id] in encoder && encoder[decoder[id]] == id)
    && (Injective(encoder) ==> forall s :: s in encoder ==> encoder[s] in decoder && decoder[encoder[s]] == s)
  }

  /**
   * `Tokenizer`: the merge ranks, the vocabulary and its inverse; the pre-tokenisation
   * matcher, the UTF-8 coder and the glyph tables, which the class uses but does not
   * define, are carried as fields.
   */
  datatype Tokenizer = Tokenizer(
    bpeRanks: Ranks,
    encoder: map<string, int>,
    decoder: map<int, string>,
    byteEncoder: map<byte, char>,
    byteDecoder: map<char, byte>,
    matcher: Matcher,
    utf8: string -> seq<byte>,
    utf8Decode: seq<byte> -> string)
  {
    ghost predicate Valid() {
      && DistinctRanks(bpeRanks)
      && InverseOf(decoder, encoder)
      && ByteTables(byteEncoder, byteDecoder)
      && MatcherOk(matcher)
    }

    /** Every vocabulary entry is spelled in glyphs, so any id decodes without a trap. */
    ghost predicate GlyphVocabulary() {
      forall id, k :: id in decoder && 0 <= k < |decoder[id]| ==> decoder[id][k] in byteDecoder
    }
  }

  /**
   * `Tokenizer.init`: the rank table from the merges text, the vocabulary as read, and
   * its inverse. Reading the two files is left to the caller.
   */
  method NewTokenizer(mergesText: string, vocab: map<string, int>, byteEncoder: map<byte, char>,
                      byteDecoder: map<char, byte>, matcher: Matcher, utf8: string -> seq<byte>,
                      utf8Decode: seq<byte> -> string) returns (t: Tokenizer)
    requires WellFormedMerges(Split(mergesText, '\n'))
    requires ByteTables(byteEncoder, byteDecoder) && MatcherOk(matcher)
    ensures t.Valid()
    ensures RanksOf(t.bpeRanks, LinePairs(Split(mergesText, '\n')))
    ensures t.encoder == vocab && InverseOf(t.decoder, vocab)
    ensures t.byteEncoder == byteEncoder && t.byteDecoder == byteDecoder
    ensures t.matcher == matcher && t.utf8 == utf8 && t.utf8Decode == utf8Decode
  {
    var ranks := BuildRanks(mergesText);
    RanksOfLines(ranks, LinePairs(Split(mergesText, '\n')));
    var decoder := Invert(vocab);
    t := Tokenizer(ranks, vocab, decoder, byteEncoder, byteDecoder, matcher, utf8, utf8Decode);
  }

  /** The UTF-8 bytes of each pre-tokenised piece of `text`. */
  ghost function PieceBytes(t: Tokenizer, text: string): (bs: seq<seq<byte>>)
    requires t.Valid()
  {
    MatchesInOrder(t.matcher, text, 0);
    var ms := MatchesFrom(t.matcher, text, 0);
    seq(|ms|, i requires 0 <= i < |ms| && ms[i].lo <= ms[i].hi <= |text| => t.utf8(text[ms[i].lo..ms[i].hi]))
  }

  /** The glyph spelling of each piece. */
  ghost function GlyphPieces(t: Tokenizer, bs: seq<seq<byte>>): (ps: seq<string>)
    requires t.Valid()
    ensures |ps| == |bs|
  {
    seq(|bs|, i requires 0 <= i < |bs| => Glyphs(t.byteEncoder, bs[i]))
  }

  /** `byteEncode`: the matched pieces of `text`, each spelled in glyphs. */
  method ByteEncode(t: Tokenizer, text: string) returns (pieces: seq<string>)
    requires t.Valid()
    ensures pieces == GlyphPieces(t, PieceBytes(t, text))
  {
    var ranges := Ranges(t.matcher, text);
    pieces := seq(|ranges|, i requires 0 <= i < |ranges| => Glyphs(t.byteEncoder, t.utf8(text[ranges[i].lo..ranges[i].hi])));
  }

  /** The symbols of the pieces: each piece merged by `bpe` and split at its spaces. */
  ghost function SymbolsOf(ranks: Ranks, pieces: seq<string>): seq<string>
    decreases |pieces|
  {
    if |pieces| == 0 then []
    else SymbolsOf(ranks, pieces[..|pieces| - 1]) + Split(BpeString(ranks, pieces[|pieces| - 1]), ' ')
  }

  /** The symbols `tokenize` produces for `text`. */
  ghost function TokenizeSpec(t: Tokenizer, text: string): seq<string>
    requires t.Valid()
  {
    SymbolsOf(t.bpeRanks, GlyphPieces(t, PieceBytes(t, text)))
  }

  /** `tokenize`: runs `bpe` on every piece and collects the space-separated symbols. */
  method Tokenize(t: Tokenizer, text: string) returns (tokens: seq<string>)
    requires t.Valid()
    ensures tokens == TokenizeSpec(t, text)
  {
    var pieces := ByteEncode(t, text);
    tokens := [];
    for k := 0 to |pieces|
      invariant tokens == SymbolsOf(t.bpeRanks, pieces[..k])
    {
      var merged := Bpe(t.bpeRanks, pieces[k]);
      assert pieces[..k + 1][..k] == pieces[..k];
      tokens := tokens + Split(merged, ' ');
    }
    assert pieces[..|pieces|] == pieces;
  }

  /**
   * The symbols concatenate to the glyph spelling of the pieces, and each is a non-empty
   * run of glyphs.
   */
  lemma {:induction false} TokenizeContent(ranks: Ranks, pieces: seq<string>)
    requires forall i :: 0 <= i < |pieces| ==> ' ' !in pieces[i]
    ensures Flatten(SymbolsOf(ranks, pieces)) == Flatten(pieces)
    decreases |pieces|
  {
    if |pieces| > 0 {
      var n := |pieces| - 1;
      TokenizeContent(ranks, pieces[..n]);
      BpeSymbols(ranks, pieces[n]);
      MergeAllContent(ranks, Symbols(pieces[n]));
      SymbolsContent(pieces[n]);
      FlattenAppend(SymbolsOf(ranks, pieces[..n]), Split(BpeString(ranks, pieces[n]), ' '));
      assert pieces == pieces[..n] + [pieces[n]];
      FlattenAppend(pieces[..n], [pieces[n]]);
    }
  }

  // ---------------------------------------------------------------------------
  // Vocabulary lookup (encode / decode)
  // ---------------------------------------------------------------------------

  /** The id of each symbol; a symbol missing from the vocabulary gets id 0. */
  function Lookup(encoder: map<string, int>, symbols: seq<string>): (ids: seq<int>)
    ensures |ids| == |symbols|
    ensures forall i :: 0 <= i < |symbols| && symbols[i] in encoder ==> ids[i] == encoder[symbols[i]]
    ensures forall i :: 0 <= i < |symbols| && symbols[i] !in encoder ==> ids[i] == 0
  {
    seq(|symbols|, i requires 0 <= i < |symbols| => if symbols[i] in encoder then encoder[symbols[i]] else 0)
  }

  /** `encode`: the ids of the symbols `tokenize` produces. */
  method Encode(t: Tokenizer, text: string) returns (ids: seq<int>)
    requires t.Valid()
    ensures ids == Lookup(t.encoder, TokenizeSpec(t, text))
  {
    var tokens := Tokenize(t, text);
    ids := Lookup(t.encoder, tokens);
  }

  /** The vocabulary entries of the ids concatenated; an unknown id contributes "". */
  function DecodeText(decoder: map<int, string>, ids: seq<int>): string
    decreases |ids|
  {
    if |ids| == 0 then "" else (if ids[0] in decoder then decoder[ids[0]] else "") + DecodeText(decoder, ids[1..])
  }

  /** Every character of the concatenated entries is a glyph (the source force-unwraps). */
  ghost predicate Decodable(t: Tokenizer, ids: seq<int>) {
    forall c :: c in DecodeText(t.decoder, ids) ==> c in t.byteDecoder
  }

  /** `decode`: the entries' glyphs turned back into bytes and read as UTF-8. */
  function Decode(t: Tokenizer, ids: seq<int>): string
    requires Decodable(t, ids)
  {
    t.utf8Decode(UnGlyphs(t.byteDecoder, DecodeText(t.decoder, ids)))
  }

  lemma {:induction false} DecodeTextAppend(decoder: map<int, string>, a: seq<int>, b: seq<int>)
    ensures DecodeText(decoder, a + b) == DecodeText(decoder, a) + DecodeText(decoder, b)
    decreases |a|
  {
    if |a| == 0 {
      assert a + b == b;
    } else {
      var entry := if a[0] in decoder then decoder[a[0]] else "";
      assert (a + b)[0] == a[0] && (a + b)[1..] == a[1..] + b;
      DecodeTextAppend(decoder, a[1..], b);
      assert DecodeText(decoder, a + b) == entry + DecodeText(decoder, a[1..] + b);
      assert DecodeText(decoder, a) == entry + DecodeText(decoder, a[1..]);
    }
  }

  /** An id missing from the vocabulary decodes to nothing, wherever it stands. */
  lemma DecodeDropsUnknown(decoder: map<int, string>, a: seq<int>, id: int, b: seq<int>)
    requires id !in decoder
    ensures DecodeText(decoder, a + [id] + b) == DecodeText(decoder, a + b)
  {
    DecodeTextAppend(decoder, a + [id], b);
    DecodeTextAppend(decoder, a, [id]);
    DecodeTextAppend(decoder, a, b);
    assert DecodeText(decoder, [id]) == "" + DecodeText(decoder, []);
  }

  lemma GlyphEntry(t: Tokenizer, id: int, k: int)
    requires t.GlyphVocabulary() && id in t.decoder && 0 <= k < |t.decoder[id]|
    ensures t.decoder[id][k] in t.byteDecoder
  {
  }

  /** With a vocabulary spelled in glyphs, any id sequence decodes without a trap. */
  lemma {:induction false} VocabularyDecodable(t: Tokenizer, ids: seq<int>)
    requires t.GlyphVocabulary()
    ensures Decodable(t, ids)
    decreases |ids|
  {
    if |ids| > 0 {
      VocabularyDecodable(t, ids[1..]);
      var head := if ids[0] in t.decoder then t.decoder[ids[0]] else "";
      assert DecodeText(t.decoder, ids) == head + DecodeText(t.decoder, ids[1..]);
      forall c | c in head ensures c in t.byteDecoder {
        var k :| 0 <= k < |head| && head[k] == c;
        GlyphEntry(t, ids[0], k);
      }
    }
  }

  /** Looking symbols up and decoding the ids gives the symbols back, concatenated. */
  lemma {:induction false} LookupDecode(t: Tokenizer, symbols: seq<string>)
    requires InverseOf(t.decoder, t.encoder) && Injective(t.encoder)
    requires forall i :: 0 <= i < |symbols| ==> symbols[i] in t.encoder
    ensures DecodeText(t.decoder, Lookup(t.encoder, symbols)) == Flatten(symbols)
    decreases |symbols|
  {
    if |symbols| > 0 {
      LookupDecode(t, symbols[1..]);
      assert Lookup(t.encoder, symbols)[1..] == Lookup(t.encoder, symbols[1..]);
    }
  }

  /** The glyph spellings of the pieces concatenate to the spelling of all their bytes. */
  lemma {:induction false} GlyphPiecesFlatten(t: Tokenizer, bs: seq<seq<byte>>)
    requires t.Valid()
    ensures Flatten(GlyphPieces(t, bs)) == Glyphs(t.byteEncoder, Flatten(bs))
    decreases |bs|
  {
    if |bs| > 0 {
      GlyphPiecesFlatten(t, bs[1..]);
      assert GlyphPieces(t, bs) == [Glyphs(t.byteEncoder, bs[0])] + GlyphPieces(t, bs[1..]);
      GlyphsAppend(t.byteEncoder, bs[0], Flatten(bs[1..]));
    }
  }

  /**
   * Round trip within the abstractions: when every symbol of `text` is in the vocabulary
   * and the vocabulary ids are distinct, decoding the encoding yields the UTF-8 bytes of
   * the matched pieces, so the decoded text is the UTF-8 reading of those bytes.
   */
  lemma DecodeEncode(t: Tokenizer, text: string)
    requires t.Valid() && Injective(t.encoder)
    requires forall i :: 0 <= i < |TokenizeSpec(t, text)| ==> TokenizeSpec(t, text)[i] in t.encoder
    ensures Decodable(t, Lookup(t.encoder, TokenizeSpec(t, text)))
    ensures UnGlyphs(t.byteDecoder, DecodeText(t.decoder, Lookup(t.encoder, TokenizeSpec(t, text))))
      == Flatten(PieceBytes(t, text))
    ensures Decode(t, Lookup(t.encoder, TokenizeSpec(t, text))) == t.utf8Decode(Flatten(PieceBytes(t, text)))
  {
    var bs := PieceBytes(t, text);
    var pieces := GlyphPieces(t, bs);
    forall i | 0 <= i < |pieces| ensures ' ' !in pieces[i] {
      GlyphsRoundTrip(t.byteEncoder, t.byteDecoder, bs[i]);
    }
    TokenizeContent(t.bpeRanks, pieces);
    LookupDecode(t, TokenizeSpec(t, text));
    GlyphPiecesFlatten(t, bs);
    GlyphsRoundTrip(t.byteEncoder, t.byteDecoder, Flatten(bs));
  }

  // ---------------------------------------------------------------------------
  // Sentinels
  // ---------------------------------------------------------------------------

  const BOS := "<s>"
  const EOS := "</s>"

  /** `appendBOS`: the `<s>` id in front. */
  function AppendBOS(t: Tokenizer, tokens: seq<int>): (r: seq<int>)
    requires BOS in t.encoder
    ensures |r| == |tokens| + 1 && r[0] == t.encoder[BOS] && r[1..] == tokens
  {
    [t.encoder[BOS]] + tokens
  }

  /** `appendEOS`: the `</s>` id at the end. */
  function AppendEOS(t: Tokenizer, tokens: seq<int>): (r: seq<int>)
    requires EOS in t.encoder
    ensures |r| == |tokens| + 1 && r[|tokens|] == t.encoder[EOS] && r[..|tokens|] == tokens
  {
    tokens + [t.encoder[EOS]]
  }

  /** `stripBOS`: drops a leading `<s>` id; the source traps on an empty list. */
  function StripBOS(t: Tokenizer, tokens: seq<int>): (r: seq<int>)
    requires BOS in t.encoder && |tokens| > 0
    ensures |tokens| - 1 <= |r| <= |tokens| && r == tokens[|tokens| - |r|..]
    ensures |r| < |tokens| <==> tokens[0] == t.encoder[BOS]
  {
    if tokens[0] == t.encoder[BOS] then tokens[1..] else tokens
  }

  /** `stripEOS`: drops a trailing `</s>` id; the source traps on an empty list. */
  function StripEOS(t: Tokenizer, tokens: seq<int>): (r: seq<int>)
    requires EOS in t.encoder && |tokens| > 0
    ensures |tokens| - 1 <= |r| <= |tokens| && r == tokens[..|r|]
    ensures |r| < |tokens| <==> tokens[|tokens| - 1] == t.encoder[EOS]
  {
    if tokens[|tokens| - 1] == t.encoder[EOS] then tokens[..|tokens| - 1] else tokens
  }

  /** Stripping undoes appending, at either end. */
  lemma SentinelRoundTrip(t: Tokenizer, tokens: seq<int>)
    requires BOS in t.encoder && EOS in t.encoder
    ensures StripBOS(t, AppendBOS(t, tokens)) == tokens
    ensures StripEOS(t, AppendEOS(t, tokens)) == tokens
  {
  }

  /**
   * Each strip removes at most one id, and only the sentinel at its own end; a list
   * without that sentinel there is returned unchanged.
   */
  lemma StripAtMostOne(t: Tokenizer, tokens: seq<int>)
    requires BOS in t.encoder && EOS in t.encoder && |tokens| > 0
    ensures StripBOS(t, tokens) == tokens || (tokens[0] == t.encoder[BOS] && tokens == [tokens[0]] + StripBOS(t, tokens))
    ensures tokens[0] != t.encoder[BOS] ==> StripBOS(t, tokens) == tokens
    ensures StripEOS(t, tokens) == tokens
      || (tokens[|tokens| - 1] == t.encoder[EOS] && tokens == StripEOS(t, tokens) + [tokens[|tokens| - 1]])
    ensures tokens[|tokens| - 1] != t.encoder[EOS] ==> StripEOS(t, tokens) == tokens
  {
  }

  /** Only one sentinel goes per call: stripping is not idempotent when two lead the list. */
  lemma StripBOSOnlyOne(t: Tokenizer)
    requires BOS in t.encoder
    ensures StripBOS(t, [t.encoder[BOS], t.encoder[BOS]]) == [t.encoder[BOS]]
    ensures StripBOS(t, StripBOS(t, [t.encoder[BOS], t.encoder[BOS]])) == []
  {
  }

  // ---------------------------------------------------------------------------
  // TokenizeUtils
  // ---------------------------------------------------------------------------

  /** `clamp`: `min(max(vmin, val), vmax)`. */
  function Clamp(val: int, vmin: int, vmax: int): (r: int)
    ensures vmin <= vmax ==> vmin <= r <= vmax
    ensures vmin <= val <= vmax ==> r == val
    ensures vmin <= vmax && val < vmin ==> r == vmin
    ensures val > vmax ==> r == vmax
    ensures vmin > vmax ==> r == vmax
  {
    var lower := if vmin < val then val else vmin;
    if lower < vmax then lower else vmax
  }

  /**
   * `substr`: the characters at offsets `lo ..< hi`, or `None` when the string is shorter
   * than `hi`. A `Range<Int>` has `lo <= hi`; a negative `lo` traps in `index(_:offsetBy:)`.
   */
  function Substr(s: string, lo: int, hi: int): (r: Option<string>)
    requires 0 <= lo <= hi
    ensures r.Some? <==> hi <= |s|
    ensures r.Some? ==> |r.value| == hi - lo && s == s[..lo] + r.value + s[hi..]
    ensures r.Some? ==> forall k :: 0 <= k < hi - lo ==> r.value[k] == s[lo + k]
  {
    if |s| < hi || |s| < lo then None else Some(s[lo..hi])
  }
}
