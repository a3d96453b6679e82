/** Array and dictionary helpers of the LLM package (Sources/LLM/Utils.swift). */
module Utils {

  datatype Option<T> = None | Some(value: T)

  datatype Result<T, E> = Success(value: T) | Failure(error: E)

  function Min(a: int, b: int): int { if a < b then a else b }

  lemma AppendAssoc<T>(a: seq<T>, b: seq<T>, c: seq<T>)
    ensures a + (b + c) == (a + b) + c
  {
  }

  /** Concatenation of a sequence of sequences (Swift's `joined()`). */
  function Flatten<T>(xs: seq<seq<T>>): seq<T>
    decreases |xs|
  {
    if |xs| == 0 then [] else xs[0] + Flatten(xs[1..])
  }

  lemma {:induction false} FlattenAppend<T>(xs: seq<seq<T>>, ys: seq<seq<T>>)
    ensures Flatten(xs + ys) == Flatten(xs) + Flatten(ys)
    decreases |xs|
  {
    if |xs| == 0 {
      assert xs + ys == ys;
    } else {
      assert (xs + ys)[1..] == xs[1..] + ys;
      FlattenAppend(xs[1..], ys);
    }
  }

  /** Every element of a flattened sequence comes from one of its parts. */
  lemma {:induction false} FlattenMember<T>(xs: seq<seq<T>>, i: nat, x: T)
    requires i < |xs| && x in xs[i]
    ensures x in Flatten(xs)
    decreases |xs|
  {
    if i > 0 {
      FlattenMember(xs[1..], i - 1, x);
    }
  }

  /**
   * `Array.chunked(into: size)`: the slices `s[k*size ..< min(k*size + size, count)]`
   * for k = 0, 1, ... while k*size < count, written as a recursion on what is left.
   */
  function Chunked<T>(s: seq<T>, size: int): seq<seq<T>>
    requires size > 0
    decreases |s|
  {
    if |s| == 0 then []
    else
      var k := Min(size, |s|);
      [s[..k]] + Chunked(s[k..], size)
  }

  /** The chunks concatenate back to the input. */
  lemma {:induction false} ChunkedFlatten<T>(s: seq<T>, size: int)
    requires size > 0
    ensures Flatten(Chunked(s, size)) == s
    decreases |s|
  {
    if |s| > 0 {
      var k := Min(size, |s|);
      ChunkedFlatten(s[k..], size);
      assert s[..k] + s[k..] == s;
    }
  }

  /** Every chunk is non-empty and at most `size` long; all but the last are exactly `size` long. */
  lemma {:induction false} ChunkedSizes<T>(s: seq<T>, size: int)
    requires size > 0
    ensures forall i :: 0 <= i < |Chunked(s, size)| ==> 0 < |Chunked(s, size)[i]| <= size
    ensures forall i :: 0 <= i < |Chunked(s, size)| - 1 ==> |Chunked(s, size)[i]| == size
    decreases |s|
  {
    if |s| > 0 {
      var k := Min(size, |s|);
      ChunkedSizes(s[k..], size);
      var c := Chunked(s, size);
      assert c == [s[..k]] + Chunked(s[k..], size);
      if |s| > size {
        assert |Chunked(s[k..], size)| > 0;
      }
    }
  }

  /**
   * There are ceil(count / size) chunks: (chunks - 1) * size < count <= chunks * size;
   * in particular an empty input yields none.
   */
  lemma {:induction false} ChunkedCount<T>(s: seq<T>, size: int)
    requires size > 0
    ensures |s| > 0 ==> (|Chunked(s, size)| - 1) * size < |s| <= |Chunked(s, size)| * size
    ensures |Chunked(s, size)| == 0 <==> |s| == 0
    decreases |s|
  {
    if |s| > 0 {
      var k := Min(size, |s|);
      ChunkedCount(s[k..], size);
      var m := |Chunked(s[k..], size)|;
      assert |Chunked(s, size)| == m + 1;
      if |s| > size {
        assert (m - 1) * size < |s| - size <= m * size;
        assert (m + 1) * size == m * size + size;
        assert m * size == (m - 1) * size + size;
      }
    }
  }

  /** An input no longer than the chunk size is a single chunk. */
  lemma ChunkedShort<T>(s: seq<T>, size: int)
    requires 0 < |s| <= size
    ensures Chunked(s, size) == [s]
  {
    assert s[..|s|] == s;
    assert s[|s|..] == [];
  }

  lemma SliceOfDrop<T>(s: seq<T>, m: nat, i: nat, j: nat)
    requires m <= |s| && i <= j <= |s| - m
    ensures s[m..][i..j] == s[m + i..m + j]
  {
  }

  /** The k-th point of `stride(from: 0, to: count, by: size)`: `size` added k times. */
  function Stride(k: nat, size: nat): nat {
    if k == 0 then 0 else Stride(k - 1, size) + size
  }

  /** The stride points are the multiples of the step. */
  lemma {:induction false} StrideProduct(k: nat, size: nat)
    ensures Stride(k, size) == k * size
  {
    if k > 0 {
      StrideProduct(k - 1, size);
      assert (k - 1) * size + size == k * size;
    }
  }

  /** The recursion agrees with the source's stride formulation: chunk k starts at the k-th stride point. */
  lemma {:induction false} ChunkAt<T>(s: seq<T>, size: int, k: nat)
    requires size > 0 && k < |Chunked(s, size)|
    ensures Stride(k, size) < |s|
    ensures Chunked(s, size)[k] == s[Stride(k, size) .. Min(Stride(k, size) + size, |s|)]
    decreases |s|
  {
    var m := Min(size, |s|);
    var c := Chunked(s, size);
    assert c == [s[..m]] + Chunked(s[m..], size);
    if k == 0 {
      assert c[0] == s[..m] == s[0..m];
    } else {
      ChunkAt(s[m..], size, k - 1);
      var start := Stride(k - 1, size);
      var hi := Min(start + size, |s| - m);
      assert m == size && m + start == Stride(k, size);
      assert m + hi == Min(Stride(k, size) + size, |s|);
      SliceOfDrop(s, m, start, hi);
      assert c[k] == Chunked(s[m..], size)[k - 1] == s[m..][start..hi];
    }
  }

  ghost predicate Injective<K, V>(m: map<K, V>) {
    forall k1, k2 :: k1 in m && k2 in m && m[k1] == m[k2] ==> k1 == k2
  }

  /**
   * `Utils.invert` (and the identical `TokenizeUtils.invert`): swaps keys and values,
   * iterating the dictionary in an unspecified order, so that for a value shared by
   * several keys any one of them may win.
   */
  method Invert<K, V(==)>(dict: map<K, V>) returns (inverted: map<V, K>)
    ensures inverted.Keys == dict.Values
    ensures forall v :: v in inverted ==> inverted[v] in dict && dict[inverted[v]] == v
    ensures Injective(dict) ==> forall k :: k in dict ==> dict[k] in inverted && inverted[dict[k]] == k
  {
    inverted := map[];
    var rest := dict.Keys;
    while rest != {}
      invariant rest <= dict.Keys
      invariant inverted.Keys == set k | k in dict.Keys - rest :: dict[k]
      invariant forall v :: v in inverted ==> inverted[v] in dict.Keys - rest && dict[inverted[v]] == v
      invariant Injective(dict) ==> forall k :: k in dict.Keys - rest ==> inverted[dict[k]] == k
      decreases rest
    {
      var k :| k in rest;
      inverted := inverted[dict[k] := k];
      rest := rest - {k};
    }
    assert dict.Keys - rest == dict.Keys;
  }
}
