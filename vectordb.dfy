/**
 * The document store and its similarity search (Sources/VectorDB). Documents are kept in
 * a sequence whose order stands for the store's unspecified fetch order; embedding
 * vectors and scores are opaque values, with scores ordered as reals.
 */
module VectorStore {
  import opened Utils

  /** A stored document: its identifier (a UUID), its text and its embedding vector. */
  datatype Document = Document(id: nat, text: string, embedding: seq<real>)

  /** `SearchResult`. */
  datatype SearchResult = SearchResult(id: nat, text: string, score: real)

  /** `DatabaseError`. */
  datatype DatabaseError =
    | FileNotFound
    | LoadFailed(reason: string)
    | FailedToCalculateEmbedding
    | CanNotFindDocumentToDelete(document: string)

  /** The sentence embedding: a vector, or none when the text cannot be embedded. */
  type Embedding = string -> Option<seq<real>>

  /** The score of a stored vector against the query vector (cosine similarity in the source). */
  type Similarity = (seq<real>, seq<real>) -> real

  const DefaultLimit := 10
  const DefaultThreshold := 0.5

  // ---------------------------------------------------------------------------
  // The search pipeline
  // ---------------------------------------------------------------------------

  /** `computeSimilarity`: the document's result when its score reaches the threshold. */
  function ComputeSimilarity(similarity: Similarity, document: Document, query: seq<real>,
                             similarityThreshold: real): (r: Option<SearchResult>)
    ensures r.Some? <==> similarity(query, document.embedding) >= similarityThreshold
    ensures r.Some? ==> r.value.id == document.id && r.value.text == document.text
    ensures r.Some? ==> r.value.score == similarity(query, document.embedding)
  {
    var score := similarity(query, document.embedding);
    if score >= similarityThreshold then Some(SearchResult(document.id, document.text, score)) else None
  }

  /** `documents.compactMap { computeSimilarity(...) }`: the results that reach the threshold, in store order. */
  function Qualifying(similarity: Similarity, documents: seq<Document>, query: seq<real>,
                      similarityThreshold: real): seq<SearchResult>
    decreases |documents|
  {
    if |documents| == 0 then []
    else
      var rest := Qualifying(similarity, documents[1..], query, similarityThreshold);
      match ComputeSimilarity(similarity, documents[0], query, similarityThreshold)
      case None => rest
      case Some(result) => [result] + rest
  }

  /** `result` is the result of a stored document with its score. */
  predicate ResultOf(similarity: Similarity, documents: seq<Document>, query: seq<real>, result: SearchResult) {
    exists i :: 0 <= i < |documents| && result == SearchResult(documents[i].id, documents[i].text,
                                                               similarity(query, documents[i].embedding))
  }

  /** Scores in descending order: `sorted(by: { $0.score > $1.score })`. */
  ghost predicate NonIncreasing(results: seq<SearchResult>) {
    forall i, j :: 0 <= i < j < |results| ==> results[i].score >= results[j].score
  }

  /** Inserts a result before the first one it does not score below. */
  function Insert(x: SearchResult, sorted: seq<SearchResult>): seq<SearchResult>
    decreases |sorted|
  {
    if |sorted| == 0 || x.score >= sorted[0].score then [x] + sorted
    else [sorted[0]] + Insert(x, sorted[1..])
  }

  /** A descending sort by score; the order of tied results is not part of any contract. */
  function SortByScore(results: seq<SearchResult>): seq<SearchResult>
    decreases |results|
  {
    if |results| == 0 then [] else Insert(results[0], SortByScore(results[1..]))
  }

  /** `Array(... .prefix(limit))`: the first `limit` results, or all of them when there are fewer. */
  function Prefix(results: seq<SearchResult>, limit: nat): (r: seq<SearchResult>)
    ensures |r| == Min(limit, |results|) && r == results[..|r|]
  {
    results[..Min(limit, |results|)]
  }

  // ---------------------------------------------------------------------------
  // Properties of the pipeline
  // ---------------------------------------------------------------------------

  /**
   * Every qualifying result reaches the threshold and is the result of a stored document,
   * and there are no more of them than documents (`QualifyingComplete` gives the converse).
   */
  lemma {:induction false} QualifyingSpec(similarity: Similarity, documents: seq<Document>, query: seq<real>,
                                          similarityThreshold: real)
    ensures forall k :: 0 <= k < |Qualifying(similarity, documents, query, similarityThreshold)| ==>
      Qualifying(similarity, documents, query, similarityThreshold)[k].score >= similarityThreshold
    ensures forall k :: 0 <= k < |Qualifying(similarity, documents, query, similarityThreshold)| ==>
      ResultOf(similarity, documents, query, Qualifying(similarity, documents, query, similarityThreshold)[k])
    ensures |Qualifying(similarity, documents, query, similarityThreshold)| <= |documents|
    decreases |documents|
  {
    if |documents| > 0 {
      var q := Qualifying(similarity, documents, query, similarityThreshold);
      var rest := Qualifying(similarity, documents[1..], query, similarityThreshold);
      QualifyingSpec(similarity, documents[1..], query, similarityThreshold);
      forall k | 0 <= k < |rest| ensures ResultOf(similarity, documents, query, rest[k]) {
        var i :| 0 <= i < |documents[1..]| && rest[k] == SearchResult(documents[1..][i].id, documents[1..][i].text,
                                                                     similarity(query, documents[1..][i].embedding));
        assert documents[1..][i] == documents[i + 1];
      }
      var first := ComputeSimilarity(similarity, documents[0], query, similarityThreshold);
      if first.Some? {
        assert q == [first.value] + rest;
        assert ResultOf(similarity, documents, query, first.value);
        forall k | 0 < k < |q| ensures q[k] == rest[k - 1] {
        }
      } else {
        assert q == rest;
      }
    }
  }

  /** Every stored document whose score reaches the threshold has its result among the qualifying ones. */
  lemma {:induction false} QualifyingComplete(similarity: Similarity, documents: seq<Document>, query: seq<real>,
                                              similarityThreshold: real, i: nat)
    requires i < |documents| && similarity(query, documents[i].embedding) >= similarityThreshold
    ensures SearchResult(documents[i].id, documents[i].text, similarity(query, documents[i].embedding))
         in Qualifying(similarity, documents, query, similarityThreshold)
    decreases |documents|
  {
    var q := Qualifying(similarity, documents, query, similarityThreshold);
    var rest := Qualifying(similarity, documents[1..], query, similarityThreshold);
    var first := ComputeSimilarity(similarity, documents[0], query, similarityThreshold);
    if i > 0 {
      QualifyingComplete(similarity, documents[1..], query, similarityThreshold, i - 1);
      assert documents[1..][i - 1] == documents[i];
      if first.Some? {
        assert q == [first.value] + rest;
      }
    } else {
      assert q == [first.value] + rest;
    }
  }

  /** Inserting keeps the results and adds `x` once. */
  lemma {:induction false} InsertMultiset(x: SearchResult, sorted: seq<SearchResult>)
    ensures multiset(Insert(x, sorted)) == multiset{x} + multiset(sorted)
    decreases |sorted|
  {
    if |sorted| > 0 && x.score < sorted[0].score {
      InsertMultiset(x, sorted[1..]);
      assert Insert(x, sorted) == [sorted[0]] + Insert(x, sorted[1..]);
      assert sorted == [sorted[0]] + sorted[1..];
    }
  }

  /** A result scoring at most `bound`, inserted among results scoring at most `bound`, leaves them all at most `bound`. */
  lemma {:induction false} InsertBounded(x: SearchResult, sorted: seq<SearchResult>, bound: real)
    requires x.score <= bound
    requires forall k :: 0 <= k < |sorted| ==> sorted[k].score <= bound
    ensures forall k :: 0 <= k < |Insert(x, sorted)| ==> Insert(x, sorted)[k].score <= bound
    decreases |sorted|
  {
    if |sorted| > 0 && x.score < sorted[0].score {
      InsertBounded(x, sorted[1..], bound);
      var inserted := Insert(x, sorted[1..]);
      assert Insert(x, sorted) == [sorted[0]] + inserted;
    }
  }

  /** The first result of a descending sequence scores at least as much as the rest. */
  lemma HeadBounds(sorted: seq<SearchResult>)
    requires NonIncreasing(sorted) && |sorted| > 0
    ensures NonIncreasing(sorted[1..])
    ensures forall k :: 0 <= k < |sorted[1..]| ==> sorted[1..][k].score <= sorted[0].score
  {
    var tail := sorted[1..];
    forall i, j | 0 <= i < j < |tail| ensures tail[i].score >= tail[j].score {
      assert tail[i] == sorted[i + 1] && tail[j] == sorted[j + 1];
    }
    forall k | 0 <= k < |tail| ensures tail[k].score <= sorted[0].score {
      assert tail[k] == sorted[k + 1];
    }
  }

  /** A leading result scoring at least as much as a descending rest keeps it descending. */
  lemma ConsNonIncreasing(y: SearchResult, rest: seq<SearchResult>)
    requires NonIncreasing(rest)
    requires forall k :: 0 <= k < |rest| ==> rest[k].score <= y.score
    ensures NonIncreasing([y] + rest)
  {
    var r := [y] + rest;
    forall i, j | 0 <= i < j < |r| ensures r[i].score >= r[j].score {
      assert r[j] == rest[j - 1];
      if i > 0 {
        assert r[i] == rest[i - 1];
      }
    }
  }

  /** Inserting into a descending sequence keeps it descending. */
  lemma {:induction false} InsertSorted(x: SearchResult, sorted: seq<SearchResult>)
    requires NonIncreasing(sorted)
    ensures NonIncreasing(Insert(x, sorted))
    decreases |sorted|
  {
    if |sorted| == 0 || x.score >= sorted[0].score {
      assert Insert(x, sorted) == [x] + sorted;
      if |sorted| > 0 {
        HeadBounds(sorted);
      }
      forall k | 0 <= k < |sorted| ensures sorted[k].score <= x.score {
        if k > 0 {
          assert sorted[1..][k - 1] == sorted[k];
        }
      }
      ConsNonIncreasing(x, sorted);
    } else {
      HeadBounds(sorted);
      InsertSorted(x, sorted[1..]);
      InsertBounded(x, sorted[1..], sorted[0].score);
      assert Insert(x, sorted) == [sorted[0]] + Insert(x, sorted[1..]);
      ConsNonIncreasing(sorted[0], Insert(x, sorted[1..]));
    }
  }

  /** Inserting keeps the results, adds `x` once, and keeps the order. */
  lemma InsertSpec(x: SearchResult, sorted: seq<SearchResult>)
    requires NonIncreasing(sorted)
    ensures multiset(Insert(x, sorted)) == multiset{x} + multiset(sorted)
    ensures NonIncreasing(Insert(x, sorted))
  {
    InsertMultiset(x, sorted);
    InsertSorted(x, sorted);
  }

  /** The sort is a permutation into descending score order. */
  lemma {:induction false} SortSpec(results: seq<SearchResult>)
    ensures multiset(SortByScore(results)) == multiset(results)
    ensures NonIncreasing(SortByScore(results))
    decreases |results|
  {
    if |results| > 0 {
      SortSpec(results[1..]);
      InsertSpec(results[0], SortByScore(results[1..]));
      assert results == [results[0]] + results[1..];
    }
  }

  /** A prefix of a descending sequence is descending. */
  lemma PrefixNonIncreasing(sorted: seq<SearchResult>, k: nat)
    requires NonIncreasing(sorted) && k <= |sorted|
    ensures NonIncreasing(sorted[..k])
  {
    var r := sorted[..k];
    forall i, j | 0 <= i < j < |r| ensures r[i].score >= r[j].score {
      assert r[i] == sorted[i] && r[j] == sorted[j];
    }
  }

  /** In a descending sequence nothing after position k scores above anything before it. */
  lemma TailDominated(sorted: seq<SearchResult>, k: nat)
    requires NonIncreasing(sorted) && k <= |sorted|
    ensures forall x, i :: x in multiset(sorted[k..]) && 0 <= i < k ==> x.score <= sorted[..k][i].score
  {
    forall x, i | x in multiset(sorted[k..]) && 0 <= i < k ensures x.score <= sorted[..k][i].score {
      var tail := sorted[k..];
      assert x in tail;
      var m :| 0 <= m < |tail| && tail[m] == x;
      assert tail[m] == sorted[k + m];
      assert sorted[..k][i] == sorted[i];
    }
  }

  /** A prefix and the rest make up the whole multiset. */
  lemma PrefixSplit(sorted: seq<SearchResult>, k: nat)
    requires k <= |sorted|
    ensures multiset(sorted) == multiset(sorted[..k]) + multiset(sorted[k..])
  {
    assert sorted == sorted[..k] + sorted[k..];
  }

  /**
   * The ranking part of `search`: at most `limit` results and only as few when fewer
   * qualify, in descending score order, all of them qualifying; nothing left out
   * scores above anything returned; and when at most `limit` qualify all of them are
   * returned.
   */
  lemma RankSpec(qualifying: seq<SearchResult>, limit: nat)
    ensures |Prefix(SortByScore(qualifying), limit)| == Min(limit, |qualifying|)
    ensures NonIncreasing(Prefix(SortByScore(qualifying), limit))
    ensures multiset(Prefix(SortByScore(qualifying), limit)) <= multiset(qualifying)
    ensures forall x, i :: x in multiset(qualifying) - multiset(Prefix(SortByScore(qualifying), limit))
                           && 0 <= i < |Prefix(SortByScore(qualifying), limit)| ==>
              x.score <= Prefix(SortByScore(qualifying), limit)[i].score
    ensures |qualifying| <= limit ==> multiset(Prefix(SortByScore(qualifying), limit)) == multiset(qualifying)
  {
    var sorted := SortByScore(qualifying);
    SortSpec(qualifying);
    var r := Prefix(sorted, limit);
    var k := |r|;
    assert r == sorted[..k];
    PrefixSplit(sorted, k);
    PrefixNonIncreasing(sorted, k);
    TailDominated(sorted, k);
    assert multiset(qualifying) - multiset(r) == multiset(sorted[k..]);
    if |qualifying| <= limit {
      assert sorted[k..] == [];
    }
  }

  /**
   * `results` is a top-`limit` answer over the qualifying results of `documents`: as many
   * as `limit` allows, descending, each a qualifying document's result, and none left out
   * scoring above one kept; all of them when at most `limit` qualify.
   */
  ghost predicate Ranked(similarity: Similarity, documents: seq<Document>, query: seq<real>,
                         similarityThreshold: real, limit: nat, results: seq<SearchResult>) {
    var q := Qualifying(similarity, documents, query, similarityThreshold);
    && |results| == Min(limit, |q|)
    && NonIncreasing(results)
    && (forall k :: 0 <= k < |results| ==> results[k].score >= similarityThreshold)
    && (forall k :: 0 <= k < |results| ==> ResultOf(similarity, documents, query, results[k]))
    && (forall x, i :: x in multiset(q) - multiset(results) && 0 <= i < |results| ==> x.score <= results[i].score)
    && (|q| <= limit ==> multiset(results) == multiset(q))
  }

  /** Members of a sub-multiset are members of the larger sequence. */
  lemma SubMembers(r: seq<SearchResult>, q: seq<SearchResult>)
    requires multiset(r) <= multiset(q)
    ensures forall k :: 0 <= k < |r| ==> r[k] in q
  {
    forall k | 0 <= k < |r| ensures r[k] in q {
      assert r[k] in multiset(r);
    }
  }

  /** The ranked qualifying results are a top-`limit` answer. */
  lemma RankedQualifying(similarity: Similarity, documents: seq<Document>, query: seq<real>,
                         similarityThreshold: real, limit: nat)
    ensures Ranked(similarity, documents, query, similarityThreshold, limit,
                   Prefix(SortByScore(Qualifying(similarity, documents, query, similarityThreshold)), limit))
  {
    var q := Qualifying(similarity, documents, query, similarityThreshold);
    var r := Prefix(SortByScore(q), limit);
    RankSpec(q, limit);
    QualifyingSpec(similarity, documents, query, similarityThreshold);
    SubMembers(r, q);
    forall k | 0 <= k < |r|
      ensures r[k].score >= similarityThreshold && ResultOf(similarity, documents, query, r[k])
    {
      var m :| 0 <= m < |q| && q[m] == r[k];
    }
  }

  // ---------------------------------------------------------------------------
  // The store
  // ---------------------------------------------------------------------------

  class VectorDB {
    const embedding: Embedding
    const similarity: Similarity
    /** The stored documents; the order stands for the store's fetch order. */
    var documents: seq<Document>

    /** A store with no documents. */
    constructor (embedding: Embedding, similarity: Similarity)
      ensures this.embedding == embedding && this.similarity == similarity && documents == []
    {
      this.embedding := embedding;
      this.similarity := similarity;
      documents := [];
    }

    /**
     * `addDocument(id:text:)`: embeds the text and stores the document; when the text
     * cannot be embedded it fails and the store is unchanged.
     */
    method AddDocument(id: nat, text: string) returns (r: Result<(), DatabaseError>)
      modifies this
      ensures embedding(text).None? ==> r == Failure(FailedToCalculateEmbedding) && documents == old(documents)
      ensures embedding(text).Some? ==>
        r.Success? && documents == old(documents) + [Document(id, text, embedding(text).value)]
    {
      var vector := embedding(text);
      if vector.None? {
        return Failure(FailedToCalculateEmbedding);
      }
      var document := Document(id, text, vector.value);
      documents := documents + [document];
      return Success(());
    }

    /**
     * `delete(document:)`: removes one document with the given text (which one, when
     * several have it, is up to the store); fails when none has it.
     */
    method Delete(document: string) returns (r: Result<(), DatabaseError>)
      modifies this
      ensures (forall i :: 0 <= i < |old(documents)| ==> old(documents)[i].text != document) ==>
        r == Failure(CanNotFindDocumentToDelete(document)) && documents == old(documents)
      ensures (exists i :: 0 <= i < |old(documents)| && old(documents)[i].text == document) ==>
        r.Success? && exists i :: 0 <= i < |old(documents)| && old(documents)[i].text == document
                                  && documents == old(documents)[..i] + old(documents)[i + 1..]
    {
      if forall i :: 0 <= i < |documents| ==> documents[i].text != document {
        return Failure(CanNotFindDocumentToDelete(document));
      }
      var i :| 0 <= i < |documents| && documents[i].text == document;
      documents := documents[..i] + documents[i + 1..];
      return Success(());
    }

    /** `clear`: removes every document. */
    method Clear()
      modifies this
      ensures documents == []
    {
      documents := [];
    }

    /**
     * `search(searchTerm:limit:similarityThreshold:)`: fails when the search term cannot
     * be embedded, otherwise ranks the qualifying results and keeps the first `limit`.
     */
    function Search(searchTerm: string, limit: nat, similarityThreshold: real): (r: Result<seq<SearchResult>, DatabaseError>)
      reads this
      ensures embedding(searchTerm).None? <==> r == Failure(FailedToCalculateEmbedding)
      ensures r.Success? ==> embedding(searchTerm).Some?
    {
      match embedding(searchTerm)
      case None => Failure(FailedToCalculateEmbedding)
      case Some(query) => Success(Prefix(SortByScore(Qualifying(similarity, documents, query, similarityThreshold)), limit))
    }

    /**
     * What a successful search returns: at most `limit` results in descending score
     * order, each the result of a stored document and reaching the threshold, none left
     * out scoring above one returned, and every qualifying document's result when at
     * most `limit` qualify.
     */
    lemma SearchSpec(searchTerm: string, limit: nat, similarityThreshold: real)
      requires embedding(searchTerm).Some?
      ensures Search(searchTerm, limit, similarityThreshold).Success?
      ensures Ranked(similarity, documents, embedding(searchTerm).value, similarityThreshold, limit,
                     Search(searchTerm, limit, similarityThreshold).value)
    {
      RankedQualifying(similarity, documents, embedding(searchTerm).value, similarityThreshold, limit);
    }

    /**
     * When at most `limit` documents reach the threshold, the result of every document
     * that reaches it is returned.
     */
    lemma SearchReturnsAll(searchTerm: string, limit: nat, similarityThreshold: real, i: nat)
      requires embedding(searchTerm).Some? && i < |documents|
      requires |Qualifying(similarity, documents, embedding(searchTerm).value, similarityThreshold)| <= limit
      requires similarity(embedding(searchTerm).value, documents[i].embedding) >= similarityThreshold
      ensures SearchResult(documents[i].id, documents[i].text,
                           similarity(embedding(searchTerm).value, documents[i].embedding))
           in Search(searchTerm, limit, similarityThreshold).value
    {
      var query := embedding(searchTerm).value;
      var q := Qualifying(similarity, documents, query, similarityThreshold);
      QualifyingComplete(similarity, documents, query, similarityThreshold, i);
      RankSpec(q, limit);
      var x := SearchResult(documents[i].id, documents[i].text, similarity(query, documents[i].embedding));
      assert x in multiset(q);
      assert x in multiset(Search(searchTerm, limit, similarityThreshold).value);
    }
  }

  /** After `clear` any search that can embed its term finds nothing. */
  lemma ClearedSearchEmpty(db: VectorDB, searchTerm: string, limit: nat, similarityThreshold: real)
    requires db.documents == [] && db.embedding(searchTerm).Some?
    ensures db.Search(searchTerm, limit, similarityThreshold) == Success([])
  {
  }
}
