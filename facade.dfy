/**
 * The `MobileLLM` facade (Sources/Facade/Facade.swift): one loaded model plus the document
 * store; a question is answered by the model on a prompt built from the documents the
 * store finds for it.
 */
module Facade {
  import opened Utils
  import opened Strings
  import opened ModelConfig
  import opened Tokenizing
  import opened VectorStore
  import Session

  /** `MobileLLMError`. */
  datatype MobileLLMError = FailedToFindCollection(collection: string) | ModelNotLoaded

  /** `ModelType`. */
  datatype ModelType = Rwkv | Testing

  /** A loaded `Model`: an RWKV session, or the testing model with its fixed prediction. */
  datatype LoadedModel = RwkvModel(session: Session.RWKV) | TestingModel(prediction: (string, real))

  /** What `ask` can throw: its own error, the store's, or the model's. */
  datatype AskError = Facade(facadeError: MobileLLMError) | Database(databaseError: DatabaseError)
                    | Prediction(predictError: Session.PredictError)

  /** `TestingModel.init`'s default prediction. */
  const TestReply: (string, real) := ("Test reply", 0.0)

  const QuestionTag := "###Question: "
  const AnswerTag := " ###Answer: "
  const TextSeparator := ". "

  /** `result.map { $0.text }`. */
  function Texts(results: seq<SearchResult>): (texts: seq<string>)
    ensures |texts| == |results| && forall i :: 0 <= i < |results| ==> texts[i] == results[i].text
  {
    seq(|results|, i requires 0 <= i < |results| => results[i].text)
  }

  /** The prompt text of `prompt(question:similarityThreshold:)` for the search results. */
  function BuildPrompt(question: string, results: seq<SearchResult>): string {
    if |results| == 0 then QuestionTag + question
    else QuestionTag + question + AnswerTag + Join(Texts(results), TextSeparator)
  }

  /** Where the text of result i starts in the prompt. */
  function PieceStart(question: string, results: seq<SearchResult>, i: nat): nat
    requires i < |results|
  {
    |QuestionTag| + |question| + |AnswerTag| + JoinOffset(Texts(results), TextSeparator, i)
  }

  /** With results, the prompt opens with the question after its tag and then the answer tag. */
  lemma PromptHead(question: string, results: seq<SearchResult>)
    requires |results| > 0
    ensures |QuestionTag| + |question| + |AnswerTag| <= |BuildPrompt(question, results)|
    ensures BuildPrompt(question, results)[..|QuestionTag| + |question| + |AnswerTag|]
         == QuestionTag + question + AnswerTag
  {
    var head := QuestionTag + question + AnswerTag;
    Placed(head, Join(Texts(results), TextSeparator), 0, 0);
  }

  /** The text of result i sits at its place in the prompt, in rank order. */
  lemma PromptPiece(question: string, results: seq<SearchResult>, i: nat)
    requires i < |results|
    ensures PieceStart(question, results, i) + |results[i].text| <= |BuildPrompt(question, results)|
    ensures BuildPrompt(question, results)[PieceStart(question, results, i)..PieceStart(question, results, i) + |results[i].text|]
         == results[i].text
  {
    var texts := Texts(results);
    var head := QuestionTag + question + AnswerTag;
    var joined := Join(texts, TextSeparator);
    assert BuildPrompt(question, results) == head + joined;
    JoinLayout(texts, TextSeparator, i);
    var o := JoinOffset(texts, TextSeparator, i);
    Placed(head, joined, o, o + |texts[i]|);
  }

  /** After the text of result i comes ". " when another result follows, and the end of the prompt otherwise. */
  lemma PromptAfterPiece(question: string, results: seq<SearchResult>, i: nat)
    requires i < |results|
    ensures var end := PieceStart(question, results, i) + |results[i].text|;
      && (i + 1 < |results| ==> end + |TextSeparator| <= |BuildPrompt(question, results)|)
      && (i + 1 < |results| ==> BuildPrompt(question, results)[end..end + |TextSeparator|] == TextSeparator)
      && (i + 1 < |results| ==> PieceStart(question, results, i + 1) == end + |TextSeparator|)
      && (i + 1 == |results| ==> |BuildPrompt(question, results)| == end)
  {
    var texts := Texts(results);
    var head := QuestionTag + question + AnswerTag;
    var joined := Join(texts, TextSeparator);
    assert BuildPrompt(question, results) == head + joined;
    JoinLayout(texts, TextSeparator, i);
    var o := JoinOffset(texts, TextSeparator, i);
    if i + 1 < |results| {
      Placed(head, joined, o + |texts[i]|, o + |texts[i]| + |TextSeparator|);
    } else {
      Placed(head, joined, 0, 0);
    }
  }

  /** A slice of the part after `head` sits |head| further on in the whole. */
  lemma Placed(head: string, s: string, a: nat, b: nat)
    requires a <= b <= |s|
    ensures |head + s| == |head| + |s|
    ensures (head + s)[..|head|] == head
    ensures (head + s)[|head| + a..|head| + b] == s[a..b]
  {
  }

  /** Without search results the prompt is the question after its tag. */
  lemma PromptWithoutResults(question: string)
    ensures BuildPrompt(question, []) == QuestionTag + question
  {
  }

  class MobileLLM {
    /** `VectorDB.shared`. */
    const db: VectorDB
    var model: Option<LoadedModel>

    /** The loaded RWKV session, if that is the model. */
    ghost function Sessions(): set<object>
      reads this
    {
      if model.Some? && model.value.RwkvModel? then {model.value.session} else {}
    }

    ghost predicate Valid()
      reads this, Sessions()
    {
      model.Some? && model.value.RwkvModel? ==> model.value.session.Valid()
    }

    /** `MobileLLM.shared` before any `load`. */
    constructor (db: VectorDB)
      ensures this.db == db && model == None && Valid()
    {
      this.db := db;
      model := None;
    }

    /**
     * `load(model:parameters:type:)`: the testing model, or a new RWKV session from the
     * tokenizers and the native loader's answer; when loading throws the previous model
     * stays.
     */
    method Load(kind: ModelType, contextCreated: bool, parameters: ModelParameters,
                tokenizerFromString: Tokenizer, tokenizerToString: Tokenizer, engine: Session.Engine)
      returns (r: Result<(), Session.RWKVError>)
      requires kind == Rwkv ==>
        tokenizerFromString.Valid() && tokenizerToString.Valid() && tokenizerToString.GlyphVocabulary()
      requires Valid()
      modifies this
      ensures Valid()
      ensures kind == Testing ==> r.Success? && model == Some(TestingModel(TestReply))
      ensures kind == Rwkv && !contextCreated ==>
        r == Failure(Session.FailedToInitializeContext) && model == old(model)
      ensures kind == Rwkv && contextCreated ==>
        && r.Success? && model.Some? && model.value.RwkvModel? && fresh(model.value.session)
        && model.value.session.parameters == parameters && model.value.session.engine == engine
        && model.value.session.tokenizerFromString == tokenizerFromString
        && model.value.session.tokenizerToString == tokenizerToString
        && model.value.session.past == [] && model.value.session.nPast == 0
        && model.value.session.engineCalls == [[engine.bos, engine.eos]]
    {
      match kind
      case Rwkv =>
        var session := Session.RWKV.Open(contextCreated, parameters, tokenizerFromString, tokenizerToString, engine);
        if session.Failure? {
          return Failure(session.error);
        }
        model := Some(RwkvModel(session.value));
        return Success(());
      case Testing =>
        model := Some(TestingModel(TestReply));
        return Success(());
    }

    /** `add(document:)`: `id` stands for the fresh UUID the store's default argument draws. */
    method Add(id: nat, document: string) returns (r: Result<(), DatabaseError>)
      modifies db
      ensures db.embedding(document).None? ==> r == Failure(FailedToCalculateEmbedding) && db.documents == old(db.documents)
      ensures db.embedding(document).Some? ==>
        r.Success? && db.documents == old(db.documents) + [Document(id, document, db.embedding(document).value)]
    {
      r := db.AddDocument(id, document);
    }

    /** `delete(document:)`. */
    method Delete(document: string) returns (r: Result<(), DatabaseError>)
      modifies db
      ensures (forall i :: 0 <= i < |old(db.documents)| ==> old(db.documents)[i].text != document) ==>
        r == Failure(CanNotFindDocumentToDelete(document)) && db.documents == old(db.documents)
      ensures (exists i :: 0 <= i < |old(db.documents)| && old(db.documents)[i].text == document) ==>
        r.Success? && exists i :: 0 <= i < |old(db.documents)| && old(db.documents)[i].text == document
                                  && db.documents == old(db.documents)[..i] + old(db.documents)[i + 1..]
    {
      r := db.Delete(document);
    }

    /** `clean()`: empties the store. */
    method Clean()
      modifies db
      ensures db.documents == []
    {
      db.Clear();
    }

    /**
     * `prompt(question:similarityThreshold:)`: searches the store with the default limit
     * and builds the prompt from what it finds; a failed search is thrown on.
     */
    function Prompt(question: string, similarityThreshold: real): (r: Result<string, DatabaseError>)
      reads this, db
      ensures db.embedding(question).None? <==> r == Failure(FailedToCalculateEmbedding)
      ensures r.Success? ==> |QuestionTag| + |question| <= |r.value|
      ensures r.Success? ==> r.value[..|QuestionTag| + |question|] == QuestionTag + question
      ensures r.Success? ==> db.Search(question, DefaultLimit, similarityThreshold).Success? &&
                             r.value == BuildPrompt(question, db.Search(question, DefaultLimit, similarityThreshold).value)
    {
      match db.Search(question, DefaultLimit, similarityThreshold)
      case Failure(e) => Failure(e)
      case Success(results) =>
        var p := BuildPrompt(question, results);
        assert p[..|QuestionTag| + |question|] == QuestionTag + question by {
          if |results| > 0 {
            assert p == (QuestionTag + question) + (AnswerTag + Join(Texts(results), TextSeparator));
          }
        }
        Success(p)
    }

    /**
     * The prompt carries an answer part exactly when some stored document reaches the
     * threshold; otherwise it is only the question.
     */
    lemma PromptAnswersIff(question: string, similarityThreshold: real)
      requires db.embedding(question).Some?
      ensures Prompt(question, similarityThreshold).Success?
      ensures Prompt(question, similarityThreshold).value == QuestionTag + question
        <==> forall i :: 0 <= i < |db.documents| ==>
               db.similarity(db.embedding(question).value, db.documents[i].embedding) < similarityThreshold
    {
      var query := db.embedding(question).value;
      var q := Qualifying(db.similarity, db.documents, query, similarityThreshold);
      var results := db.Search(question, DefaultLimit, similarityThreshold).value;
      db.SearchSpec(question, DefaultLimit, similarityThreshold);
      QualifyingSpec(db.similarity, db.documents, query, similarityThreshold);
      if exists i :: 0 <= i < |db.documents| && db.similarity(query, db.documents[i].embedding) >= similarityThreshold {
        var i :| 0 <= i < |db.documents| && db.similarity(query, db.documents[i].embedding) >= similarityThreshold;
        QualifyingComplete(db.similarity, db.documents, query, similarityThreshold, i);
        assert |q| > 0;
        assert |results| > 0;
        assert |BuildPrompt(question, results)| > |QuestionTag + question|;
      }
    }

    /** A store holding one document that reaches the threshold: its text is the whole answer part. */
    lemma PromptOneDocument(question: string, similarityThreshold: real)
      requires db.embedding(question).Some? && |db.documents| == 1
      requires db.similarity(db.embedding(question).value, db.documents[0].embedding) >= similarityThreshold
      ensures Prompt(question, similarityThreshold) == Success(QuestionTag + question + AnswerTag + db.documents[0].text)
    {
      var query := db.embedding(question).value;
      var d := db.documents[0];
      var x := SearchResult(d.id, d.text, db.similarity(query, d.embedding));
      assert db.documents[1..] == [];
      assert Qualifying(db.similarity, db.documents, query, similarityThreshold) == [x];
      assert SortByScore([x]) == [x];
      assert Texts([x]) == [d.text];
    }

    /**
     * A store holding two qualifying documents, the first scoring more than the second:
     * both texts, the better one first, joined by ". ".
     */
    lemma PromptTwoDocuments(question: string, similarityThreshold: real)
      requires db.embedding(question).Some? && |db.documents| == 2
      requires
        var query := db.embedding(question).value;
        similarityThreshold <= db.similarity(query, db.documents[1].embedding) < db.similarity(query, db.documents[0].embedding)
      ensures Prompt(question, similarityThreshold)
           == Success(QuestionTag + question + AnswerTag + db.documents[0].text + TextSeparator + db.documents[1].text)
    {
      var query := db.embedding(question).value;
      var d0, d1 := db.documents[0], db.documents[1];
      var x0 := SearchResult(d0.id, d0.text, db.similarity(query, d0.embedding));
      var x1 := SearchResult(d1.id, d1.text, db.similarity(query, d1.embedding));
      assert db.documents[1..] == [d1] && db.documents[1..][1..] == [];
      assert ComputeSimilarity(db.similarity, d1, query, similarityThreshold) == Some(x1);
      assert Qualifying(db.similarity, [d1], query, similarityThreshold) == [x1];
      assert ComputeSimilarity(db.similarity, d0, query, similarityThreshold) == Some(x0);
      assert Qualifying(db.similarity, db.documents, query, similarityThreshold) == [x0] + [x1];
      assert [x0, x1][1..] == [x1];
      assert SortByScore([x1]) == [x1];
      assert SortByScore([x0, x1]) == Insert(x0, [x1]) == [x0, x1];
      var texts := Texts([x0, x1]);
      assert texts == [d0.text, d1.text] && texts[1..] == [d1.text];
      assert Join(texts, TextSeparator) == d0.text + TextSeparator + d1.text;
      assert Prefix([x0, x1], DefaultLimit) == [x0, x1];
      assert db.Search(question, DefaultLimit, similarityThreshold) == Success([x0, x1]);
      assert BuildPrompt(question, [x0, x1])
          == QuestionTag + question + AnswerTag + d0.text + TextSeparator + d1.text;
    }

    /**
     * A store holding two qualifying documents, scored in any way (ties included): both
     * texts come, joined by ". ", in one order or the other, and a strictly better one first.
     */
    lemma PromptTwoDocumentsAnyOrder(question: string, similarityThreshold: real)
      requires db.embedding(question).Some? && |db.documents| == 2
      requires
        var query := db.embedding(question).value;
        similarityThreshold <= db.similarity(query, db.documents[0].embedding) &&
        similarityThreshold <= db.similarity(query, db.documents[1].embedding)
      ensures
        var query := db.embedding(question).value;
        var s0, s1 := db.similarity(query, db.documents[0].embedding), db.similarity(query, db.documents[1].embedding);
        var first := QuestionTag + question + AnswerTag + db.documents[0].text + TextSeparator + db.documents[1].text;
        var second := QuestionTag + question + AnswerTag + db.documents[1].text + TextSeparator + db.documents[0].text;
        (Prompt(question, similarityThreshold) == Success(first) || Prompt(question, similarityThreshold) == Success(second)) &&
        (s1 < s0 ==> Prompt(question, similarityThreshold) == Success(first)) &&
        (s0 < s1 ==> Prompt(question, similarityThreshold) == Success(second))
    {
      var query := db.embedding(question).value;
      var d0, d1 := db.documents[0], db.documents[1];
      var x0 := SearchResult(d0.id, d0.text, db.similarity(query, d0.embedding));
      var x1 := SearchResult(d1.id, d1.text, db.similarity(query, d1.embedding));
      assert db.documents[1..] == [d1] && db.documents[1..][1..] == [];
      assert ComputeSimilarity(db.similarity, d1, query, similarityThreshold) == Some(x1);
      assert Qualifying(db.similarity, [d1], query, similarityThreshold) == [x1];
      assert ComputeSimilarity(db.similarity, d0, query, similarityThreshold) == Some(x0);
      assert Qualifying(db.similarity, db.documents, query, similarityThreshold) == [x0] + [x1];
      assert [x0, x1][1..] == [x1];
      assert SortByScore([x1]) == [x1];
      var sorted := SortByScore([x0, x1]);
      assert sorted == Insert(x0, [x1]);
      if x0.score >= x1.score {
        assert sorted == [x0, x1];
      } else {
        assert Insert(x0, []) == [x0];
        assert sorted == [x1, x0];
      }
      assert Prefix(sorted, DefaultLimit) == sorted;
      assert db.Search(question, DefaultLimit, similarityThreshold) == Success(sorted);
      var texts := Texts(sorted);
      assert texts[1..] == [sorted[1].text];
      assert Join(texts, TextSeparator) == sorted[0].text + TextSeparator + sorted[1].text;
      assert BuildPrompt(question, sorted)
          == QuestionTag + question + AnswerTag + sorted[0].text + TextSeparator + sorted[1].text;
    }

    /** The reply `ask` gives for a model's prediction, with the elapsed time paired to it. */
    static function Answer(prediction: Result<string, Session.PredictError>, elapsed: real): (r: Result<(string, real), AskError>)
      ensures prediction.Success? <==> r.Success?
      ensures r.Success? ==> r.value == (prediction.value, elapsed)
      ensures r.Failure? ==> r.error == Prediction(prediction.error)
    {
      match prediction
      case Success(reply) => Success((reply, elapsed))
      case Failure(e) => Failure(Prediction(e))
    }

    /**
     * `ask(question:similarityThreshold:)`: no model is `modelNotLoaded` before anything
     * else; then the prompt is built and the model predicts on it. `sample` is the
     * native sampler and `elapsed` the clock reading the RWKV session pairs its reply with.
     */
    method Ask(question: string, similarityThreshold: real, sample: Session.Sampler, elapsed: real)
      returns (r: Result<(string, real), AskError>)
      requires Valid()
      requires model.Some? && model.value.RwkvModel? ==> model.value.session.parameters.numberOfBatch > 0
      modifies Sessions()
      ensures model == old(model) && Valid()
      ensures old(model).None? ==> r == Failure(Facade(ModelNotLoaded))
      ensures old(model).Some? && Prompt(question, similarityThreshold).Failure? ==>
        r == Failure(Database(Prompt(question, similarityThreshold).error))
      ensures old(model).Some? && old(model).value.TestingModel? && Prompt(question, similarityThreshold).Success? ==>
        r == Success(old(model).value.prediction)
      ensures old(model).Some? && old(model).value.RwkvModel? && Prompt(question, similarityThreshold).Success? ==>
        var session := model.value.session;
        var outcome := session.PredictSpec(old(session.nPast), old(session.past), old(session.engineCalls),
                                           Prompt(question, similarityThreshold).value, sample);
        && r == Answer(outcome.result, elapsed)
        && session.nPast == outcome.nPast && session.past == outcome.past && session.engineCalls == outcome.calls
    {
      if model.None? {
        return Failure(Facade(ModelNotLoaded));
      }
      var prompt := Prompt(question, similarityThreshold);
      if prompt.Failure? {
        return Failure(Database(prompt.error));
      }
      match model.value
      case TestingModel(prediction) =>
        r := Success(prediction);
      case RwkvModel(session) =>
        var reply := session.Predict(prompt.value, sample);
        r := Answer(reply, elapsed);
    }
  }

  /** Right after loading the testing model, any question the store can embed is answered "Test reply" in no time. */
  method AskTestingModel(app: MobileLLM, question: string, tokenizer: Tokenizer, sample: Session.Sampler)
    returns (r: Result<(string, real), AskError>)
    requires app.Valid() && app.db.embedding(question).Some?
    modifies app
    ensures r == Success(("Test reply", 0.0))
  {
    var loaded := app.Load(Testing, false, Default, tokenizer, tokenizer, Session.Engine(0, 0, 0));
    r := app.Ask(question, DefaultThreshold, sample, 0.0);
  }
}
