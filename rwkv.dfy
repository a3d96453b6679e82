/**
 * The RWKV generation session (Sources/LLM/RWKV.swift): prompt templating and
 * tokenisation, batched evaluation with context rotation, the token-by-token
 * generation loop with its stop conditions, and the clean-up of the reply.
 *
 * The native engine is not modelled: every call to it is recorded, in order, in the
 * ghost log `engineCalls` (one entry per chunk handed to `rwkv_eval_sequence`), and the
 * sampler behind `calculateToken` is an oracle that receives what the source computes
 * for it.
 */
module Session {
  import opened Utils
  import opened Strings
  import opened Tokenizing
  import opened ModelConfig

  /** `RWKVError`. */
  datatype RWKVError = FailedToInitializeContext | FailedToEvaluate | EmptyInput | ContextLimit

  /** What `predict` throws: an `RWKVError` or a `ModelError`. */
  datatype PredictError = RWKVFailure(rwkvError: RWKVError) | ModelFailure(modelError: ModelError)

  /** The constants the native engine reports: the BOS and EOS ids and the logits length. */
  datatype Engine = Engine(bos: int, eos: int, vocabularySize: int)

  /** `evaluate` hands the engine at most this many tokens per call. */
  const ChunkSize := 64

  /** The context size `calculateToken` assumes. */
  const ContextSize := 4096

  // ---------------------------------------------------------------------------
  // Prompt templating
  // ---------------------------------------------------------------------------

  /** The prompt format with the input substituted and escaped newlines turned into newlines. */
  function FormatPrompt(format: string, input: string): string {
    ReplaceAll(ReplaceAll(format, Placeholder, input), "\\n", "\n")
  }

  /**
   * A format made of plain text around one placeholder: the input lands between the two
   * texts, and its own escaped newlines are turned into newlines too.
   */
  lemma FillFormat(pre: string, post: string, input: string)
    requires '{' !in pre && '{' !in post && '\\' !in pre && '\\' !in post
    requires |post| > 0 && post[0] != 'n'
    ensures FormatPrompt(pre + Placeholder + post, input) == pre + ReplaceAll(input, "\\n", "\n") + post
  {
    assert pre + Placeholder + post == pre + (Placeholder + post);
    ReplaceAfterPlain(pre, Placeholder + post, Placeholder, input);
    ReplaceLeading(post, Placeholder, input);
    assert post + "" == post;
    ReplaceAfterPlain(post, "", Placeholder, input);
    assert ReplaceAll(pre + Placeholder + post, Placeholder, input) == pre + (input + post);
    ReplaceAfterPlain(pre, input + post, "\\n", "\n");
    forall j | 0 <= j < |input| < j + 2 ensures !OccursAt(input + post, "\\n", j) {
      var s := input + post;
      assert s[j + 1] == post[0];
      if j + 2 <= |s| {
        assert s[j..j + 2][1] == s[j + 1];
      }
    }
    ReplaceAppend(input, post, "\\n", "\n");
    ReplaceAfterPlain(post, "", "\\n", "\n");
  }

  /** With the default format the prompt is "USER: ", the input, then "\n\nAssistant:". */
  lemma DefaultPrompt(input: string)
    ensures FormatPrompt(Default.customPromptFormat, input)
         == "USER: " + ReplaceAll(input, "\\n", "\n") + "\n\nAssistant:"
  {
    var pre, post := "USER: ", "\n\nAssistant:";
    assert Default.customPromptFormat == pre + Placeholder + post;
    assert '{' !in pre && '\\' !in pre;
    assert '{' !in post && '\\' !in post;
    FillFormat(pre, post, input);
  }

  // ---------------------------------------------------------------------------
  // Batched evaluation
  // ---------------------------------------------------------------------------

  /**
   * The effect of `evaluateBatches` on the token counter and the engine: the final
   * counter, the engine calls in order, and which of those calls are the EOS rotation.
   */
  datatype Run = Run(nPast: int, calls: seq<seq<int>>, rotations: seq<bool>)

  /** `n` marks saying "not a rotation". */
  function Unmarked(n: nat): (marks: seq<bool>)
    ensures |marks| == n && forall i :: 0 <= i < n ==> !marks[i]
  {
    seq(n, _ => false)
  }

  /** The length of the next batch: `min(count - i, nBatch)`. */
  function BatchLength(tokens: seq<int>, batch: int): (n: nat)
    requires batch > 0
    ensures |tokens| > 0 ==> 0 < n
    ensures n <= |tokens| && n <= batch && (n == |tokens| || n == batch)
  {
    Min(|tokens|, batch)
  }

  /**
   * One batch: when it would fill the context the counter is reset and EOS is fed
   * first; then the batch goes to the engine in chunks and the counter grows by its
   * length.
   */
  function Batch(nPast: int, tokens: seq<int>, batch: int, maximumContext: int, eos: int): Run
    requires batch > 0
  {
    var n := BatchLength(tokens, batch);
    var chunks := Chunked(tokens[..n], ChunkSize);
    if nPast + n >= maximumContext then Run(n, [[eos]] + chunks, [true] + Unmarked(|chunks|))
    else Run(nPast + n, chunks, Unmarked(|chunks|))
  }

  /** `evaluateBatches(tokens:)`: the batches in order, each starting from the counter the last left. */
  ghost function BatchRun(nPast: int, tokens: seq<int>, batch: int, maximumContext: int, eos: int): Run
    requires batch > 0
    decreases |tokens|
  {
    if |tokens| == 0 then Run(nPast, [], [])
    else
      var step := Batch(nPast, tokens, batch, maximumContext, eos);
      var rest := BatchRun(step.nPast, tokens[BatchLength(tokens, batch)..], batch, maximumContext, eos);
      Run(rest.nPast, step.calls + rest.calls, step.rotations + rest.rotations)
  }

  /** One batch of the recursion, then the rest. */
  lemma BatchRunUnfold(nPast: int, tokens: seq<int>, batch: int, maximumContext: int, eos: int)
    requires batch > 0 && |tokens| > 0
    ensures BatchRun(nPast, tokens, batch, maximumContext, eos).nPast
         == BatchRun(Batch(nPast, tokens, batch, maximumContext, eos).nPast,
                     tokens[BatchLength(tokens, batch)..], batch, maximumContext, eos).nPast
    ensures BatchRun(nPast, tokens, batch, maximumContext, eos).calls
         == Batch(nPast, tokens, batch, maximumContext, eos).calls
          + BatchRun(Batch(nPast, tokens, batch, maximumContext, eos).nPast,
                     tokens[BatchLength(tokens, batch)..], batch, maximumContext, eos).calls
  {
  }

  /** The calls whose mark is false. */
  function Kept(calls: seq<seq<int>>, marks: seq<bool>): seq<seq<int>>
    requires |calls| == |marks|
    decreases |calls|
  {
    if |calls| == 0 then []
    else (if marks[0] then [] else [calls[0]]) + Kept(calls[1..], marks[1..])
  }

  lemma {:induction false} KeptAppend(c1: seq<seq<int>>, m1: seq<bool>, c2: seq<seq<int>>, m2: seq<bool>)
    requires |c1| == |m1| && |c2| == |m2|
    ensures Kept(c1 + c2, m1 + m2) == Kept(c1, m1) + Kept(c2, m2)
    decreases |c1|
  {
    if |c1| == 0 {
      assert c1 + c2 == c2 && m1 + m2 == m2;
    } else {
      assert (c1 + c2)[1..] == c1[1..] + c2;
      assert (m1 + m2)[1..] == m1[1..] + m2;
      KeptAppend(c1[1..], m1[1..], c2, m2);
    }
  }

  lemma {:induction false} KeptAll(calls: seq<seq<int>>, marks: seq<bool>)
    requires |calls| == |marks| && forall i :: 0 <= i < |marks| ==> !marks[i]
    ensures Kept(calls, marks) == calls
    decreases |calls|
  {
    if |calls| > 0 {
      KeptAll(calls[1..], marks[1..]);
    }
  }

  /** Each rotation call is the single EOS token and every other call holds 1 to 64 tokens. */
  ghost predicate WellShaped(calls: seq<seq<int>>, rotations: seq<bool>, eos: int) {
    && |calls| == |rotations|
    && forall i :: 0 <= i < |calls| ==>
         (rotations[i] ==> calls[i] == [eos]) && (!rotations[i] ==> 0 < |calls[i]| <= ChunkSize)
  }

  lemma WellShapedAppend(c1: seq<seq<int>>, r1: seq<bool>, c2: seq<seq<int>>, r2: seq<bool>, eos: int)
    requires WellShaped(c1, r1, eos) && WellShaped(c2, r2, eos)
    ensures WellShaped(c1 + c2, r1 + r2, eos)
  {
    forall i | |c1| <= i < |c1| + |c2| ensures (c1 + c2)[i] == c2[i - |c1|] && (r1 + r2)[i] == r2[i - |c1|] {
    }
  }

  /** The calls of one batch are well shaped. */
  lemma BatchShape(nPast: int, tokens: seq<int>, batch: int, maximumContext: int, eos: int)
    requires batch > 0
    ensures WellShaped(Batch(nPast, tokens, batch, maximumContext, eos).calls,
                       Batch(nPast, tokens, batch, maximumContext, eos).rotations, eos)
  {
    var n := BatchLength(tokens, batch);
    var chunks := Chunked(tokens[..n], ChunkSize);
    ChunkedSizes(tokens[..n], ChunkSize);
    assert WellShaped(chunks, Unmarked(|chunks|), eos);
    if nPast + n >= maximumContext {
      assert WellShaped([[eos]], [true], eos);
      WellShapedAppend([[eos]], [true], chunks, Unmarked(|chunks|), eos);
    }
  }

  /** The calls of a batch run are well shaped. */
  lemma {:induction false} BatchRunShape(nPast: int, tokens: seq<int>, batch: int, maximumContext: int, eos: int)
    requires batch > 0
    ensures WellShaped(BatchRun(nPast, tokens, batch, maximumContext, eos).calls,
                       BatchRun(nPast, tokens, batch, maximumContext, eos).rotations, eos)
    decreases |tokens|
  {
    if |tokens| > 0 {
      var step := Batch(nPast, tokens, batch, maximumContext, eos);
      var rest := BatchRun(step.nPast, tokens[BatchLength(tokens, batch)..], batch, maximumContext, eos);
      BatchShape(nPast, tokens, batch, maximumContext, eos);
      BatchRunShape(step.nPast, tokens[BatchLength(tokens, batch)..], batch, maximumContext, eos);
      WellShapedAppend(step.calls, step.rotations, rest.calls, rest.rotations, eos);
    }
  }

  /** The calls of one batch other than the rotation are, concatenated, the batch. */
  lemma BatchKept(nPast: int, tokens: seq<int>, batch: int, maximumContext: int, eos: int)
    requires batch > 0
    ensures |Batch(nPast, tokens, batch, maximumContext, eos).calls|
         == |Batch(nPast, tokens, batch, maximumContext, eos).rotations|
    ensures Flatten(Kept(Batch(nPast, tokens, batch, maximumContext, eos).calls,
                         Batch(nPast, tokens, batch, maximumContext, eos).rotations))
         == tokens[..BatchLength(tokens, batch)]
  {
    var n := BatchLength(tokens, batch);
    var chunks := Chunked(tokens[..n], ChunkSize);
    var plain := Unmarked(|chunks|);
    ChunkedFlatten(tokens[..n], ChunkSize);
    KeptAll(chunks, plain);
    if nPast + n >= maximumContext {
      KeptAppend([[eos]], [true], chunks, plain);
      assert Kept([[eos]], [true]) == [];
      assert [] + chunks == chunks;
    }
  }

  /** The calls of a batch run other than the rotations are, concatenated, exactly the input. */
  lemma {:induction false} BatchRunKept(nPast: int, tokens: seq<int>, batch: int, maximumContext: int, eos: int)
    requires batch > 0
    ensures |BatchRun(nPast, tokens, batch, maximumContext, eos).rotations|
         == |BatchRun(nPast, tokens, batch, maximumContext, eos).calls|
    ensures Flatten(Kept(BatchRun(nPast, tokens, batch, maximumContext, eos).calls,
                         BatchRun(nPast, tokens, batch, maximumContext, eos).rotations)) == tokens
    decreases |tokens|
  {
    if |tokens| > 0 {
      var n := BatchLength(tokens, batch);
      var step := Batch(nPast, tokens, batch, maximumContext, eos);
      var rest := BatchRun(step.nPast, tokens[n..], batch, maximumContext, eos);
      BatchKept(nPast, tokens, batch, maximumContext, eos);
      BatchRunKept(step.nPast, tokens[n..], batch, maximumContext, eos);
      KeptAppend(step.calls, step.rotations, rest.calls, rest.rotations);
      FlattenAppend(Kept(step.calls, step.rotations), Kept(rest.calls, rest.rotations));
      assert tokens[..n] + tokens[n..] == tokens;
    }
  }

  /**
   * Starting from a non-negative counter, a prompt shorter than the context leaves the
   * counter non-negative and below the context, whether or not the context rotated.
   */
  lemma {:induction false} BatchRunBound(nPast: int, tokens: seq<int>, batch: int, maximumContext: int, eos: int)
    requires batch > 0 && 0 <= nPast && |tokens| < maximumContext
    requires |tokens| > 0 || nPast < maximumContext
    ensures 0 <= BatchRun(nPast, tokens, batch, maximumContext, eos).nPast < maximumContext
    decreases |tokens|
  {
    if |tokens| > 0 {
      var step := Batch(nPast, tokens, batch, maximumContext, eos);
      BatchRunBound(step.nPast, tokens[BatchLength(tokens, batch)..], batch, maximumContext, eos);
    }
  }

  /**
   * When the prompt fits behind the tokens already in the context, nothing rotates: the
   * counter grows by the prompt length and the engine sees exactly the prompt.
   */
  lemma {:induction false} BatchRunNoRotation(nPast: int, tokens: seq<int>, batch: int, maximumContext: int, eos: int)
    requires batch > 0 && nPast + |tokens| < maximumContext
    ensures BatchRun(nPast, tokens, batch, maximumContext, eos).nPast == nPast + |tokens|
    ensures forall i :: 0 <= i < |BatchRun(nPast, tokens, batch, maximumContext, eos).rotations| ==>
      !BatchRun(nPast, tokens, batch, maximumContext, eos).rotations[i]
    ensures Flatten(BatchRun(nPast, tokens, batch, maximumContext, eos).calls) == tokens
    decreases |tokens|
  {
    if |tokens| > 0 {
      var n := BatchLength(tokens, batch);
      var step := Batch(nPast, tokens, batch, maximumContext, eos);
      var rest := BatchRun(nPast + n, tokens[n..], batch, maximumContext, eos);
      assert step == Run(nPast + n, Chunked(tokens[..n], ChunkSize), Unmarked(|step.calls|));
      BatchRunNoRotation(nPast + n, tokens[n..], batch, maximumContext, eos);
      ChunkedFlatten(tokens[..n], ChunkSize);
      FlattenAppend(step.calls, rest.calls);
      assert tokens[..n] + tokens[n..] == tokens;
      var run := BatchRun(nPast, tokens, batch, maximumContext, eos);
      assert run.rotations == step.rotations + rest.rotations;
      forall i | 0 <= i < |run.rotations| ensures !run.rotations[i] {
        if i >= |step.rotations| {
          assert run.rotations[i] == rest.rotations[i - |step.rotations|];
        }
      }
    }
  }

  // ---------------------------------------------------------------------------
  // What calculateToken hands the sampler
  // ---------------------------------------------------------------------------

  /** `topK`: a non-positive setting means the whole vocabulary. */
  function EffectiveTopK(topK: int, vocabularySize: int): (k: int)
    ensures topK <= 0 ==> k == vocabularySize
    ensures topK > 0 ==> k == topK
  {
    if topK <= 0 then vocabularySize else topK
  }

  /** `repeatLast`: a negative setting means the whole context. */
  function EffectiveRepeatLast(repeatLastNumber: int): (n: int)
    ensures n >= 0
    ensures repeatLastNumber < 0 ==> n == ContextSize
    ensures repeatLastNumber >= 0 ==> n == repeatLastNumber
  {
    if repeatLastNumber < 0 then ContextSize else repeatLastNumber
  }

  /** `lastPenaltyRepeat`: the number of recent tokens the frequency penalty looks at. */
  function PenaltyLength(count: int, repeatLast: int): (n: int)
    ensures n <= count && n <= repeatLast && n <= ContextSize
    ensures n == count || n == repeatLast || n == ContextSize
  {
    Min(Min(count, repeatLast), ContextSize)
  }

  /**
   * Everything the sampling step depends on besides the engine's logits: the step
   * number, the recent-token window and the three counts computed from the parameters.
   */
  datatype SamplingRequest = SamplingRequest(step: nat, lastTokens: seq<int>, topK: int,
                                             repeatLast: int, penaltyLength: int)

  /** The native sampler: any token for any request. */
  type Sampler = SamplingRequest -> int

  /** What `calculateToken` hands the native sampler at a step, besides the logits. */
  function CalculateRequest(p: ModelParameters, vocabularySize: int, step: nat, lastTokens: seq<int>): SamplingRequest {
    var repeatLast := EffectiveRepeatLast(p.repeatLastNumber);
    SamplingRequest(step, lastTokens, EffectiveTopK(p.topK, vocabularySize), repeatLast,
                    PenaltyLength(|lastTokens|, repeatLast))
  }

  /** Non-negative part, the bound the recent-token window keeps. */
  function Max0(x: int): nat {
    if x < 0 then 0 else x
  }

  /**
   * The window update of the generation loop: the new token is appended and, when the
   * window then exceeds `repeatLastNumber`, its oldest token is dropped.
   */
  function UpdateWindow(window: seq<int>, token: int, repeatLastNumber: int): (w: seq<int>)
    ensures |window| <= Max0(repeatLastNumber) ==> |w| <= Max0(repeatLastNumber)
    ensures |window| <= |w| <= |window| + 1
    ensures w == (window + [token])[|window| + 1 - |w|..]
    ensures |window| < repeatLastNumber ==> w == window + [token]
  {
    var appended := window + [token];
    if |appended| > repeatLastNumber then appended[1..] else appended
  }

  /**
   * A window the loop keeps within bounds is covered by the frequency penalty: the
   * penalty looks at every token of it, provided the setting does not exceed the
   * context size.
   */
  lemma PenaltyCoversWindow(window: seq<int>, repeatLastNumber: int)
    requires |window| <= Max0(repeatLastNumber) && repeatLastNumber <= ContextSize
    ensures PenaltyLength(|window|, EffectiveRepeatLast(repeatLastNumber)) == |window|
  {
  }

  /** A window holding the most recent tokens still does after the update. */
  lemma WindowStep(window: seq<int>, tokens: seq<int>, token: int, repeatLastNumber: int)
    requires |window| <= Max0(repeatLastNumber) && |window| <= |tokens|
    requires window == tokens[|tokens| - |window|..]
    ensures |UpdateWindow(window, token, repeatLastNumber)| <= Max0(repeatLastNumber)
    ensures |UpdateWindow(window, token, repeatLastNumber)| <= |tokens| + 1
    ensures UpdateWindow(window, token, repeatLastNumber)
         == (tokens + [token])[|tokens| + 1 - |UpdateWindow(window, token, repeatLastNumber)|..]
    ensures repeatLastNumber >= 1 ==> |UpdateWindow(window, token, repeatLastNumber)| >= 1
  {
    var tokens' := tokens + [token];
    assert window + [token] == tokens'[|tokens'| - |window| - 1..];
  }

  // ---------------------------------------------------------------------------
  // Stop words and clean-up
  // ---------------------------------------------------------------------------

  /** A decoded piece stops generation when it equals or ends with a stop word. */
  predicate StopMatch(piece: string, stops: seq<string>) {
    exists i :: 0 <= i < |stops| && (piece == stops[i] || EndsWith(piece, stops[i]))
  }

  /** The stop-word scan of the generation loop. */
  method IsStopWord(piece: string, stops: seq<string>) returns (stop: bool)
    ensures stop == StopMatch(piece, stops)
  {
    for i := 0 to |stops|
      invariant forall j :: 0 <= j < i ==> !(piece == stops[j] || EndsWith(piece, stops[j]))
    {
      if piece == stops[i] || EndsWith(piece, stops[i]) {
        return true;
      }
    }
    return false;
  }

  /** The pieces with every trailing "\n" piece removed. */
  function TrimNewlines(pieces: seq<string>): (r: seq<string>)
    ensures |r| <= |pieces| && r == pieces[..|r|]
    ensures |r| > 0 ==> r[|r| - 1] != "\n"
    ensures forall i :: |r| <= i < |pieces| ==> pieces[i] == "\n"
    decreases |pieces|
  {
    if |pieces| > 0 && pieces[|pieces| - 1] == "\n" then TrimNewlines(pieces[..|pieces| - 1])
    else pieces
  }

  /** The trailing-newline loop of `clean`. */
  method RemoveTrailingNewlines(pieces: seq<string>) returns (r: seq<string>)
    ensures r == TrimNewlines(pieces)
  {
    r := pieces;
    while |r| > 0 && r[|r| - 1] == "\n"
      invariant TrimNewlines(r) == TrimNewlines(pieces)
      decreases |r|
    {
      r := r[..|r| - 1];
    }
  }

  /** `clean` is defined by the source only when the first piece has a character to drop. */
  predicate CleanDefined(output: seq<string>) {
    |output| == 0 || |output[0]| > 0
  }

  /** `clean` as written: drops the first character of the first piece, then trailing newlines. */
  method CleanAsWritten(output: seq<string>) returns (newOutput: seq<string>)
    requires CleanDefined(output)
    ensures |output| == 0 ==> newOutput == output
    ensures |output| > 0 ==> newOutput == TrimNewlines([output[0][1..]] + output[1..])
  {
    if |output| == 0 {
      return output;
    }
    var message := output[0][1..];
    newOutput := output[0 := message];
    assert newOutput == [message] + output[1..];
    newOutput := RemoveTrailingNewlines(newOutput);
  }

  /** The first character of a piece, when there is one, removed. */
  function DropFirst(s: string): (r: string)
    ensures |s| > 0 ==> s == [s[0]] + r
    ensures |s| == 0 ==> r == s
  {
    if |s| == 0 then s else s[1..]
  }

  /** The reply pieces after clean-up. */
  function CleanOutput(output: seq<string>): seq<string> {
    if |output| == 0 then output else TrimNewlines([DropFirst(output[0])] + output[1..])
  }

  /** `clean`, total: an empty first piece is left as it is. */
  method Clean(output: seq<string>) returns (newOutput: seq<string>)
    ensures newOutput == CleanOutput(output)
  {
    if |output| == 0 {
      return output;
    }
    var message := output[0];
    if |message| > 0 {
      message := message[1..];
    }
    newOutput := output[0 := message];
    assert newOutput == [DropFirst(output[0])] + output[1..];
    newOutput := RemoveTrailingNewlines(newOutput);
  }

  /**
   * What clean-up keeps: the first piece without its first character, then the other
   * pieces in order, up to the point after which only "\n" pieces follow; the reply
   * never ends in a "\n" piece. Where `clean` as written is defined it agrees.
   */
  lemma CleanShape(output: seq<string>)
    requires |output| > 0
    ensures |CleanOutput(output)| <= |output|
    ensures |CleanOutput(output)| > 0 ==> CleanOutput(output)[0] == DropFirst(output[0])
    ensures forall i :: 1 <= i < |CleanOutput(output)| ==> CleanOutput(output)[i] == output[i]
    ensures forall i :: |CleanOutput(output)| <= i < |output| && i > 0 ==> output[i] == "\n"
    ensures |CleanOutput(output)| > 0 ==> CleanOutput(output)[|CleanOutput(output)| - 1] != "\n"
    ensures CleanDefined(output) ==> CleanOutput(output) == TrimNewlines([output[0][1..]] + output[1..])
  {
    var p := [DropFirst(output[0])] + output[1..];
    assert forall i :: 1 <= i < |p| ==> p[i] == output[i];
  }

  /** A reply with no "\n" piece after clean-up's first step loses only the first character of its first piece. */
  lemma CleanPlain(output: seq<string>)
    requires |output| > 0 && DropFirst(output[0]) != "\n"
    requires forall i :: 1 <= i < |output| ==> output[i] != "\n"
    ensures CleanOutput(output) == [DropFirst(output[0])] + output[1..]
  {
    var p := [DropFirst(output[0])] + output[1..];
    assert p[|p| - 1] != "\n";
  }

  // ---------------------------------------------------------------------------
  // The session
  // ---------------------------------------------------------------------------

  /** How generation ended. */
  datatype Ending = EndOfSequence | StopWord | OutOfContext

  /** The loop state when the generation loop ends. */
  datatype Generation = Generation(ending: Ending, nPast: int, calls: seq<seq<int>>, window: seq<int>,
                                   outputTokens: seq<int>, output: seq<string>)

  /** What one `predict` call returns and leaves behind. */
  datatype Outcome = Outcome(result: Result<string, PredictError>, nPast: int, past: seq<seq<int>>,
                             calls: seq<seq<int>>)

  /** The single-token engine calls for the tokens, in order. */
  ghost function Singletons(tokens: seq<int>): (r: seq<seq<int>>)
    ensures |r| == |tokens|
  {
    seq(|tokens|, i requires 0 <= i < |tokens| => [tokens[i]])
  }

  /** Peeling the first token off a slice peels its call off the single-token calls. */
  lemma SingletonsFrom(tokens: seq<int>, i: nat, j: nat)
    requires i < j <= |tokens|
    ensures Singletons(tokens[i..j]) == [[tokens[i]]] + Singletons(tokens[i + 1..j])
  {
    assert tokens[i..j] == [tokens[i]] + tokens[i + 1..j];
  }

  class RWKV {
    const parameters: ModelParameters
    const tokenizerFromString: Tokenizer
    const tokenizerToString: Tokenizer
    const engine: Engine
    /** The tokens of every prompt and reply, in order. */
    var past: seq<seq<int>>
    /** The number of tokens in the engine's context. */
    var nPast: int
    /** Every call to the native evaluator, in order. */
    ghost var engineCalls: seq<seq<int>>

    ghost predicate Valid()
      reads this
    {
      && 0 <= nPast
      && tokenizerFromString.Valid()
      && tokenizerToString.Valid()
      && tokenizerToString.GlyphVocabulary()
    }

    /**
     * The part of `init` after the model file loaded: the session starts empty and the
     * engine is primed with BOS and EOS.
     */
    constructor (parameters: ModelParameters, tokenizerFromString: Tokenizer, tokenizerToString: Tokenizer,
                 engine: Engine)
      requires tokenizerFromString.Valid() && tokenizerToString.Valid() && tokenizerToString.GlyphVocabulary()
      ensures Valid()
      ensures this.parameters == parameters && this.engine == engine
      ensures this.tokenizerFromString == tokenizerFromString && this.tokenizerToString == tokenizerToString
      ensures past == [] && nPast == 0 && engineCalls == [[engine.bos, engine.eos]]
    {
      this.parameters := parameters;
      this.tokenizerFromString := tokenizerFromString;
      this.tokenizerToString := tokenizerToString;
      this.engine := engine;
      past := [];
      nPast := 0;
      engineCalls := [];
      new;
      ChunkedShort([engine.bos, engine.eos], ChunkSize);
      Evaluate([engine.bos, engine.eos]);
    }

    /**
     * `init`: `contextCreated` stands for the native loader's answer; when it fails the
     * initializer throws before any session exists.
     */
    static method Open(contextCreated: bool, parameters: ModelParameters, tokenizerFromString: Tokenizer,
                       tokenizerToString: Tokenizer, engine: Engine) returns (r: Result<RWKV, RWKVError>)
      requires tokenizerFromString.Valid() && tokenizerToString.Valid() && tokenizerToString.GlyphVocabulary()
      ensures !contextCreated ==> r == Failure(FailedToInitializeContext)
      ensures contextCreated ==> r.Success? && fresh(r.value) && r.value.Valid()
      ensures contextCreated ==> r.value.parameters == parameters && r.value.engine == engine
      ensures contextCreated ==> r.value.tokenizerFromString == tokenizerFromString
      ensures contextCreated ==> r.value.tokenizerToString == tokenizerToString
      ensures contextCreated ==> r.value.past == [] && r.value.nPast == 0
      ensures contextCreated ==> r.value.engineCalls == [[engine.bos, engine.eos]]
    {
      if !contextCreated {
        return Failure(FailedToInitializeContext);
      }
      var session := new RWKV(parameters, tokenizerFromString, tokenizerToString, engine);
      return Success(session);
    }

    /** `evaluate`: the batch goes to the engine in chunks of 64 tokens. */
    method Evaluate(inputBatch: seq<int>)
      modifies this
      ensures engineCalls == old(engineCalls) + Chunked(inputBatch, ChunkSize)
      ensures past == old(past) && nPast == old(nPast)
      ensures old(Valid()) ==> Valid()
    {
      var tokenChunks := Chunked(inputBatch, ChunkSize);
      for k := 0 to |tokenChunks|
        invariant engineCalls == old(engineCalls) + tokenChunks[..k]
        invariant past == old(past) && nPast == old(nPast)
      {
        assert tokenChunks[..k + 1] == tokenChunks[..k] + [tokenChunks[k]];
        engineCalls := engineCalls + [tokenChunks[k]];
      }
      assert tokenChunks[..|tokenChunks|] == tokenChunks;
    }

    /** The token ids of the templated prompt. */
    ghost function PromptTokens(input: string): seq<int>
      requires tokenizerFromString.Valid()
    {
      Lookup(tokenizerFromString.encoder,
             TokenizeSpec(tokenizerFromString, FormatPrompt(parameters.customPromptFormat, input)))
    }

    /**
     * `tokenize(input:)`: templates and encodes the prompt; an empty encoding is
     * `emptyInput`, one not shorter than the context is `inputTooLong`; only an accepted
     * prompt is recorded in `past`.
     */
    method Tokenize(input: string) returns (r: Result<seq<int>, PredictError>)
      requires Valid()
      modifies this
      ensures |PromptTokens(input)| == 0 ==> r == Failure(RWKVFailure(EmptyInput)) && past == old(past)
      ensures 0 < |PromptTokens(input)| && |PromptTokens(input)| >= parameters.maximumContext ==>
        r == Failure(ModelFailure(InputTooLong)) && past == old(past)
      ensures 0 < |PromptTokens(input)| < parameters.maximumContext ==>
        r == Success(PromptTokens(input)) && past == old(past) + [PromptTokens(input)]
      ensures nPast == old(nPast) && engineCalls == old(engineCalls)
    {
      var formatedInput := ReplaceAll(parameters.customPromptFormat, Placeholder, input);
      formatedInput := ReplaceAll(formatedInput, "\\n", "\n");
      var tokens := Encode(tokenizerFromString, formatedInput);
      if |tokens| == 0 {
        return Failure(RWKVFailure(EmptyInput));
      }
      if |tokens| >= parameters.maximumContext {
        return Failure(ModelFailure(InputTooLong));
      }
      past := past + [tokens];
      return Success(tokens);
    }

    /**
     * `evaluateBatches`: feeds the prompt in batches of `numberOfBatch` tokens; when a
     * batch would not fit behind the tokens in the context, the counter restarts at 0
     * and the engine is first fed EOS.
     */
    method EvaluateBatches(tokens: seq<int>)
      requires Valid() && parameters.numberOfBatch > 0
      modifies this
      ensures Valid()
      ensures nPast == BatchRun(old(nPast), tokens, parameters.numberOfBatch, parameters.maximumContext, engine.eos).nPast
      ensures engineCalls == old(engineCalls)
        + BatchRun(old(nPast), tokens, parameters.numberOfBatch, parameters.maximumContext, engine.eos).calls
      ensures past == old(past)
    {
      ghost var total := BatchRun(nPast, tokens, parameters.numberOfBatch, parameters.maximumContext, engine.eos);
      var remaining := tokens;
      while |remaining| > 0
        invariant Valid() && past == old(past)
        invariant BatchRun(nPast, remaining, parameters.numberOfBatch, parameters.maximumContext, engine.eos).nPast
               == total.nPast
        invariant engineCalls
          + BatchRun(nPast, remaining, parameters.numberOfBatch, parameters.maximumContext, engine.eos).calls
          == old(engineCalls) + total.calls
        decreases |remaining|
      {
        ghost var callsBefore := engineCalls;
        BatchRunUnfold(nPast, remaining, parameters.numberOfBatch, parameters.maximumContext, engine.eos);
        ghost var step := Batch(nPast, remaining, parameters.numberOfBatch, parameters.maximumContext, engine.eos);
        ghost var rest := BatchRun(step.nPast, remaining[BatchLength(remaining, parameters.numberOfBatch as int)..],
                                   parameters.numberOfBatch, parameters.maximumContext, engine.eos);
        var evalCount := EvaluateBatch(remaining);
        remaining := remaining[evalCount..];
        assert engineCalls + rest.calls == callsBefore + (step.calls + rest.calls);
      }
    }

    /**
     * The body of the loop in `evaluateBatches`: the next `min(count - i, nBatch)` tokens,
     * after resetting the counter and feeding EOS when they would fill the context.
     */
    method EvaluateBatch(remaining: seq<int>) returns (evalCount: nat)
      requires Valid() && parameters.numberOfBatch > 0 && |remaining| > 0
      modifies this
      ensures Valid() && past == old(past)
      ensures evalCount == BatchLength(remaining, parameters.numberOfBatch as int)
      ensures nPast == Batch(old(nPast), remaining, parameters.numberOfBatch, parameters.maximumContext, engine.eos).nPast
      ensures engineCalls == old(engineCalls)
        + Batch(old(nPast), remaining, parameters.numberOfBatch, parameters.maximumContext, engine.eos).calls
    {
      evalCount := Min(|remaining|, parameters.numberOfBatch as int);
      var inputBatch := remaining[..evalCount];
      if nPast + |inputBatch| >= parameters.maximumContext {
        nPast := 0;
        ChunkedShort([engine.eos], ChunkSize);
        Evaluate([engine.eos]);
        Evaluate(inputBatch);
        nPast := nPast + evalCount;
        assert engineCalls == old(engineCalls) + ([[engine.eos]] + Chunked(inputBatch, ChunkSize));
      } else {
        Evaluate(inputBatch);
        nPast := nPast + evalCount;
      }
    }

    /** The text of one generated token. */
    ghost function Piece(token: int): string
      requires tokenizerToString.GlyphVocabulary()
    {
      VocabularyDecodable(tokenizerToString, [token]);
      Decode(tokenizerToString, [token])
    }

    /**
     * The generation loop of `predict`, from a given loop state: sample a token, record
     * it, update the window, decode it; stop at EOS or a stop word without keeping the
     * piece; otherwise keep the piece and, when the context is nearly full, halve the
     * counter, feed EOS and fail, else feed the token and go on.
     */
    ghost function Generate(sample: Sampler, nPast: int, calls: seq<seq<int>>, window: seq<int>,
                            outputTokens: seq<int>, output: seq<string>): Generation
      requires tokenizerToString.GlyphVocabulary()
      decreases parameters.maximumContext - nPast
    {
      var token := NextToken(sample, outputTokens, window);
      var tokens' := outputTokens + [token];
      var window' := UpdateWindow(window, token, parameters.repeatLastNumber);
      var piece := Piece(token);
      if token == engine.eos then Generation(EndOfSequence, nPast, calls, window', tokens', output)
      else if StopMatch(piece, parameters.stopPrompts) then Generation(StopWord, nPast, calls, window', tokens', output)
      else if nPast > parameters.maximumContext - 4 then
        Generation(OutOfContext, nPast / 2, calls + [[engine.eos]], window', tokens', output + [piece])
      else Generate(sample, nPast + 1, calls + [[token]], window', tokens', output + [piece])
    }

    /** The token the sampler picks at the next step. */
    function NextToken(sample: Sampler, outputTokens: seq<int>, window: seq<int>): int {
      sample(CalculateRequest(parameters, engine.vocabularySize, |outputTokens|, window))
    }

    /** Whether the loop goes on after the next step. */
    ghost predicate Continues(sample: Sampler, nPast: int, window: seq<int>, outputTokens: seq<int>)
      requires tokenizerToString.GlyphVocabulary()
    {
      && NextToken(sample, outputTokens, window) != engine.eos
      && !StopMatch(Piece(NextToken(sample, outputTokens, window)), parameters.stopPrompts)
      && nPast <= parameters.maximumContext - 4
    }

    /** One step of the loop when it goes on. */
    lemma GenerateStep(sample: Sampler, nPast: int, calls: seq<seq<int>>, window: seq<int>,
                       outputTokens: seq<int>, output: seq<string>)
      requires tokenizerToString.GlyphVocabulary() && Continues(sample, nPast, window, outputTokens)
      ensures Generate(sample, nPast, calls, window, outputTokens, output)
           == Generate(sample, nPast + 1, calls + [[NextToken(sample, outputTokens, window)]],
                       UpdateWindow(window, NextToken(sample, outputTokens, window), parameters.repeatLastNumber),
                       outputTokens + [NextToken(sample, outputTokens, window)],
                       output + [Piece(NextToken(sample, outputTokens, window))])
    {
    }

    /** The step that ends the loop. */
    lemma GenerateLast(sample: Sampler, nPast: int, calls: seq<seq<int>>, window: seq<int>,
                       outputTokens: seq<int>, output: seq<string>)
      requires tokenizerToString.GlyphVocabulary() && !Continues(sample, nPast, window, outputTokens)
      ensures Generate(sample, nPast, calls, window, outputTokens, output).outputTokens
           == outputTokens + [NextToken(sample, outputTokens, window)]
      ensures Generate(sample, nPast, calls, window, outputTokens, output).window
           == UpdateWindow(window, NextToken(sample, outputTokens, window), parameters.repeatLastNumber)
      ensures NextToken(sample, outputTokens, window) == engine.eos ==>
        Generate(sample, nPast, calls, window, outputTokens, output)
          == Generation(EndOfSequence, nPast, calls, UpdateWindow(window, NextToken(sample, outputTokens, window), parameters.repeatLastNumber),
                        outputTokens + [NextToken(sample, outputTokens, window)], output)
      ensures (NextToken(sample, outputTokens, window) != engine.eos
               && StopMatch(Piece(NextToken(sample, outputTokens, window)), parameters.stopPrompts)) ==>
        Generate(sample, nPast, calls, window, outputTokens, output)
          == Generation(StopWord, nPast, calls, UpdateWindow(window, NextToken(sample, outputTokens, window), parameters.repeatLastNumber),
                        outputTokens + [NextToken(sample, outputTokens, window)], output)
      ensures (NextToken(sample, outputTokens, window) != engine.eos
               && !StopMatch(Piece(NextToken(sample, outputTokens, window)), parameters.stopPrompts)) ==>
        Generate(sample, nPast, calls, window, outputTokens, output)
          == Generation(OutOfContext, nPast / 2, calls + [[engine.eos]],
                        UpdateWindow(window, NextToken(sample, outputTokens, window), parameters.repeatLastNumber),
                        outputTokens + [NextToken(sample, outputTokens, window)],
                        output + [Piece(NextToken(sample, outputTokens, window))])
    {
    }

    /** The outcome once the loop has ended: a reply is returned and recorded unless the context ran out. */
    static function Finish(past: seq<seq<int>>, g: Generation): Outcome {
      if g.ending == OutOfContext then Outcome(Failure(RWKVFailure(RWKVError.ContextLimit)), g.nPast, past, g.calls)
      else Outcome(Success(Flatten(CleanOutput(g.output))), g.nPast, past + [g.outputTokens], g.calls)
    }

    /** The whole of one `predict` call on a session in the given state. */
    ghost function PredictSpec(nPast0: int, past0: seq<seq<int>>, calls0: seq<seq<int>>, input: string,
                               sample: Sampler): Outcome
      requires tokenizerFromString.Valid() && tokenizerToString.GlyphVocabulary()
      requires parameters.numberOfBatch > 0
    {
      var tokens := PromptTokens(input);
      if |tokens| == 0 then Outcome(Failure(RWKVFailure(EmptyInput)), nPast0, past0, calls0)
      else if |tokens| >= parameters.maximumContext then
        Outcome(Failure(ModelFailure(InputTooLong)), nPast0, past0, calls0)
      else
        var run := BatchRun(nPast0, tokens, parameters.numberOfBatch, parameters.maximumContext, engine.eos);
        Finish(past0 + [tokens], Generate(sample, run.nPast, calls0 + run.calls, [], [], []))
    }

    /** For an accepted prompt the outcome is the loop's, run after the batches. */
    lemma PredictSpecAccepted(nPast0: int, past0: seq<seq<int>>, calls0: seq<seq<int>>, input: string, sample: Sampler)
      requires tokenizerFromString.Valid() && tokenizerToString.GlyphVocabulary() && parameters.numberOfBatch > 0
      requires 0 < |PromptTokens(input)| < parameters.maximumContext
      ensures PredictSpec(nPast0, past0, calls0, input, sample)
           == Finish(past0 + [PromptTokens(input)],
                     Generate(sample, BatchRun(nPast0, PromptTokens(input), parameters.numberOfBatch,
                                               parameters.maximumContext, engine.eos).nPast,
                              calls0 + BatchRun(nPast0, PromptTokens(input), parameters.numberOfBatch,
                                                parameters.maximumContext, engine.eos).calls, [], [], []))
    {
    }

    /**
     * `predict`: tokenizes and feeds the prompt, then generates until EOS, a stop word or
     * the context limit; the reply is the cleaned pieces concatenated. The elapsed time
     * the source pairs with the reply is not modelled.
     */
    method Predict(input: string, sample: Sampler) returns (r: Result<string, PredictError>)
      requires Valid() && parameters.numberOfBatch > 0
      modifies this
      ensures Valid()
      ensures Outcome(r, nPast, past, engineCalls) == PredictSpec(old(nPast), old(past), old(engineCalls), input, sample)
    {
      var tokenized := Tokenize(input);
      if tokenized.Failure? {
        PredictRejects(old(nPast), old(past), old(engineCalls), input, sample);
        return Failure(tokenized.error);
      }
      var inputTokens := tokenized.value;
      PredictSpecAccepted(old(nPast), old(past), old(engineCalls), input, sample);
      ghost var spec := PredictSpec(old(nPast), old(past), old(engineCalls), input, sample);
      EvaluateBatches(inputTokens);
      var ending, window, outputTokens, output := GenerateReply(sample);
      ghost var g := Generation(ending, nPast, engineCalls, window, outputTokens, output);
      assert spec == Finish(old(past) + [inputTokens], g);
      if ending == OutOfContext {
        r := Failure(RWKVFailure(RWKVError.ContextLimit));
        assert Outcome(r, nPast, past, engineCalls) == Finish(old(past) + [inputTokens], g);
        return;
      }
      past := past + [outputTokens];
      var cleaned := Clean(output);
      r := Success(Flatten(cleaned));
      assert Outcome(r, nPast, past, engineCalls) == Finish(old(past) + [inputTokens], g);
    }

    /**
     * The loop of `predict`, from an empty reply: what it ends with, the last window, the
     * tokens and the kept pieces, with the counter and the engine where it leaves them.
     */
    method GenerateReply(sample: Sampler)
      returns (ending: Ending, outputRepeatTokens: seq<int>, outputTokens: seq<int>, output: seq<string>)
      requires Valid()
      modifies this
      ensures Valid() && past == old(past)
      ensures Generation(ending, nPast, engineCalls, outputRepeatTokens, outputTokens, output)
           == Generate(sample, old(nPast), old(engineCalls), [], [], [])
    {
      outputRepeatTokens, outputTokens, output := [], [], [];
      ghost var g := Generate(sample, nPast, engineCalls, [], [], []);
      while true
        invariant Valid() && past == old(past)
        invariant Generate(sample, nPast, engineCalls, outputRepeatTokens, outputTokens, output) == g
        decreases parameters.maximumContext - nPast
      {
        ghost var nPast0, calls0, window0, tokens0, output0 := nPast, engineCalls, outputRepeatTokens, outputTokens, output;
        var request := CalculateRequest(parameters, engine.vocabularySize, |outputTokens|, outputRepeatTokens);
        var outputToken := sample(request);
        assert outputToken == NextToken(sample, tokens0, window0);
        outputTokens := outputTokens + [outputToken];
        outputRepeatTokens := UpdateWindow(outputRepeatTokens, outputToken, parameters.repeatLastNumber);
        VocabularyDecodable(tokenizerToString, [outputToken]);
        var prediction := Decode(tokenizerToString, [outputToken]);
        assert prediction == Piece(outputToken);
        if outputToken == engine.eos {
          GenerateLast(sample, nPast0, calls0, window0, tokens0, output0);
          return EndOfSequence, outputRepeatTokens, outputTokens, output;
        }
        var stop := IsStopWord(prediction, parameters.stopPrompts);
        if stop {
          GenerateLast(sample, nPast0, calls0, window0, tokens0, output0);
          return StopWord, outputRepeatTokens, outputTokens, output;
        }
        output := output + [prediction];
        if nPast > parameters.maximumContext - 4 {
          GenerateLast(sample, nPast0, calls0, window0, tokens0, output0);
          nPast := nPast / 2;
          ChunkedShort([engine.eos], ChunkSize);
          Evaluate([engine.eos]);
          return OutOfContext, outputRepeatTokens, outputTokens, output;
        }
        GenerateStep(sample, nPast0, calls0, window0, tokens0, output0);
        ChunkedShort([outputToken], ChunkSize);
        Evaluate([outputToken]);
        nPast := nPast + 1;
      }
    }

    // -------------------------------------------------------------------------
    // Properties of the generation loop and of predict
    // -------------------------------------------------------------------------

    /** The tokens and pieces generated so far are kept, and every step records a token. */
    lemma {:induction false} GeneratePrefix(sample: Sampler, nPast: int, calls: seq<seq<int>>, window: seq<int>,
                                            outputTokens: seq<int>, output: seq<string>, g: Generation)
      requires tokenizerToString.GlyphVocabulary()
      requires g == Generate(sample, nPast, calls, window, outputTokens, output)
      ensures |outputTokens| < |g.outputTokens| && g.outputTokens[..|outputTokens|] == outputTokens
      ensures g.outputTokens[|outputTokens|] == NextToken(sample, outputTokens, window)
      ensures |output| <= |g.output| && g.output[..|output|] == output
      decreases parameters.maximumContext - nPast
    {
      var token := NextToken(sample, outputTokens, window);
      var window' := UpdateWindow(window, token, parameters.repeatLastNumber);
      var tokens' := outputTokens + [token];
      if Continues(sample, nPast, window, outputTokens) {
        var output' := output + [Piece(token)];
        GenerateStep(sample, nPast, calls, window, outputTokens, output);
        GeneratePrefix(sample, nPast + 1, calls + [[token]], window', tokens', output', g);
        assert g.outputTokens[..|outputTokens|] == g.outputTokens[..|tokens'|][..|outputTokens|];
        assert g.outputTokens[|outputTokens|] == g.outputTokens[..|tokens'|][|outputTokens|];
        assert g.output[..|output|] == g.output[..|output'|][..|output|];
      } else {
        GenerateLast(sample, nPast, calls, window, outputTokens, output);
        assert g.outputTokens == tokens';
        assert g.output == output || g.output == output + [Piece(token)];
      }
    }

    /**
     * The kept pieces are the texts of the generated tokens, none of them EOS and none a
     * stop word.
     */
    ghost predicate Emitted(outputTokens: seq<int>, output: seq<string>)
      requires tokenizerToString.GlyphVocabulary()
    {
      && |output| <= |outputTokens|
      && forall i :: 0 <= i < |output| ==>
           outputTokens[i] != engine.eos && output[i] == Piece(outputTokens[i])
           && !StopMatch(output[i], parameters.stopPrompts)
    }

    lemma EmittedStep(outputTokens: seq<int>, output: seq<string>, token: int)
      requires tokenizerToString.GlyphVocabulary()
      requires |output| == |outputTokens| && Emitted(outputTokens, output)
      requires token != engine.eos && !StopMatch(Piece(token), parameters.stopPrompts)
      ensures Emitted(outputTokens + [token], output + [Piece(token)])
    {
      var tokens', output' := outputTokens + [token], output + [Piece(token)];
      forall i | 0 <= i < |output'|
        ensures tokens'[i] != engine.eos && output'[i] == Piece(tokens'[i])
                && !StopMatch(output'[i], parameters.stopPrompts)
      {
        if i < |output| {
          assert tokens'[i] == outputTokens[i] && output'[i] == output[i];
        }
      }
    }

    /**
     * Every kept piece is the text of its token; at EOS or a stop word exactly the last
     * token has no piece (and it is EOS, or its text is a stop word), at the context
     * limit every token has one.
     */
    lemma {:induction false} GenerateOutput(sample: Sampler, nPast: int, calls: seq<seq<int>>, window: seq<int>,
                                            outputTokens: seq<int>, output: seq<string>, g: Generation)
      requires tokenizerToString.GlyphVocabulary()
      requires g == Generate(sample, nPast, calls, window, outputTokens, output)
      requires |output| == |outputTokens| && Emitted(outputTokens, output)
      ensures Emitted(g.outputTokens, g.output)
      ensures g.ending == OutOfContext ==> |g.output| == |g.outputTokens|
      ensures g.ending != OutOfContext ==> |g.output| + 1 == |g.outputTokens|
      ensures g.ending == EndOfSequence ==> g.outputTokens[|g.outputTokens| - 1] == engine.eos
      ensures g.ending == StopWord ==>
        g.outputTokens[|g.outputTokens| - 1] != engine.eos
        && StopMatch(Piece(g.outputTokens[|g.outputTokens| - 1]), parameters.stopPrompts)
      decreases parameters.maximumContext - nPast
    {
      var token := NextToken(sample, outputTokens, window);
      var window' := UpdateWindow(window, token, parameters.repeatLastNumber);
      var tokens', output' := outputTokens + [token], output + [Piece(token)];
      if Continues(sample, nPast, window, outputTokens) {
        EmittedStep(outputTokens, output, token);
        GenerateStep(sample, nPast, calls, window, outputTokens, output);
        GenerateOutput(sample, nPast + 1, calls + [[token]], window', tokens', output', g);
      } else {
        GenerateLast(sample, nPast, calls, window, outputTokens, output);
        if token != engine.eos && !StopMatch(Piece(token), parameters.stopPrompts) {
          EmittedStep(outputTokens, output, token);
        }
      }
    }

    /**
     * The counter during generation: it counts every token but the last, and it was at
     * most `maximumContext - 4` before each of them, so it ends at most at
     * `maximumContext - 3` unless nothing was counted; at the context limit it is halved
     * after the last count.
     */
    lemma {:induction false} GenerateCounter(sample: Sampler, nPast: int, calls: seq<seq<int>>, window: seq<int>,
                                             outputTokens: seq<int>, output: seq<string>, g: Generation)
      requires tokenizerToString.GlyphVocabulary()
      requires g == Generate(sample, nPast, calls, window, outputTokens, output)
      ensures |outputTokens| < |g.outputTokens|
      ensures g.ending != OutOfContext ==> g.nPast == nPast + |g.outputTokens| - |outputTokens| - 1
      ensures g.ending != OutOfContext ==> g.nPast == nPast || g.nPast <= parameters.maximumContext - 3
      ensures g.ending == OutOfContext ==>
        nPast + |g.outputTokens| - |outputTokens| - 1 > parameters.maximumContext - 4
      ensures g.ending == OutOfContext ==>
        (|g.outputTokens| - |outputTokens| == 1
         || nPast + |g.outputTokens| - |outputTokens| - 1 <= parameters.maximumContext - 3)
      ensures g.ending == OutOfContext ==> g.nPast == (nPast + |g.outputTokens| - |outputTokens| - 1) / 2
      decreases parameters.maximumContext - nPast
    {
      var token := NextToken(sample, outputTokens, window);
      var window' := UpdateWindow(window, token, parameters.repeatLastNumber);
      var tokens', output' := outputTokens + [token], output + [Piece(token)];
      if Continues(sample, nPast, window, outputTokens) {
        GenerateStep(sample, nPast, calls, window, outputTokens, output);
        GenerateCounter(sample, nPast + 1, calls + [[token]], window', tokens', output', g);
      } else {
        GenerateLast(sample, nPast, calls, window, outputTokens, output);
      }
    }

    /**
     * The engine during generation: every token but the last is fed to it, one call
     * each and in order; at the context limit EOS follows.
     */
    lemma {:induction false} GenerateCalls(sample: Sampler, nPast: int, calls: seq<seq<int>>, window: seq<int>,
                                           outputTokens: seq<int>, output: seq<string>, g: Generation)
      requires tokenizerToString.GlyphVocabulary()
      requires g == Generate(sample, nPast, calls, window, outputTokens, output)
      ensures |outputTokens| < |g.outputTokens|
      ensures g.ending != OutOfContext ==>
        g.calls == calls + Singletons(g.outputTokens[|outputTokens|..|g.outputTokens| - 1])
      ensures g.ending == OutOfContext ==>
        g.calls == calls + Singletons(g.outputTokens[|outputTokens|..|g.outputTokens| - 1]) + [[engine.eos]]
      decreases parameters.maximumContext - nPast
    {
      var token := NextToken(sample, outputTokens, window);
      var window' := UpdateWindow(window, token, parameters.repeatLastNumber);
      var tokens', output' := outputTokens + [token], output + [Piece(token)];
      if Continues(sample, nPast, window, outputTokens) {
        GenerateStep(sample, nPast, calls, window, outputTokens, output);
        GenerateCalls(sample, nPast + 1, calls + [[token]], window', tokens', output', g);
        GeneratePrefix(sample, nPast, calls, window, outputTokens, output, g);
        var last := |g.outputTokens| - 1;
        var fed := Singletons(g.outputTokens[|tokens'|..last]);
        SingletonsFrom(g.outputTokens, |outputTokens|, last);
        assert Singletons(g.outputTokens[|outputTokens|..last]) == [[token]] + fed;
        assert calls + [[token]] + fed == calls + ([[token]] + fed);
      } else {
        GenerateLast(sample, nPast, calls, window, outputTokens, output);
        assert g.outputTokens[|outputTokens|..|g.outputTokens| - 1] == [];
      }
    }

    /**
     * The recent-token window stays within `repeatLastNumber` (none for a negative
     * setting) and is always the most recent generated tokens.
     */
    lemma {:induction false} GenerateWindow(sample: Sampler, nPast: int, calls: seq<seq<int>>, window: seq<int>,
                                            outputTokens: seq<int>, output: seq<string>, g: Generation)
      requires tokenizerToString.GlyphVocabulary()
      requires g == Generate(sample, nPast, calls, window, outputTokens, output)
      requires |window| <= Max0(parameters.repeatLastNumber) && |window| <= |outputTokens|
      requires window == outputTokens[|outputTokens| - |window|..]
      ensures |g.window| <= Max0(parameters.repeatLastNumber) && |g.window| <= |g.outputTokens|
      ensures g.window == g.outputTokens[|g.outputTokens| - |g.window|..]
      ensures parameters.repeatLastNumber >= 1 ==> |g.window| >= 1
      decreases parameters.maximumContext - nPast
    {
      var token := NextToken(sample, outputTokens, window);
      var window' := UpdateWindow(window, token, parameters.repeatLastNumber);
      var tokens', output' := outputTokens + [token], output + [Piece(token)];
      WindowStep(window, outputTokens, token, parameters.repeatLastNumber);
      if Continues(sample, nPast, window, outputTokens) {
        GenerateStep(sample, nPast, calls, window, outputTokens, output);
        GenerateWindow(sample, nPast + 1, calls + [[token]], window', tokens', output', g);
      } else {
        GenerateLast(sample, nPast, calls, window, outputTokens, output);
      }
    }

    /** The texts of the tokens. */
    ghost function Pieces(tokens: seq<int>): (pieces: seq<string>)
      requires tokenizerToString.GlyphVocabulary()
      ensures |pieces| == |tokens| && forall i :: 0 <= i < |tokens| ==> pieces[i] == Piece(tokens[i])
    {
      seq(|tokens|, i requires 0 <= i < |tokens| => Piece(tokens[i]))
    }

    /**
     * A finished reply: its last token is EOS or has a stop word as its text, no token
     * before it does, and the text returned is the cleaned texts of those earlier tokens.
     */
    ghost predicate Reply(reply: seq<int>, text: string)
      requires tokenizerToString.GlyphVocabulary()
    {
      && |reply| > 0
      && (reply[|reply| - 1] == engine.eos || StopMatch(Piece(reply[|reply| - 1]), parameters.stopPrompts))
      && (forall i :: 0 <= i < |reply| - 1 ==>
            reply[i] != engine.eos && !StopMatch(Piece(reply[i]), parameters.stopPrompts))
      && text == Flatten(CleanOutput(Pieces(reply[..|reply| - 1])))
    }

    /** A rejected prompt leaves the session exactly as it was. */
    lemma PredictRejects(nPast0: int, past0: seq<seq<int>>, calls0: seq<seq<int>>, input: string, sample: Sampler)
      requires tokenizerFromString.Valid() && tokenizerToString.GlyphVocabulary() && parameters.numberOfBatch > 0
      requires |PromptTokens(input)| == 0 || |PromptTokens(input)| >= parameters.maximumContext
      ensures PredictSpec(nPast0, past0, calls0, input, sample).nPast == nPast0
      ensures PredictSpec(nPast0, past0, calls0, input, sample).past == past0
      ensures PredictSpec(nPast0, past0, calls0, input, sample).calls == calls0
      ensures |PromptTokens(input)| == 0 <==>
        PredictSpec(nPast0, past0, calls0, input, sample).result == Failure(RWKVFailure(EmptyInput))
      ensures |PromptTokens(input)| > 0 <==>
        PredictSpec(nPast0, past0, calls0, input, sample).result == Failure(ModelFailure(InputTooLong))
    {
    }

    /**
     * An accepted prompt: it is recorded in `past`, followed by the reply's tokens when
     * generation ended normally; the reply is the cleaned texts of the reply tokens but
     * the last, that last being EOS or a stop word and none before it; the only failure
     * left is the context limit, which stores no reply; and a session whose counter was
     * in range keeps it non-negative and below the context.
     */
    lemma PredictAccepts(nPast0: int, past0: seq<seq<int>>, calls0: seq<seq<int>>, input: string, sample: Sampler,
                         o: Outcome)
      requires tokenizerFromString.Valid() && tokenizerToString.GlyphVocabulary() && parameters.numberOfBatch > 0
      requires 0 < |PromptTokens(input)| < parameters.maximumContext && 0 <= nPast0
      requires o == PredictSpec(nPast0, past0, calls0, input, sample)
      ensures 0 <= o.nPast < parameters.maximumContext
      ensures |o.past| > |past0| && o.past[..|past0|] == past0 && o.past[|past0|] == PromptTokens(input)
      ensures o.result.Failure? <==> |o.past| == |past0| + 1
      ensures o.result.Failure? ==> o.result == Failure(RWKVFailure(RWKVError.ContextLimit))
      ensures o.result.Success? ==> |o.past| == |past0| + 2 && Reply(o.past[|past0| + 1], o.result.value)
    {
      var tokens := PromptTokens(input);
      var run := BatchRun(nPast0, tokens, parameters.numberOfBatch, parameters.maximumContext, engine.eos);
      BatchRunBound(nPast0, tokens, parameters.numberOfBatch, parameters.maximumContext, engine.eos);
      var g := Generate(sample, run.nPast, calls0 + run.calls, [], [], []);
      PredictSpecAccepted(nPast0, past0, calls0, input, sample);
      GenerateReplyShape(sample, run.nPast, calls0 + run.calls, g);
      GenerateBound(sample, run.nPast, calls0 + run.calls, g);
      assert o == Finish(past0 + [tokens], g);
      if g.ending != OutOfContext {
        assert o.past == past0 + [tokens, g.outputTokens];
      } else {
        assert o.past == past0 + [tokens];
      }
    }

    /** Generation from an empty reply that ends normally yields a finished reply. */
    lemma GenerateReplyShape(sample: Sampler, nPast: int, calls: seq<seq<int>>, g: Generation)
      requires tokenizerToString.GlyphVocabulary()
      requires g == Generate(sample, nPast, calls, [], [], [])
      ensures g.ending != OutOfContext ==> Reply(g.outputTokens, Flatten(CleanOutput(g.output)))
    {
      GenerateOutput(sample, nPast, calls, [], [], [], g);
      if g.ending != OutOfContext {
        var reply := g.outputTokens;
        assert g.output == Pieces(reply[..|reply| - 1]);
      }
    }

    /** Generation from a counter in range leaves it in range. */
    lemma GenerateBound(sample: Sampler, nPast: int, calls: seq<seq<int>>, g: Generation)
      requires tokenizerToString.GlyphVocabulary()
      requires g == Generate(sample, nPast, calls, [], [], []) && 0 <= nPast < parameters.maximumContext
      ensures 0 <= g.nPast < parameters.maximumContext
    {
      GenerateCounter(sample, nPast, calls, [], [], [], g);
    }

    /** An unknown first token that is not EOS decodes to "" and lets the loop go on. */
    lemma EmptyFirstPiece(sample: Sampler, nPast: int)
      requires tokenizerToString.GlyphVocabulary() && tokenizerToString.utf8Decode([]) == ""
      requires NextToken(sample, [], []) != engine.eos && NextToken(sample, [], []) !in tokenizerToString.decoder
      requires forall i :: 0 <= i < |parameters.stopPrompts| ==> parameters.stopPrompts[i] != ""
      requires nPast <= parameters.maximumContext - 4
      ensures Piece(NextToken(sample, [], [])) == "" && Continues(sample, nPast, [], [])
    {
      CleanAsWrittenTraps(tokenizerToString, NextToken(sample, [], []), parameters.stopPrompts);
    }

    /**
     * The trap behind `clean` as written: when the first sampled token is neither EOS
     * nor in the vocabulary, it decodes to "" (empty bytes read as the empty string),
     * which no non-empty stop word matches, so "" becomes the first reply piece. When
     * generation then ends normally, those pieces are handed to `clean`, outside where
     * it is defined, and the model's `predict` returns the corrected clean-up's reply.
     */
    lemma EmptyFirstPieceReachesClean(sample: Sampler, nPast: int, calls: seq<seq<int>>, past: seq<seq<int>>,
                                      g: Generation)
      requires tokenizerToString.GlyphVocabulary() && tokenizerToString.utf8Decode([]) == ""
      requires g == Generate(sample, nPast, calls, [], [], []) && g.ending != OutOfContext
      requires NextToken(sample, [], []) != engine.eos && NextToken(sample, [], []) !in tokenizerToString.decoder
      requires forall i :: 0 <= i < |parameters.stopPrompts| ==> parameters.stopPrompts[i] != ""
      requires nPast <= parameters.maximumContext - 4
      ensures |g.output| > 0 && g.output[0] == ""
      ensures !CleanDefined(g.output)
      ensures Finish(past, g).result == Success(Flatten(CleanOutput(g.output)))
    {
      var token := NextToken(sample, [], []);
      EmptyFirstPiece(sample, nPast);
      GenerateStep(sample, nPast, calls, [], [], []);
      var window' := UpdateWindow([], token, parameters.repeatLastNumber);
      assert [] + [token] == [token] && [] + [Piece(token)] == [""];
      GeneratePrefix(sample, nPast + 1, calls + [[token]], window', [token], [""], g);
    }
  }

  /** Counterexample: an unknown first token gives `clean` as written the piece "". */
  lemma CleanAsWrittenTraps(t: Tokenizer, token: int, stops: seq<string>)
    requires t.GlyphVocabulary() && token !in t.decoder && t.utf8Decode([]) == ""
    requires forall i :: 0 <= i < |stops| ==> stops[i] != ""
    ensures Decodable(t, [token]) && Decode(t, [token]) == ""
    ensures !StopMatch(Decode(t, [token]), stops)
    ensures !CleanDefined([Decode(t, [token])])
    ensures CleanOutput([Decode(t, [token])]) == [""]
  {
    assert DecodeText(t.decoder, [token]) == "";
    assert UnGlyphs(t.byteDecoder, "") == [];
  }
}
