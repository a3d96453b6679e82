/**
 * The generation parameters record and the model errors of the LLM package
 * (Sources/LLM/Model.swift).
 */
module ModelConfig {
  import opened Strings

  /** Swift `Int32`. */
  type int32 = x: int | -0x8000_0000 <= x < 0x8000_0000

  /** Swift `UInt32`. */
  type uint32 = x: int | 0 <= x < 0x1_0000_0000

  /**
   * `ModelParameters`: an immutable record. The `Float` fields are carried as reals; they
   * only reach the native sampler.
   */
  datatype ModelParameters = ModelParameters(
    maximumContext: int32,
    parts: int32,
    seed: uint32,
    numberOfThreads: int32,
    customPromptFormat: string,
    stopPrompts: seq<string>,
    numberOfBatch: int32,
    temperature: real,
    topK: int32,
    topP: real,
    tfsZ: real,
    typicalP: real,
    repeatPenalty: real,
    repeatLastNumber: int32,
    penaltyFrequence: real,
    penaltyPresence: real,
    penalizeNL: bool)

  /** The placeholder the prompt format substitutes the user's input for. */
  const Placeholder := "{{prompt}}"

  /** `ModelParameters.default`. */
  const Default := ModelParameters(
    maximumContext := 4096,
    parts := -1,
    seed := 4294967295,
    numberOfThreads := 12,
    customPromptFormat := "USER: {{prompt}}\n\nAssistant:",
    stopPrompts := ["USER", "User"],
    numberOfBatch := 512,
    temperature := 0.5,
    topK := 40,
    topP := 0.95,
    tfsZ := 1.0,
    typicalP := 1.0,
    repeatPenalty := 1.1,
    repeatLastNumber := 64,
    penaltyFrequence := 0.0,
    penaltyPresence := 0.0,
    penalizeNL := false)

  /** `ModelParameters.init`: every argument lands in the field of the same name. */
  function Init(maximumContext: int32, parts: int32, seed: uint32, numberOfThreads: int32,
                customPromptFormat: string, stopPrompts: seq<string>, numberOfBatch: int32,
                temperature: real, topK: int32, topP: real, tfsZ: real, typicalP: real,
                repeatPenalty: real, repeatLastNumber: int32, penaltyFrequence: real,
                penaltyPresence: real, penalizeNL: bool): (p: ModelParameters)
    ensures p.maximumContext == maximumContext && p.parts == parts && p.seed == seed
    ensures p.numberOfThreads == numberOfThreads && p.customPromptFormat == customPromptFormat
    ensures p.stopPrompts == stopPrompts && p.numberOfBatch == numberOfBatch
    ensures p.temperature == temperature && p.topK == topK && p.topP == topP && p.tfsZ == tfsZ
    ensures p.typicalP == typicalP && p.repeatPenalty == repeatPenalty
    ensures p.repeatLastNumber == repeatLastNumber && p.penaltyFrequence == penaltyFrequence
    ensures p.penaltyPresence == penaltyPresence && p.penalizeNL == penalizeNL
  {
    ModelParameters(maximumContext, parts, seed, numberOfThreads, customPromptFormat, stopPrompts,
                    numberOfBatch, temperature, topK, topP, tfsZ, typicalP, repeatPenalty,
                    repeatLastNumber, penaltyFrequence, penaltyPresence, penalizeNL)
  }

  /** The default record is the initializer applied to the listed defaults. */
  lemma DefaultValues()
    ensures Default.maximumContext == 4096 && Default.numberOfBatch == 512
    ensures Default.topK == 40 && Default.repeatLastNumber == 64
    ensures Default.stopPrompts == ["USER", "User"] && !Default.penalizeNL
    ensures Default.seed == 0x1_0000_0000 - 1 && Default.parts == -1 && Default.numberOfThreads == 12
    ensures Default == Init(4096, -1, 4294967295, 12, "USER: {{prompt}}\n\nAssistant:", ["USER", "User"],
                            512, 0.5, 40, 0.95, 1.0, 1.0, 1.1, 64, 0.0, 0.0, false)
  {
  }

  /** A format of the shape pre + placeholder + post with no `{` around it has one placeholder. */
  lemma SinglePlaceholder(pre: string, post: string)
    requires '{' !in pre && '{' !in post
    ensures Occurrences(pre + Placeholder + post, Placeholder) == 1
  {
    assert pre + Placeholder + post == pre + (Placeholder + post);
    ReplaceAfterPlain(pre, Placeholder + post, Placeholder, "");
    ReplaceLeading(post, Placeholder, "");
    assert post + "" == post;
    ReplaceAfterPlain(post, "", Placeholder, "");
  }

  /** The default prompt format is a fixed text around exactly one placeholder. */
  lemma DefaultFormat()
    ensures Default.customPromptFormat == "USER: " + Placeholder + "\n\nAssistant:"
    ensures Occurrences(Default.customPromptFormat, Placeholder) == 1
  {
    var pre, post := "USER: ", "\n\nAssistant:";
    assert Default.customPromptFormat == pre + Placeholder + post;
    assert '{' !in pre && '{' !in post;
    SinglePlaceholder(pre, post);
  }

  /** `ModelError`. */
  datatype ModelError = ModelNotFound(path: string) | InputTooLong | FailedToEval | ContextLimit
}
