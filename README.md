# MobileLLM in Dafny

MobileLLM is a Swift package that runs an RWKV language model on the device. It answers
questions with help from a small document store. The package has three layers, and the
model has one module per core file:

- **LLM layer.**
  - The byte-level BPE tokenizer (`Tokenizing`, in `tokenizer.dfy`).
  - The generation parameters and model errors (`ModelConfig`, in `model.dfy`).
  - The RWKV session (`Session`, in `rwkv.dfy`). It covers prompt templating, prompt
    validation, batched evaluation with context rotation, the token-by-token generation
    loop with its stop conditions, and the clean-up of the reply.
  - The array and dictionary helpers (`Utils`, in `utils.dfy`).
- **VectorDB layer** (`VectorStore`, in `vectordb.dfy`). A document store with
  embedding-based top-k similarity search.
- **Facade** (`Facade`, in `facade.dfy`). The `MobileLLM` entry point. It loads a model, adds
  and deletes documents, and answers a question. To answer, it builds a prompt from the
  documents the store finds for the question and has the model predict on that prompt.

`Strings` (`strings.dfy`) models the Swift standard-library string operations the core
relies on: `split`, `joined`, `hasSuffix` and `replacingOccurrences`.

Stateful parts are Dafny classes whose fields the methods update in place:

- the RWKV session (`Session.RWKV`, with `past`, `nPast` and a ghost log of every
  engine call);
- the store (`VectorStore.VectorDB`, with its `documents`);
- the facade (`Facade.MobileLLM`, with its loaded `model`).

The tokenizer and the parameters are immutable in the source and are datatypes here.

Each loop of the source is a `while` or `for` loop. Its method is proved against a
specification function, and the properties are proved about that function. Examples:

- `Bpe` against `MergeAll`;
- `Ranges` against `MatchesFrom`;
- `EvaluateBatches` against `BatchRun`;
- `Predict` against `PredictSpec`, which is built on `Generate`.

The native engine is not modelled. Each call to `rwkv_eval_sequence` is recorded in order
in `engineCalls`. The sampler is an oracle function. It receives what `calculateToken`
computes for it: the step, the recent-token window, the effective top-k, the effective
repeat window and the penalty length. The sentence embedding and the cosine similarity of
the store are function fields of the store.

## Model

| member | source | states |
|---|---|---|
| Utils.Chunked | Sources/LLM/Utils.swift:33-37 | `chunked(into:)` as a recursion: the first `min(size, count)` elements, then the chunks of the rest; its properties are the rows below |
| Utils.ChunkedFlatten | Sources/LLM/Utils.swift:33-37 | the chunks of `chunked(into:)` concatenate back to the array |
| Utils.ChunkedSizes | Sources/LLM/Utils.swift:33-37 | every chunk is non-empty and at most `size` long, and every chunk but the last is exactly `size` long |
| Utils.ChunkedCount | Sources/LLM/Utils.swift:33-37 | there are ceil(count / size) chunks: (n - 1) * size < count <= n * size; an empty array has none, and only an empty array has none |
| Utils.ChunkAt | Sources/LLM/Utils.swift:34-36 | the recursive chunking agrees with the stride formulation: chunk k is `s[p ..< min(p + size, count)]` at the k-th stride point p, and p < count |
| Utils.StrideProduct | Sources/LLM/Utils.swift:34 | the k-th point of `stride(from: 0, to:, by: size)` is k * size |
| Utils.Invert | Sources/LLM/Utils.swift:15-21 | the inverted dictionary's keys are the input's values, and each maps back to a key carrying it; for an injective input it is the exact inverse (`TokenizeUtils.invert`, Sources/LLM/Tokenizer.swift:239-245, is the same code) |
| Strings.Split | Sources/LLM/Tokenizer.swift:157 | `split(separator:)`: every piece is non-empty and free of the separator (empty runs omitted) |
| Strings.Join | Sources/Facade/Facade.swift:54 | `joined(separator:)`: the pieces with the separator between each two; its layout is `JoinLayout` |
| Strings.ReplaceAll | Sources/LLM/RWKV.swift:127-128 | `replacingOccurrences(of:with:)` as a left-to-right scan replacing non-overlapping occurrences; its properties are the `Replace*` rows |
| Strings.SplitJoin | Sources/LLM/Tokenizer.swift:157 | splitting a space-join of non-empty, space-free pieces at spaces gives the pieces back |
| Strings.RemoveSeparators | Sources/LLM/Tokenizer.swift:129 | removing the separator from a join of separator-free pieces concatenates the pieces |
| Strings.ReplaceBySelf | Sources/LLM/RWKV.swift:127-128 | replacing a pattern by itself changes nothing, so only occurrences are touched |
| Strings.ReplaceAbsent | Sources/LLM/RWKV.swift:127-128 | a string without an occurrence of the pattern is returned unchanged |
| Strings.ReplaceAppend | Sources/LLM/RWKV.swift:127-128 | replacement distributes over a concatenation that no occurrence straddles |
| Strings.OccurrencesAppend | Sources/LLM/RWKV.swift:127-128 | the number of replaced occurrences adds up over such a concatenation |
| Strings.ReplaceLeading | Sources/LLM/RWKV.swift:127 | a leading occurrence is replaced and the scan resumes right after it |
| Strings.ReplaceAfterPlain | Sources/LLM/RWKV.swift:127-128 | a prefix free of the pattern's first character passes through unchanged |
| Strings.JoinDrop | Sources/Facade/Facade.swift:54 | from the offset of piece i on, `joined(separator:)` is the join of the pieces from i on |
| Strings.JoinLayout | Sources/Facade/Facade.swift:54 | piece i sits at its offset, the separator follows it when another piece comes next, and the last piece ends the string |
| Tokenizing.BuildRanks | Sources/LLM/Tokenizer.swift:44-54 | the rank table is the one read from the merge lines, with the header line skipped and line i stored with rank i - 1 |
| Tokenizing.RanksOfLines | Sources/LLM/Tokenizer.swift:45-53 | the table's keys are exactly the pairs of lines 1 and later; line k's pair has rank k - 1 exactly when no later line names it; ranks are distinct |
| Tokenizing.GetPairs | Sources/LLM/Tokenizer.swift:73-83 | the result is exactly the set of adjacent pairs of the word |
| Tokenizing.FirstIndexFrom | Sources/LLM/Tokenizer.swift:106 | `firstIndex(of:)` on a slice: the first position at or after `from` holding the symbol, or none holding it |
| Tokenizing.MergeOccurrences | Sources/LLM/Tokenizer.swift:103-122 | the inner loop of `bpe` computes one left-to-right merge pass |
| Tokenizing.MergePassContent | Sources/LLM/Tokenizer.swift:103-122 | a merge pass keeps the concatenated content |
| Tokenizing.MergePassShortens | Sources/LLM/Tokenizer.swift:103-122 | a merge pass never lengthens the word, and it strictly shortens a word holding the pair |
| Tokenizing.MergePassAbsent | Sources/LLM/Tokenizer.swift:103-122 | a word without the pair is left unchanged |
| Tokenizing.MergePassRemovesPair | Sources/LLM/Tokenizer.swift:103-122 | with non-empty symbols, no adjacent `first second` is left after a pass, and symbols stay non-empty |
| Tokenizing.LowestUnique | Sources/LLM/Tokenizer.swift:98-100 | with distinct ranks the lowest-ranked bigram is unique, whatever order the pair set is scanned in |
| Tokenizing.MergeAllContent | Sources/LLM/Tokenizer.swift:93-128 | the merge loop keeps the concatenated content |
| Tokenizing.MergeAllStops | Sources/LLM/Tokenizer.swift:93-128 | the merge loop ends with at most one symbol or with no ranked pair left, never grows the word, and keeps symbols non-empty |
| Tokenizing.MergeAllFinal | Sources/LLM/Tokenizer.swift:94-97 | a word with no ranked pair, or with at most one symbol, is final |
| Tokenizing.Bpe | Sources/LLM/Tokenizer.swift:85-130 | a token of at most one character comes back as it is; otherwise the result is the final merged symbols joined by spaces |
| Tokenizing.BpeContent | Sources/LLM/Tokenizer.swift:85-130 | dropping the spaces from `bpe`'s result gives the token back |
| Tokenizing.BpeSymbols | Sources/LLM/Tokenizer.swift:129 | splitting `bpe`'s result at spaces gives exactly the final symbols |
| Tokenizing.MatchesInOrder | Sources/LLM/Tokenizer.swift:27-35 | the matches lie inside the string, in order, without overlap |
| Tokenizing.Ranges | Sources/LLM/Tokenizer.swift:27-35 | `ranges(of:)` collects every match from the start on, moving past each one or one past an empty one; the results are in range, ordered and disjoint |
| Tokenizing.GlyphsRoundTrip | Sources/LLM/Tokenizer.swift:69 | spelling bytes as glyphs and reading them back with the byte decoder gives the bytes; no glyph is a space |
| Tokenizing.NewTokenizer | Sources/LLM/Tokenizer.swift:43-63 | `init` builds the rank table from the merges text, keeps the vocabulary, and stores its inverse as the decoder |
| Tokenizing.ByteEncode | Sources/LLM/Tokenizer.swift:65-71 | each matched piece of the text, given as its UTF-8 bytes spelled in glyphs |
| Tokenizing.Tokenize | Sources/LLM/Tokenizer.swift:154-161 | the symbols of every piece after `bpe`, split at spaces, in order |
| Tokenizing.TokenizeContent | Sources/LLM/Tokenizer.swift:154-161 | the symbols concatenate to the glyph spelling of the pieces |
| Tokenizing.Lookup | Sources/LLM/Tokenizer.swift:164-167 | one id per symbol: the vocabulary's id, or 0 for a symbol missing from it |
| Tokenizing.Encode | Sources/LLM/Tokenizer.swift:163-168 | `encode` gives the ids of the symbols `tokenize` produces |
| Tokenizing.DecodeDropsUnknown | Sources/LLM/Tokenizer.swift:171-175 | an id missing from the vocabulary decodes to nothing, wherever it stands |
| Tokenizing.VocabularyDecodable | Sources/LLM/Tokenizer.swift:176 | with a vocabulary spelled in glyphs, the force-unwrap in `decode` never traps |
| Tokenizing.LookupDecode | Sources/LLM/Tokenizer.swift:163-175 | looking symbols up and decoding the ids gives the symbols back, concatenated |
| Tokenizing.GlyphPiecesFlatten | Sources/LLM/Tokenizer.swift:65-71 | the glyph spellings of the pieces concatenate to the spelling of all their bytes |
| Tokenizing.DecodeEncode | Sources/LLM/Tokenizer.swift:163-178 | round trip: when every symbol is in the vocabulary and ids are distinct, `decode(encode(text))` is defined and is the UTF-8 reading of the matched pieces' bytes |
| Tokenizing.Decode | Sources/LLM/Tokenizer.swift:170-178 | `decode`: the vocabulary entries of the ids ("" for an unknown id) turned back into bytes through the byte decoder and read as UTF-8; its properties are `DecodeDropsUnknown`, `VocabularyDecodable` and `DecodeEncode` |
| Tokenizing.StripBOS | Sources/LLM/Tokenizer.swift:140-145 | the result is the list or the list without its first id, and it is shorter exactly when the list starts with `<s>` |
| Tokenizing.StripEOS | Sources/LLM/Tokenizer.swift:147-152 | the result is the list or the list without its last id, and it is shorter exactly when the list ends with `</s>` |
| Tokenizing.AppendBOS | Sources/LLM/Tokenizer.swift:132-134 | the `<s>` id in front of the tokens |
| Tokenizing.AppendEOS | Sources/LLM/Tokenizer.swift:136-138 | the `</s>` id after the tokens |
| Tokenizing.SentinelRoundTrip | Sources/LLM/Tokenizer.swift:132-152 | `stripBOS` undoes `appendBOS` and `stripEOS` undoes `appendEOS` |
| Tokenizing.StripAtMostOne | Sources/LLM/Tokenizer.swift:140-152 | each strip removes at most the one sentinel at its own end and leaves a list without that sentinel unchanged |
| Tokenizing.StripBOSOnlyOne | Sources/LLM/Tokenizer.swift:140-145 | only one `<s>` goes per call: stripping `[<s>, <s>]` once leaves `[<s>]`, twice leaves nothing |
| Tokenizing.Clamp | Sources/LLM/Tokenizer.swift:218-220 | for a proper interval the result lies in it, is the value when the value lies inside, and is the nearer bound otherwise; for an empty interval it is `vmax` |
| Tokenizing.Substr | Sources/LLM/Tokenizer.swift:228-236 | `nil` exactly when the string is shorter than the upper bound; otherwise the characters at offsets lo ..< hi |
| ModelConfig.Init | Sources/LLM/Model.swift:67-103 | the initializer stores every argument in the field of the same name |
| ModelConfig.DefaultValues | Sources/LLM/Model.swift:25-43 | the default parameters and their agreement with the initializer applied to the listed defaults |
| ModelConfig.SinglePlaceholder | Sources/LLM/Model.swift:30 | a format of plain text around one placeholder has exactly one placeholder occurrence |
| ModelConfig.DefaultFormat | Sources/LLM/Model.swift:30 | the default prompt format is "USER: ", one placeholder, then "\n\nAssistant:" |
| Session.FormatPrompt | Sources/LLM/RWKV.swift:127-128 | the prompt format with `{{prompt}}` replaced by the input, then every `\n` escape replaced by a newline; its properties are `FillFormat` and `DefaultPrompt` |
| Session.FillFormat | Sources/LLM/RWKV.swift:127-128 | for a format of plain text around one placeholder, the templated prompt is the text with the input in between, and the input's own escaped newlines are turned into newlines |
| Session.DefaultPrompt | Sources/LLM/RWKV.swift:127-128 | with the default format, the prompt is "USER: ", the unescaped input, then "\n\nAssistant:" |
| Session.BatchLength | Sources/LLM/RWKV.swift:151 | the batch is `min(count, numberOfBatch)` tokens long, and it is non-empty while tokens remain |
| Session.BatchShape | Sources/LLM/RWKV.swift:149-160 | a rotation call of one batch is the single EOS token; every other call holds 1 to 64 tokens |
| Session.BatchRunShape | Sources/LLM/RWKV.swift:145-162 | the same holds for every call of `evaluateBatches` |
| Session.BatchKept | Sources/LLM/RWKV.swift:149-160 | the calls of one batch other than the rotation are, concatenated, the batch |
| Session.BatchRunKept | Sources/LLM/RWKV.swift:145-162 | the engine sees exactly the prompt, in order, apart from the EOS rotations |
| Session.BatchRunBound | Sources/LLM/RWKV.swift:145-162 | a prompt shorter than the context leaves the counter non-negative and below the context, rotation or not |
| Session.BatchRunNoRotation | Sources/LLM/RWKV.swift:145-162 | when the prompt fits behind the context, nothing rotates: the counter grows by the prompt length and the engine sees exactly the prompt |
| Session.EffectiveTopK | Sources/LLM/RWKV.swift:265 | a non-positive top-k means the whole vocabulary |
| Session.EffectiveRepeatLast | Sources/LLM/RWKV.swift:266 | a negative repeat setting means the 4096-token context; the window length is never negative |
| Session.PenaltyLength | Sources/LLM/RWKV.swift:289 | the penalty length is the least of the window length, the repeat setting and the context size |
| Session.UpdateWindow | Sources/LLM/RWKV.swift:188-191 | the token is appended and at most the oldest token is dropped; the new window is a suffix of the old window plus the token, and a window within the bound stays within it |
| Session.PenaltyCoversWindow | Sources/LLM/RWKV.swift:289 | the frequency penalty looks at every token of the window the loop keeps, when the setting does not exceed the context size |
| Session.WindowStep | Sources/LLM/RWKV.swift:188-191 | a window holding the most recent tokens still holds the most recent tokens after the update |
| Session.IsStopWord | Sources/LLM/RWKV.swift:212-216 | a piece stops generation exactly when it equals or ends with some stop word |
| Session.TrimNewlines | Sources/LLM/RWKV.swift:249-251 | the result is a prefix of the pieces, followed in them only by "\n" pieces, and it does not end in "\n" |
| Session.RemoveTrailingNewlines | Sources/LLM/RWKV.swift:249-251 | the loop removes exactly the trailing "\n" pieces |
| Session.CleanAsWritten | Sources/LLM/RWKV.swift:240-254 | `clean` as written: an empty output is returned as it is; otherwise the first character of the first piece is dropped, then the trailing "\n" pieces are removed |
| Session.Clean | Sources/LLM/RWKV.swift:240-254 | the total `clean` (see Findings): it leaves an empty first piece as it is |
| Session.CleanShape | Sources/LLM/RWKV.swift:240-254 | clean-up keeps the first piece without its first character, then the other pieces in order, up to the point after which only "\n" pieces follow; the reply never ends in "\n"; where `clean` as written is defined, the two agree |
| Session.CleanPlain | Sources/LLM/RWKV.swift:240-254 | a reply with no "\n" piece loses only the first character of its first piece |
| Session.CleanAsWrittenTraps | Sources/LLM/RWKV.swift:241-244 | an id missing from the vocabulary decodes to "", which matches no non-empty stop word, and then `clean` as written has no first character to drop |
| Session.RWKV.constructor | Sources/LLM/RWKV.swift:85-97 | after the model loads, the session starts empty with the counter at 0, and the engine has been fed BOS and EOS |
| Session.RWKV.Open | Sources/LLM/RWKV.swift:33-75 | `init` throws `failedToInitializeContext` when the native loader fails; otherwise it gives a fresh, empty session |
| Session.RWKV.Evaluate | Sources/LLM/RWKV.swift:109-123 | the batch goes to the engine as its 64-token chunks, in order; nothing else changes |
| Session.RWKV.Tokenize | Sources/LLM/RWKV.swift:125-143 | the templated prompt is encoded; no tokens is `emptyInput`, at least `maximumContext` tokens is `inputTooLong`, and only an accepted prompt is appended to `past` |
| Session.RWKV.EvaluateBatches | Sources/LLM/RWKV.swift:145-162 | the counter and the engine calls follow the batch recursion `BatchRun` |
| Session.RWKV.EvaluateBatch | Sources/LLM/RWKV.swift:149-160 | one iteration: `min(count, numberOfBatch)` tokens, after resetting the counter and feeding EOS when they would fill the context |
| Session.RWKV.GenerateReply | Sources/LLM/RWKV.swift:169-233 | the generation loop ends in the state `Generate` describes: end of sequence, stop word or context limit, with counter, engine, window, tokens and kept pieces |
| Session.RWKV.Predict | Sources/LLM/RWKV.swift:164-238 | the reply, the counter, `past` and the engine calls are those of `PredictSpec`: tokenize, evaluate in batches, generate, then record the reply and apply the corrected clean-up `Session.Clean` (see Findings) |
| Session.RWKV.GeneratePrefix | Sources/LLM/RWKV.swift:175-233 | the loop only appends: earlier tokens and pieces are kept, and at least one token is recorded, first the one the sampler picks next |
| Session.RWKV.GenerateOutput | Sources/LLM/RWKV.swift:185-219 | every kept piece is the text of its token, which is not EOS and not a stop word; at EOS or a stop word only the last token has no piece, and at the context limit every token has one |
| Session.RWKV.GenerateCounter | Sources/LLM/RWKV.swift:221-232 | the counter counts every token but the last and was at most `maximumContext - 4` before each count; at the context limit it is halved |
| Session.RWKV.GenerateCalls | Sources/LLM/RWKV.swift:222-229 | every generated token but the last is fed to the engine, one call each and in order; at the context limit EOS follows |
| Session.RWKV.GenerateWindow | Sources/LLM/RWKV.swift:188-191 | the recent-token window stays within `repeatLastNumber` and always holds the most recent generated tokens |
| Session.RWKV.PredictRejects | Sources/LLM/RWKV.swift:132-138 | a rejected prompt leaves counter, `past` and engine untouched, with `emptyInput` for no tokens and `inputTooLong` for too many |
| Session.RWKV.PredictAccepts | Sources/LLM/RWKV.swift:164-238 | an accepted prompt is recorded in `past`. The reply tokens follow it when generation ends normally, and the reply is the text of every reply token but the last, after the corrected clean-up. That last token is EOS or a stop word, and no earlier one is. The only failure left is the context limit, which records no reply. The counter stays within the context |
| Session.RWKV.GenerateReplyShape | Sources/LLM/RWKV.swift:175-237 | generation from an empty reply that ends normally gives a finished reply |
| Session.RWKV.GenerateBound | Sources/LLM/RWKV.swift:221-232 | generation from a counter within the context leaves it within the context |
| Session.RWKV.EmptyFirstPiece | Sources/LLM/RWKV.swift:194-219 | an unknown first token that is not EOS decodes to "" and the loop goes on |
| Session.RWKV.EmptyFirstPieceReachesClean | Sources/LLM/RWKV.swift:194-244 | then, when generation ends normally, "" is the first reply piece handed to `clean`, outside where `clean` as written is defined, and the model returns the corrected clean-up's reply where the source traps |
| VectorStore.ComputeSimilarity | Sources/VectorDB/VectorDB.swift:106-125 | a result exactly when the score reaches the threshold, carrying the document's id and text and the score |
| VectorStore.Prefix | Sources/VectorDB/VectorDB.swift:103 | `prefix(limit)` keeps the first min(limit, count) results |
| VectorStore.Qualifying | Sources/VectorDB/VectorDB.swift:93-100 | `compactMap` of `computeSimilarity` over the documents in store order; its properties are `QualifyingSpec` and `QualifyingComplete` |
| VectorStore.QualifyingSpec | Sources/VectorDB/VectorDB.swift:93-100 | every result of the `compactMap` reaches the threshold and is a stored document's result; there are at most as many as documents |
| VectorStore.QualifyingComplete | Sources/VectorDB/VectorDB.swift:93-100 | every stored document that reaches the threshold has its result among them |
| VectorStore.InsertSpec | Sources/VectorDB/VectorDB.swift:103 | insertion keeps the results, adds the new one once, and keeps the scores descending |
| VectorStore.SortByScore | Sources/VectorDB/VectorDB.swift:103 | the descending sort by score, as an insertion sort; its properties are `InsertSpec` and `SortSpec` |
| VectorStore.SortSpec | Sources/VectorDB/VectorDB.swift:103 | `sorted(by: { $0.score > $1.score })` is a permutation into descending score order |
| VectorStore.RankSpec | Sources/VectorDB/VectorDB.swift:103 | top-k: min(limit, count) results in descending order, drawn from the input; nothing left out scores above anything kept; everything is kept when at most `limit` qualify |
| VectorStore.RankedQualifying | Sources/VectorDB/VectorDB.swift:93-103 | the ranked qualifying results are a top-`limit` answer over the stored documents |
| VectorStore.VectorDB.constructor | Sources/VectorDB/VectorDB.swift:8-12 | the shared store starts with no documents |
| VectorStore.VectorDB.AddDocument | Sources/VectorDB/VectorDB.swift:21-33 | a text that cannot be embedded is `failedToCalculateEmbedding` with the store unchanged; otherwise the document with its vector is stored |
| VectorStore.VectorDB.Delete | Sources/VectorDB/VectorDB.swift:45-57 | no document with the text is `canNotFindDocumentToDelete(text)` with the store unchanged; otherwise exactly one document with that text is removed and the rest stay in order |
| VectorStore.VectorDB.Clear | Sources/VectorDB/VectorDB.swift:62-64 | every document is removed |
| VectorStore.VectorDB.Search | Sources/VectorDB/VectorDB.swift:77-104 | the search fails, with `failedToCalculateEmbedding`, exactly when the search term cannot be embedded |
| VectorStore.VectorDB.SearchSpec | Sources/VectorDB/VectorDB.swift:77-104 | a successful search returns min(limit, qualifying) results, each qualifying and from a stored document, in descending order; nothing left out scores above a returned result; every qualifying result comes back when at most `limit` qualify |
| VectorStore.VectorDB.SearchReturnsAll | Sources/VectorDB/VectorDB.swift:93-103 | when at most `limit` documents qualify, the result of each one that does is returned |
| VectorStore.ClearedSearchEmpty | Sources/VectorDB/VectorDB.swift:62-64 | after `clear`, any search whose term can be embedded finds nothing |
| Facade.BuildPrompt | Sources/Facade/Facade.swift:48-56 | the prompt for the search results: the tagged question alone for none, else followed by " ###Answer: " and the texts joined by ". "; its layout is `PromptHead`, `PromptPiece` and `PromptAfterPiece` |
| Facade.Texts | Sources/Facade/Facade.swift:54 | one text per result, in order |
| Facade.PromptWithoutResults | Sources/Facade/Facade.swift:49-51 | with no search results the prompt is "###Question: " and the question |
| Facade.PromptHead | Sources/Facade/Facade.swift:56 | with results, the prompt opens with "###Question: ", the question, then " ###Answer: " |
| Facade.PromptPiece | Sources/Facade/Facade.swift:54-56 | each result's text sits at its place in the prompt, in rank order |
| Facade.PromptAfterPiece | Sources/Facade/Facade.swift:54-56 | ". " follows a result's text when another result comes after it; otherwise the prompt ends there |
| Facade.MobileLLM.constructor | Sources/Facade/Facade.swift:17-20 | the shared facade starts with no model |
| Facade.MobileLLM.Load | Sources/Facade/Facade.swift:22-29 | `.testing` installs the testing model with ("Test reply", 0.0); `.rwkv` installs a fresh, empty session holding the given parameters, tokenizers and engine, with the engine primed with BOS and EOS, or throws `failedToInitializeContext` and keeps the previous model |
| Facade.MobileLLM.Add | Sources/Facade/Facade.swift:31-33 | the store's `addDocument` with a fresh id |
| Facade.MobileLLM.Delete | Sources/Facade/Facade.swift:35-37 | the store's `delete` |
| Facade.MobileLLM.Clean | Sources/Facade/Facade.swift:59-61 | the store ends empty |
| Facade.MobileLLM.Prompt | Sources/Facade/Facade.swift:45-57 | the prompt fails exactly when the question cannot be embedded; otherwise it is `BuildPrompt` of the search with the default limit, starting with "###Question: " and the question |
| Facade.MobileLLM.PromptAnswersIff | Sources/Facade/Facade.swift:45-57 | the prompt has an answer part exactly when some stored document reaches the threshold |
| Facade.MobileLLM.PromptOneDocument | Tests/MobileLLMTests.swift:44-49 | with one qualifying document, the answer part is its text |
| Facade.MobileLLM.PromptTwoDocuments | Tests/MobileLLMTests.swift:51-57 | with two qualifying documents, the first scoring strictly more than the second, both texts come first-to-second, joined by ". " |
| Facade.MobileLLM.PromptTwoDocumentsAnyOrder | Sources/Facade/Facade.swift:45-57 | with two qualifying documents, ties included, both texts come joined by ". " in one order or the other, and a strictly better-scoring one comes first |
| Facade.MobileLLM.Answer | Sources/Facade/Facade.swift:42 | `ask` succeeds exactly when the prediction does, pairing the reply with the elapsed time; a model error is passed on |
| Facade.MobileLLM.Ask | Sources/Facade/Facade.swift:39-43 | no model is `modelNotLoaded`, checked first; a failed search is passed on; the testing model returns its prediction; an RWKV session returns its `predict` outcome on the built prompt (with the corrected clean-up) and is left as `predict` leaves it |
| Facade.AskTestingModel | Tests/MobileLLMTests.swift:36-42 | after loading the testing model, a question the store can embed is answered ("Test reply", 0.0) |

## Left out

- The native RWKV engine (`rwkv_init_from_file`, `rwkv_eval_sequence`, logits and state buffers) is not modelled. Engine calls are recorded in a ghost log, and the loader's success is a parameter (`contextCreated`).
- The native sampler chain in `calculateToken` is not modelled: the repetition, frequency and presence penalties, top-k, tail-free, typical, top-p and temperature filters, and the draw. The sampler is an oracle applied to what the source computes for it. The oracle is indexed by the step, not by the engine's state.
- The `nil`-logits guard in `calculateToken` (RWKV.swift:269-272) is not modelled: once the context exists, the logits buffer is always allocated.
- Timing (`Utils.time`, `TokenizeUtils.time`, `dateNow`) is not modelled. The elapsed time `ask` returns is a parameter, and `Session.RWKV.Predict` does not return it.
- Session.RWKV.Predict: the `ExceptionCather` wrapper around the sampler is not modelled (no Objective-C exceptions). `failedToEvaluate` and `ModelError.failedToEval`/`contextLimit`/`modelNotFound` are declared but never thrown by the modelled code.
- The regular-expression matcher, UTF-8 encoding and decoding, and the byte-to-glyph tables are not defined here. They are fields of the `Tokenizer` value, constrained by `Tokenizer.Valid`.
- Reading the tokenizer's vocabulary and merges files (`try!` on the bundle files) is not modelled: their contents are parameters of `Tokenizing.NewTokenizer`.
- Tokenizing.GetPairs: requires a non-empty word, because the source's `0 ..< word.count - 1` traps on an empty one.
- Tokenizing.StripBOS and Tokenizing.StripEOS: require a non-empty list, because the source indexes it unguarded.
- Tokenizing.AppendBOS, Tokenizing.AppendEOS, Tokenizing.StripBOS and Tokenizing.StripEOS: require `<s>` (or `</s>`) in the vocabulary; the source force-unwraps `encoder["<s>"]!` and `encoder["</s>"]!` and traps without them.
- Tokenizing.BuildRanks and Tokenizing.NewTokenizer: require every merge line after the header to hold at least two space-separated fields (`WellFormedMerges`); on a shorter line `BytePair(tuple:)` traps on `tuple[1]`.
- Session.RWKV.Predict, Session.RWKV.constructor, Session.RWKV.Open and Facade.MobileLLM.Load: require a vocabulary spelled in byte glyphs (`GlyphVocabulary`); with any other character in an entry, `byteDecoder[String($0)]!` in `decode` traps.
- VectorStore.VectorDB.Search and VectorStore.Prefix: take the limit as a natural number; a negative limit makes `prefix` trap.
- Tokenizing.Substr: requires `0 <= lo <= hi`, which a Swift `Range<Int>` guarantees, and a negative `lo` traps in `index(_:offsetBy:)`.
- `fakeThrowable` is not modelled; it is the identity.
- `mutPtr` is not modelled; it exposes a buffer to C.
- Integer widths are not modelled: `Int32` counters and token ids are mathematical integers. The model does not capture overflow of `nPast` or of `Int32(i - 1)` ranks.
- `Float`/`Double` are treated as reals. Cosine similarity and the vector magnitudes (Math.swift, VectorDB.swift:87-88, 112-118) are the store's `similarity` function field.
- VectorStore.SortSpec: the relative order of results with equal scores is not stated. Swift's sort is not documented as stable, and the model's insertion sort keeps its own order.
- VectorStore.VectorDB.Delete: which document goes, when several share the text, is left open. The source takes `.first` of a fetch without a sort order.
- VectorStore.VectorDB.AddDocument: the SwiftData upsert on a duplicate `@Attribute(.unique)` id is not modelled. Ids are a parameter standing for a fresh `UUID()`.
- SwiftData persistence, `ModelContainer`, fetch descriptors and pending changes are not modelled. The store is a sequence in memory, and its order stands for the fetch order.
- The `NLEmbedding.sentenceEmbedding(for:)` force-unwrap at store creation is not modelled.
- `async`/`@MainActor` concurrency and the `shared` singletons are not modelled. Each facade and store is an explicit object.
- `MobileLLMError.failedToFindCollection` is declared but never thrown.
- Characters are Dafny `char`s, not Swift grapheme clusters. This affects `Array(token)` in `bpe`, `message.removeFirst()` in `clean`, and `substr`'s offsets.
- Session.RWKV.Predict: the reply is cleaned with the corrected, total `Session.Clean`; where the first reply piece is empty the source traps in `message.removeFirst()` and the model returns a reply instead (see Findings).
- Session.RWKV.Predict: requires `numberOfBatch > 0`, because `min(count, numberOfBatch)` with a non-positive batch makes `evaluateBatches` loop forever or trap.
- Package.swift and the C headers are not modelled; they are build configuration and foreign declarations.

## Findings

| source | as written | input that shows it | evidently intended | confidence | as-written member | corrected member |
|---|---|---|---|---|---|---|
| Sources/LLM/RWKV.swift:241-244 | `clean` calls `message.removeFirst()` on the first reply piece without checking that it has a character | a first sampled token that is neither EOS nor in the vocabulary: `decode` maps it to "" (Tokenizer.swift:172-173), no non-empty stop word matches "", so "" becomes the first piece and `removeFirst()` traps | drop the leading space only when the first piece has a character | low, not executed | Session.CleanAsWritten, Session.RWKV.EmptyFirstPieceReachesClean, Session.CleanAsWrittenTraps | Session.Clean |
