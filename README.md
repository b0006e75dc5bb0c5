# RAG chatbot core, modelled in Dafny

This project models the core of a retrieval-augmented chatbot. The chatbot:

- ingests PDF and text documents;
- cleans them and cuts them into overlapping, sentence-aligned chunks;
- stores the chunks in a vector collection under ids derived from their source and index;
- answers a question by retrieving the nearest chunks, reranking them with a
  cross-encoder, building a prompt from the chunks and the session's
  conversation memory, and handing that prompt to a language-model backend
  (or to a demo responder when none is configured);
- scores an answer with five lexical metrics, their mean and a quality label.

The web front end is left out, except for the upload gate that decides which
file names are accepted.

One Dafny module per source file:

| module | models | file |
|---|---|---|
| `Text` | Python string behaviour the core relies on: `str.isspace`, `strip`/`lstrip`/`rstrip`, `sep.join`, the slices `s[:k]` and `s[-k:]` for any integer `k` (including `s[-0:]`, which is all of `s`), ASCII `lower`, `str(n)`, and the sentence split `re.split(r'(?<=[.!?])\s+', s)` | `text.dfy` |
| `DocumentProcessor` | `_clean_text` and the chunker `_split_text` | `document_processor.dfy` |
| `VectorStore` | chunk ids and upsert, the query's `n_results` and `where`, hits from a query result, `list_sources`, `delete_source` | `vector_store.dfy` |
| `Reranker` | the stable descending sort by cross-encoder score, the pass-through fallback, `rerank` writing the scores in place | `reranker.dfy` |
| `Memory` | the per-session bounded deque of turns and its four read operations | `memory.dfy` |
| `RagChain` | context assembly, the prompt, backend routing, the demo answer, and `chat` | `rag_chain.dfy` |
| `Evaluator` | the tokeniser, the five metrics, the aggregate and the label | `evaluator.dfy` |
| `Upload` | `allowed_file` | `upload.dfy` |

Style of the model:

- Code that updates state in place is a class with `modifies` clauses:
  - the conversation memory (`ConversationMemory`);
  - the vector collection (`VectorStore`, a map from id to record);
  - the chat pipeline (`RagChain`).
- The reranker scores an `array` of hits in place, as `rerank` mutates the
  retrieved dictionaries.
- The Python loops are `method`s with invariants, each proved equal to a
  specification function:
  - the chunking loop (`Pack`);
  - the context builder (`BuildContext`);
  - the formatted history (`FormattedContext`);
  - the similarity-search hit list (`SimilaritySearch`);
  - the faithfulness and precision counters (`Faithfulness`, `ContextPrecision`).
- The properties are proved about those functions.

Main results:

- **Chunking.**
  - Every chunk is non-empty and stripped of whitespace.
  - Chunk `k` is numbered `k` and carries its source and its own length.
  - Every chunk after the first starts with the left-stripped last
    `chunk_overlap` characters of its predecessor and a space.
  - A chunk is longer than `chunk_size` (plus one, after the first, for the
    joining space the length count adds per sentence) only when, after that
    seed, it holds a single sentence.
  - Removing the seeds and rejoining the chunks gives back the document's
    sentences joined by single spaces: no text is lost or reordered.
  - Chunks never split a sentence: without its seed, each chunk is a run of
    consecutive whole sentences, and the runs cover the sentences in order
    (`ChunksAligned`).
  - There are never more chunks than sentences.
  - With `chunk_overlap == 0` the seed is the whole previous chunk, because
    `text[-0:]` is the whole text (`ZeroOverlapRepeats`).
- **Storage.**
  - Chunk ids of one source are injective in the chunk index.
  - Upserting is idempotent, and each chunk ends up under its own id.
  - `delete_source` removes exactly that source's entries, and reports an
    unknown source.
- **Reranking.**
  - The result is the top `k` of a permutation of the scored hits.
  - The scores are non-increasing, and ties keep their retrieval order.
- **Memory.**
  - Each session's deque is always the last `2 * max_turns` turns ever added
    to it.
  - The formatted history is empty exactly for an empty history, and keeps the
    most recent characters when truncated.
- **Chat.**
  - The answer is the chosen backend's reply to a prompt built from the
    reranked hits and the memory **before** this turn.
  - The turn then appends the question and the answer, in that order, to the
    session.
- **Evaluation.**
  - Every metric and the aggregate lie in `[0, 1]`.
  - The evaluator's boundary cases are stated: the early `0.0` returns, and
    the `0.5` returned when no tokens are left.
  - Faithfulness's "more than half" test is the integer test `2 * shared > total`.
  - Answer correctness is symmetric.
  - A higher aggregate never gets a worse label.
- **Upload gate.** A name is accepted exactly when the text after its last dot,
  lower-cased, is `pdf` or `txt`.

## Model

| member | source | states |
|---|---|---|
| `Text.Strip` | utils/document_processor.py:79 | `strip()` returns a contiguous slice of its argument with no whitespace at either end, and leaves an already-stripped text unchanged |
| `Text.StripRemovesOnlySpace` | utils/document_processor.py:79 | everything `strip()` cuts off, before and after the slice it keeps, is whitespace |
| `Text.PyTail` | utils/document_processor.py:108 | `s[-k:]` has length `min(k, len(s))` for positive `k`, is all of `s` for `k == 0`, and drops `-k` leading items for negative `k` |
| `Text.SplitSentences` | utils/document_processor.py:88 | `re.split` on sentence ends always yields at least one piece, so the chunking loop always runs |
| `Text.SplitSentencesWellFormed` | utils/document_processor.py:88 | splitting a non-empty stripped text after `.`, `!` or `?` plus whitespace gives only non-empty, stripped sentences |
| `Text.NatToStringInjective` | utils/vector_store.py:67 | `str(chunk_idx)` is injective on non-negative integers |
| `DocumentProcessor.CollapseRuns` | utils/document_processor.py:76-77 | after each whitespace run or non-ASCII run becomes one space, no character of the class remains except that space, and ASCII input stays ASCII |
| `DocumentProcessor.ReplaceEllipsis` | utils/document_processor.py:78 | after runs of three or more dots become `…`, no three consecutive dots remain; ASCII input becomes ASCII plus ellipses |
| `DocumentProcessor.CleanText` | utils/document_processor.py:75-80 | the cleaned text is stripped, has no run of three dots, and is ASCII except for the inserted ellipses |
| `DocumentProcessor.Pack` | utils/document_processor.py:94-113 | the loop leaves `chunks`, `current` and `curr_len` equal to the fold of the iteration over the sentences |
| `DocumentProcessor.SplitText` | utils/document_processor.py:82-128 | `_split_text` returns exactly the specified chunks; they are well numbered; an all-whitespace text gives no chunks |
| `DocumentProcessor.RunNumbered` | utils/document_processor.py:98-106 | every chunk closed inside the loop has index `len(chunks)`, the source, its own length, and non-empty stripped text |
| `DocumentProcessor.ChunksNumbered` | utils/document_processor.py:116-126 | after the final flush chunk `k` still has `chunk_idx == k`, the source, `char_count == len(text)`, and non-empty stripped text |
| `DocumentProcessor.BlankIsOneSentence` | utils/document_processor.py:88 | a text made of whitespace only splits into itself |
| `DocumentProcessor.BlankTextHasNoChunks` | utils/document_processor.py:116-126 | an all-whitespace text yields no chunks, because the flushed buffer strips to empty |
| `DocumentProcessor.StepClosesAtMostOne` | utils/document_processor.py:94-113 | one iteration closes at most one chunk, only when the buffer is non-empty and the sentence would overflow it; closed chunks are never changed; the buffer then ends with the sentence |
| `DocumentProcessor.RunCount` | utils/document_processor.py:94-113 | before any sentence nothing is closed; after `n >= 1` sentences fewer than `n` chunks are closed |
| `DocumentProcessor.ChunksAtMostSentences` | utils/document_processor.py:82-128 | `_split_text` never returns more chunks than the text has sentences |
| `DocumentProcessor.RunInvHolds` | utils/document_processor.py:94-113 | the chunking loop invariant holds after every prefix of the sentences of a stripped text |
| `DocumentProcessor.FlushFacts` | utils/document_processor.py:116-126 | the final flush keeps every closed chunk well formed and completes the reconstruction of the sentences |
| `DocumentProcessor.ChunksFacts` | utils/document_processor.py:82-128 | all the chunk facts together: non-empty and stripped, seeded from the predecessor, bounded or a single sentence, and the pieces rejoin to the sentences |
| `DocumentProcessor.ChunksReconstruct` | utils/document_processor.py:94-126 | the chunks without their overlap seeds, joined by spaces, equal the sentences joined by spaces: no text is lost, duplicated or reordered |
| `DocumentProcessor.ChunksOverlap` | utils/document_processor.py:107-110 | every chunk after the first starts with the left-stripped last `chunk_overlap` characters of the previous chunk and a space |
| `DocumentProcessor.ChunksBounded` | utils/document_processor.py:96 | a chunk is longer than `chunk_size` (plus one after the first) only when it holds one sentence after its seed |
| `DocumentProcessor.AlignedHolds` | utils/document_processor.py:94-113 | after every prefix of the sentences, each closed chunk, without its seed, is the run of whole sentences between two consecutive cut positions, and the open buffer is the seed followed by the sentences from the last cut on |
| `DocumentProcessor.ChunksAligned` | utils/document_processor.py:82-128 | chunks never split a sentence: there are cut positions `0 = c0 < c1 < … < cn = len(sentences)` such that chunk `k`, without its seed, is exactly sentences `ck .. ck+1 - 1` joined by spaces |
| `DocumentProcessor.ChunksNeverSplitSentences` | utils/document_processor.py:82-128 | the same, stated as the existence of the cut positions |
| `DocumentProcessor.ZeroOverlapRepeats` | utils/document_processor.py:108 | with `chunk_overlap == 0`, each chunk starts with the entire previous chunk, since `text[-0:]` is the whole text |
| `Memory.DequeAppendWindow` | utils/memory.py:36-42 | appending to a `deque(maxlen=cap)` holding the window of a log gives the window of the extended log |
| `Memory.WindowIsRecent` | utils/memory.py:36 | the deque holds exactly the most recent `cap` turns of the session, oldest first |
| `Memory.TurnLineSpeaker` | utils/memory.py:59-61 | a line starts with `Human: ` exactly for role `user`, and otherwise with `Assistant: ` |
| `Memory.TurnLineBound` | utils/memory.py:60-61 | a line keeps at most 500 characters of content, and short content is kept whole at the end of the line |
| `Memory.RenderFacts` | utils/memory.py:53-67 | an empty history renders as `""`; a positive budget bounds the rendering by the budget plus the marker; an over-long text gets the truncation marker; a zero budget keeps the whole text behind the marker |
| `Memory.RenderKeepsTail` | utils/memory.py:63-65 | a truncated rendering ends with the last `max_chars` characters of the full text |
| `Memory.RenderNonEmpty` | utils/memory.py:53-67 | a non-empty history never renders to `""` |
| `Memory.SessionCountAfterAdd` | utils/memory.py:35-36 | adding a turn grows the session count by one exactly when the session id was new |
| `Memory.ConversationMemory.constructor` | utils/memory.py:26-29 | a new memory has no sessions and keeps `max_turns` |
| `Memory.ConversationMemory.History` | utils/memory.py:44-46 | an unknown session reads as empty; a known one as the last `2 * max_turns` turns added to it |
| `Memory.ConversationMemory.AddTurn` | utils/memory.py:33-42 | the session is created on first write; the turn is appended, evicting the oldest past the cap; no other session changes |
| `Memory.ConversationMemory.FormattedContext` | utils/memory.py:48-67 | the loop's result is the rendering of the history; it is empty exactly when the history is |
| `Memory.ConversationMemory.RecentMessages` | utils/memory.py:69-72 | the result is `history[-n:]` |
| `Memory.ConversationMemory.Clear` | utils/memory.py:74-77 | only that session is removed (a no-op for unknown ids), and the count drops accordingly |
| `Memory.ConversationMemory.SessionCount` | utils/memory.py:79-80 | the count is zero exactly when there are no sessions |
| `VectorStore.ChunkId` | utils/vector_store.py:67 | every id starts with `source + "_chunk_"` |
| `VectorStore.ChunkIdInjective` | utils/vector_store.py:66-67 | two chunk indices of one source with equal ids are equal |
| `VectorStore.Ids` | utils/vector_store.py:67 | one id per chunk, in order, made from its `chunk_idx` |
| `VectorStore.Records` | utils/vector_store.py:68-69 | one stored record per chunk, with its text and metadata |
| `VectorStore.Upsert` | utils/vector_store.py:71-76 | after an upsert the collection's ids are its old ids plus exactly the given ids |
| `VectorStore.UpsertOutside` | utils/vector_store.py:72-76 | an upsert touches only the ids it is given |
| `VectorStore.UpsertLast` | utils/vector_store.py:72-76 | an upserted id holds the row of its last occurrence |
| `VectorStore.UpsertIdempotent` | utils/vector_store.py:71-76 | re-ingesting the same chunks leaves the collection as after the first ingestion |
| `VectorStore.NumberedIdsDistinct` | utils/vector_store.py:66-67 | the ids of a document's chunks are pairwise distinct |
| `VectorStore.StoredUnderItsId` | utils/vector_store.py:61-76 | after ingesting the chunker's output, chunk `i` is stored under `source_chunk_i` with its text, source, index and length |
| `VectorStore.NResults` | utils/vector_store.py:90 | `min(top_k, count or 1)`: never above `top_k`, at least 1 for `top_k >= 1`, and at most the count of a non-empty collection |
| `VectorStore.HitsOf` | utils/vector_store.py:95-106 | one hit per row of the zipped result columns, with similarity `1 - distance` and no rerank score |
| `VectorStore.Where` | utils/vector_store.py:86 | no filter exactly when the source filter is missing or empty; otherwise the filter is the given source |
| `VectorStore.SortedSet` | utils/vector_store.py:119-120 | `sorted(set)` is strictly increasing in Python's string order and has exactly the set's elements |
| `VectorStore.SortedUnique` | utils/vector_store.py:120 | the sorted list of a set is unique |
| `VectorStore.VectorStore.constructor` | utils/vector_store.py:22-50 | the store opens on the persisted collection as it was left, which is empty only for a new database |
| `VectorStore.VectorStore.DocCount` | utils/vector_store.py:108-109 | the count is zero exactly for an empty collection |
| `VectorStore.VectorStore.ListSources` | utils/vector_store.py:114-120 | duplicate-free, sorted source names, one for each stored entry (`unknown` when it has none), and `[]` for an empty collection |
| `VectorStore.VectorStore.AddDocuments` | utils/vector_store.py:61-77 | the chunks are upserted under their ids; an empty list changes nothing |
| `VectorStore.VectorStore.SimilaritySearch` | utils/vector_store.py:79-106 | the service is asked for `NResults(top_k, count)` rows with the `where` filter, and its rows become hits in order |
| `VectorStore.VectorStore.DeleteSource` | utils/vector_store.py:122-132 | exactly the entries of that source are removed and counted; with none, nothing changes and the not-found error is returned |
| `Reranker.InsertOrdered` | utils/reranker.py:75 | inserting an index behind all keys at least as large keeps the descending, stable order |
| `Reranker.Rank` | utils/reranker.py:75 | the sort's permutation covers exactly `0 .. n-1` and is in descending, stable order |
| `Reranker.RankDistinct` | utils/reranker.py:75 | the permutation never repeats an index |
| `Reranker.SortByScore` | utils/reranker.py:75 | `sorted(reverse=True)` permutes the hits by the rank, with non-increasing scores and the same members |
| `Reranker.SortIsStable` | utils/reranker.py:75 | hits with equal scores keep their input order |
| `Reranker.Scored` | utils/reranker.py:69-73 | every hit gets the scorer's verdict on `(query, text)` as its rerank score, and is otherwise unchanged |
| `Reranker.RerankResult` | utils/reranker.py:69-80 | with a model, at most `top_k` scored input hits come back, in non-increasing score order |
| `Reranker.Reranked` | utils/reranker.py:61-80 | no hits give `[]`; without a model the first `top_k` come back unchanged; otherwise the best `top_k` scored hits |
| `Reranker.ModelName` | utils/reranker.py:26-29 | `model_name or DEFAULT_MODEL`: a given non-empty name is used, and a missing or empty one selects `cross-encoder/ms-marco-MiniLM-L-6-v2` |
| `Reranker.Reranker.constructor` | utils/reranker.py:26-42 | the model name falls back to the default model when missing or empty; the outcome of loading the model is kept |
| `Reranker.Reranker.Status` | utils/reranker.py:82-86 | `loaded` exactly with a model, `fallback` exactly without |
| `Reranker.Reranker.Rerank` | utils/reranker.py:44-80 | an empty input changes nothing; pass-through leaves the hits alone; with a model every input hit gets its score written in place; the result is `Reranked` |
| `Evaluator.Tokenize` | utils/evaluator.py:179-180 | every token of `_tokenize` is a word of at least two ASCII lower-case letters |
| `Evaluator.Words` | utils/evaluator.py:180 | every token is ASCII lower-case letters only, at least two of them |
| `Evaluator.WordsSplit` | utils/evaluator.py:180 | a non-word character separates tokens: tokenising `a + sep + b` gives the tokens of `a`, then those of `b` |
| `Evaluator.WordsOfRun` | utils/evaluator.py:180 | a single run of word characters yields itself exactly when it is two or more letters `a`-`z`, and nothing otherwise; with `WordsSplit` this gives every maximal all-letter run in order and no other token |
| `Evaluator.MixedRunDropped` | utils/evaluator.py:179-180 | `abc1` yields no token: `\b` does not match inside a word |
| `Evaluator.ApostropheSplit` | utils/evaluator.py:179-180 | a lower-case word, an apostrophe and one letter (`don't`) yield only the word: the apostrophe ends the run and the lone letter is too short |
| `Evaluator.CombinedTokens` | utils/evaluator.py:83-88 | the tokens of the space-joined contexts are exactly the tokens of the individual contexts |
| `Evaluator.Sentences` | utils/evaluator.py:182-183 | each sentence is non-empty and stripped |
| `Evaluator.SupportedIff` | utils/evaluator.py:86-88 | a sentence is supported exactly when it has tokens and more than half of them, in integer terms, occur in the context |
| `Evaluator.FaithfulnessOf` | utils/evaluator.py:71-91 | faithfulness lies in `[0, 1]` and is `0` without contexts, without an answer, or without sentences |
| `Evaluator.Faithfulness` | utils/evaluator.py:71-91 | the counting loop computes `FaithfulnessOf` |
| `Evaluator.AnswerRelevancy` | utils/evaluator.py:93-119 | relevancy is `0` for an empty question or answer, `0.5` when only stop words remain, the content-word overlap ratio otherwise, halved for answers under 20 characters; always in `[0, 1]` |
| `Evaluator.RelevantCount` | utils/evaluator.py:132-137 | at most one count per context |
| `Evaluator.ContextPrecision` | utils/evaluator.py:121-139 | `0` without contexts, `0.5` for a tokenless question, else the share of contexts sharing more than 30% of the question's tokens |
| `Evaluator.ContextRecall` | utils/evaluator.py:141-156 | recall lies in `[0, 1]`, is `0` without ground truth or contexts, and is `0.5` for a tokenless ground truth |
| `Evaluator.FullRecallIff` | utils/evaluator.py:148-156 | recall is `1` exactly when every ground-truth token occurs in some context |
| `Evaluator.AnswerCorrectness` | utils/evaluator.py:158-175 | correctness is `0` for an empty text or no common token, otherwise `2 * common / (|answer| + |truth|)` over token multisets; always in `[0, 1]` |
| `Evaluator.F1` | utils/evaluator.py:172-174 | the F1 of the token counts is `2c / (x + y)`, which lies in `(0, 1]` |
| `Evaluator.F1Identity` | utils/evaluator.py:172-174 | the harmonic mean of precision and recall equals `2c / (x + y)` |
| `Evaluator.AnswerCorrectnessSymmetric` | utils/evaluator.py:158-175 | swapping the answer and the ground truth does not change correctness |
| `Evaluator.MeanBounds` | utils/evaluator.py:52-53 | the mean of scores in `[0, 1]` lies in `[0, 1]` |
| `Evaluator.Label` | utils/evaluator.py:57-64 | each of the four labels is given exactly on its band: `Excellent` from 0.8, `Good` from 0.6 below 0.8, `Fair` from 0.4 below 0.6, `Poor` below 0.4 |
| `Evaluator.LabelMonotone` | utils/evaluator.py:56-64 | a higher aggregate never gets a worse quality label |
| `Evaluator.WithAggregate` | utils/evaluator.py:51-64 | the aggregate is the mean of the three to five present metrics, lies in `[0, 1]`, carries its label, and no metric changes |
| `Evaluator.Evaluate` | utils/evaluator.py:28-67 | each metric is its definition; recall and correctness are present exactly for a non-empty ground truth; the aggregate and the label follow |
| `RagChain.Parts` | utils/rag_chain.py:141-143 | document `i` gets the block `[i] Source: src` and its text, numbered from 1 |
| `RagChain.BuildContext` | utils/rag_chain.py:137-144 | the loop builds the specified context; it is the not-found text exactly for no documents, and otherwise starts with `[1] Source: ` |
| `RagChain.ContextStart` | utils/rag_chain.py:137-144 | a non-empty context starts with the first header and is never the not-found text |
| `RagChain.MockResponse` | utils/rag_chain.py:203-215 | a context mentioning "no relevant" (case-insensitively) gets the fixed not-found answer; otherwise the demo answer holds the first 400 characters of the context, newlines turned to spaces |
| `RagChain.MockOnEmptyContext` | utils/rag_chain.py:138-139 | with nothing retrieved, the demo responder always gives the not-found answer |
| `RagChain.UserPrompt` | utils/rag_chain.py:155-162 | the whole prompt in both cases: the context block, then `Conversation so far:` and the history when there is one (an empty line otherwise), then the question and the closing instruction |
| `RagChain.Route` | utils/rag_chain.py:164-169 | the backend is OpenAI exactly for provider `openai` with a client, Ollama exactly for `ollama`, and the mock otherwise |
| `RagChain.OpenAIMessages` | utils/rag_chain.py:173-175 | the system prompt, then the recent messages, then the user prompt |
| `RagChain.Generate` | utils/rag_chain.py:146-169 | each backend gets its own input: the messages, the system prompt joined to the user prompt, or the query and the context |
| `RagChain.View` | utils/rag_chain.py:125-130 | a reranked entry is exactly the first 150 characters of the hit's text, or the whole text when it is shorter, followed by `…`; source and both scores are the hit's |
| `RagChain.Response` | utils/rag_chain.py:115-133 | the answer unchanged; per hit, in order, the preview `text[:200] + …` and the reranked entry `View` of that hit; the sources are exactly the hits' sources |
| `RagChain.RerankCandidates` | utils/rag_chain.py:91-95 | reranking is skipped for no candidates; otherwise it is `rerank` on the candidates |
| `RagChain.ChooseProvider` | utils/rag_chain.py:48 | `llm_provider or os.environ.get("LLM_PROVIDER", "openai")`: a non-empty argument wins, then the environment, then `openai` |
| `RagChain.RagChain.constructor` | utils/rag_chain.py:38-67 | the provider is the argument, else the environment's, else `openai`; a client exists only for `openai` with the package installed |
| `RagChain.RagChain.Answer` | utils/rag_chain.py:97-108 | the answer is generated from the context of the ranked hits, the rendered history (2000 characters) and the last 6 turns |
| `RagChain.RagChain.Remember` | utils/rag_chain.py:110-112 | the query, then the answer, are appended to the session |
| `RagChain.RagChain.Chat` | utils/rag_chain.py:71-133 | retrieval, reranking, generation from the memory as it was before the turn, two appended turns, and the response built from the reranked hits |
| `Upload.LastDot` | app.py:59 | the position of the last `.`, or none exactly when there is no dot |
| `Upload.Extension` | app.py:59 | `rsplit(".", 1)[1]`: the dot-free suffix after the last dot |
| `Upload.AllowedFile` | app.py:57-59 | an accepted name contains a dot |
| `Upload.AllowedFileIff` | app.py:57-59 | `stem + "." + ext`, with a dot-free `ext`, is accepted exactly when `ext.lower()` is in `{pdf, txt}` |
| `Upload.UpperCaseAccepted` | app.py:59 | the extension's case does not matter |
| `Upload.InnerExtensionIgnored` | app.py:59 | only the last extension counts: `report.pdf.exe` is refused |

## Left out

- File reading (`process_file`, `_read_pdf`, `_read_txt`): file I/O, PDF parsing and encoding fallbacks. The chunker starts from the decoded text.
- Embedding, nearest-neighbour search and the collection's persistence belong to the vector database. A query is the `QueryService` parameter.
- Chroma's rejection of duplicate ids within one upsert is not modelled; a later row wins. Ids from the chunker are distinct (`NumberedIdsDistinct`).
- `get_collections`, the start-up of the database client, and all logging.
- Loading the cross-encoder and downloading the model: the model, or its absence, is a constructor argument. The score function is a parameter.
- The OpenAI and Ollama calls, and `_init_llm`'s package import: each backend is a function parameter that returns the reply, or the error text `_call_openai` and `_call_ollama` return when the call fails. Environment variables become parameters as well.
- The wall-clock time stamp stored with every turn.
- Floating point: scores and ratios are exact reals. The four-decimal rounding of every metric, hit score and rerank score is not modelled.
- `lower()` and the regex class `\w` are ASCII-only, and there is no Unicode case folding.
- `max_turns` is a natural number. A negative `maxlen` raises in Python and is not modelled.
- The `sources` list of a chat response is a set: `list(set)` order depends on string hashing.
- `VectorStore.VectorStore.ListSources`: ghost, because it sorts a set. It states the result, not an executable sort.
- `Evaluator.Evaluate`: an absent ground truth gives `None` for both recall and correctness. The source stores `None` under `context_recall` and leaves the `answer_correctness` key out.
- `Memory.ConversationMemory.RecentMessages`: returns the `Turn` values themselves. The copy into fresh `{role, content}` dictionaries is not modelled.
- `Memory.ConversationMemory.AddTurn`: does not state the new session count; `SessionCountAfterAdd` proves it about the same map update.
- `RagChain.RagChain.Chat`: states the memory only for the chat's own session; the other sessions are left alone by `AddTurn`. Its reranked hits are returned as a ghost value next to the response.
- The Flask routes and the session handling of the web application.
