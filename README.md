# LLNHome retrieval core in Dafny

LLNHome is a question-answering service over arXiv papers. Its `/query` endpoint does four things:

1. It asks a retrieval strategy (basic, hierarchical, hybrid or adaptive) for documents from a vector store.
2. It formats the hits as a numbered context plus a list of source lines.
3. It prepends the last few turns of the session's conversation.
4. It asks the Gemini model for an answer, retrying up to three times.

An ingest script turns arXiv records into document texts and loads them into the store in batches of 100. An in-process memory keeps a TTL cache of embeddings and a most-recent-first conversation history per session, capped at ten turns. A metrics object keeps a sliding window of the last 100 request durations and two counters.

This project models that core and proves what the code promises about it. The vector store, the language model and the clock are parameters:

- a search is a total function `(query, k, filter) -> SearchResult`, and a store error is the empty outer lists;
- a model call is an `Outcome` per attempt;
- "now" and the elapsed time are arguments.

Modules, one per source file or concern:

| module | file | models |
|---|---|---|
| `Wrappers` | wrappers.dfy | `Option` / `Result` |
| `Text` | text.dfy | ASCII `lower()`, `split()`, `strip()`, `in`, `join`, `str(n)` and the slice `xs[:n]` |
| `VectorStore` | vector_store.dfy | the shape of a `vector_db.search` answer |
| `QueryAnalysis` | query_analysis.dfy | keyword extraction and question-complexity classification |
| `Reranking` | rerank.dfy | the lexical score and the stable sort of `_rerank_documents` |
| `Merging` | merge.dfy | `_merge_results` |
| `ModularRag` | modular_rag.dfy | strategy dispatch and the four strategies |
| `Memory` | memory.dfy | `ConversationMemory` (in-process mode) as a class over two maps |
| `Metrics` | metrics.dfy | `PerformanceMetrics` as a class |
| `Gemini` | gemini.dfy | the constructor's key check and the retry loop of `generate_response` |
| `Api` | api.dfy | `format_sources`, `format_context`, the history block, the prompt and the `/query` flow |
| `Loader` | loader.dfy | `create_document_text` and the batching loop of `process_arxiv_data` |

The stateful parts are imperative Dafny, each method proved against a specification function:

- `ConversationMemory`, `PerformanceMetrics` and `QueryDocuments` change fields of classes;
- the loops of `_rerank_documents`, `_merge_results`, `format_sources`, `format_context`, `get_metrics`, `generate_response` and `process_arxiv_data` are `while` or `for` loops with invariants.

The expression-level parts are functions with lemmas:

- strategy dispatch;
- keywords;
- complexity;
- document text;
- the history block.

Where the code and the project's documentation disagree, the model follows the code:

- "What is AI?" contains "what", so it is classified medium and routed to the hybrid strategy, not the basic one.
- The keyword list of "What are the main advantages of transformer models over recurrent neural networks?" is `[main, advantages, transformer, models, over]`. The `[:5]` cut drops "recurrent".
- The hybrid strategy answers in the nested shape (`documents: [[...]]`). Through `/query` this ends in the error path whenever anything was retrieved. `format_sources` raises on a list of metadata lists; when the merged metadatas are `[]` it returns `[]`, and `QueryResponse` then rejects `context=[[]]`.

## Model

| member | source | states |
|---|---|---|
| ModularRag.ExecuteRag | app/modular_rag.py:24-41 | never reports the adaptive strategy; fails with `UnknownStrategy` iff a string names no strategy; the basic and hierarchical enum members never fail and report themselves |
| ModularRag.BasicRag | app/modular_rag.py:43-50 | reports basic and semantic search; the documents are the store's first group, or empty when the store gave none |
| ModularRag.HierarchicalRag | app/modular_rag.py:52-68 | reports hierarchical and two-stage search; at most final_top_k documents and metadatas |
| ModularRag.HybridRag | app/modular_rag.py:70-89 | a success is nested and reports hybrid; a failure is an `IndexError` and happens only for a question with keywords |
| ModularRag.AdaptiveRag | app/modular_rag.py:91-99 | never reports adaptive; a failure is an `IndexError` and happens only for a medium question |
| ModularRag.KeywordQueryIsKeywords | app/modular_rag.py:116-127 | the query `_keyword_search` sends splits back into exactly the keywords |
| ModularRag.ParseStrategy | app/modular_rag.py:24-29 | the name is lowercased and found exactly when it is the value of one of the four strategies; otherwise it is `UnknownStrategy` carrying the lowered name |
| ModularRag.ParseStrategyIgnoresCase | app/modular_rag.py:26 | lookup of a name and of its lowercase form agree |
| ModularRag.ParseStrategyValue | app/modular_rag.py:9-13 | every strategy is found under its own value |
| ModularRag.UnknownNameRunsNoSearch | app/modular_rag.py:24-29 | a name fails with `UnknownStrategy` iff it is no strategy's value; then the result does not depend on the store |
| ModularRag.ByNameIsByValue | app/modular_rag.py:24-41 | a string strategy is dispatched exactly like the enum member whose value is its lowercase form |
| ModularRag.HierarchicalDispatchUsesWidthTen | app/modular_rag.py:34-39 | through dispatch, hierarchical depends only on the store's width-10 answer and never fails; its final width is top_k (default 3): min(top_k, candidates) documents and the store's first top_k metadatas |
| ModularRag.AdaptiveComplexUsesWidthFifteen | app/modular_rag.py:91-99 | the adaptive route for a complex question depends only on the store's width-15 answer, reports the hierarchical strategy, and answers min(top_k, candidates) documents with the store's first top_k metadatas |
| ModularRag.AdaptiveSimpleAndMediumUseTopK | app/modular_rag.py:91-98 | the simple and medium adaptive routes depend only on the store's answers at top_k: the semantic query, and the keyword query when there are keywords |
| ModularRag.HybridUsesTopK | app/modular_rag.py:70-78 | hybrid depends only on the semantic query and the keyword query at top_k |
| ModularRag.DispatchUsesTopK | app/modular_rag.py:30-41 | through dispatch, basic, hybrid and non-complex adaptive depend only on the store's answers at top_k (default 3) |
| ModularRag.BasicPassesStoreGroup | app/modular_rag.py:43-50 | for a well-formed store answer, basic passes on the first group, document i with metadata i; it is empty iff the store failed or found nothing |
| ModularRag.HierarchicalSpec | app/modular_rag.py:52-68 | an empty outer result gives empty lists; otherwise min(final_top_k, candidates) documents drawn from the candidates, in non-increasing score, none outscored by a dropped candidate; the metadatas are exactly the store's first metadata group cut to final_top_k (empty when the store gave none), in the store's own order |
| ModularRag.HierarchicalMetadataOutOfStep | app/modular_rag.py:58-61 | concrete case: with candidates "x","q" and question "q", the single answer is document "q" with the metadata of "x" |
| ModularRag.RepeatedTokensCountTwice | app/modular_rag.py:104 | repeated question tokens each count: "a a" scores 2 against "a" |
| ModularRag.HybridSpec | app/modular_rag.py:70-89 | the answer is always nested; without keywords it is the semantic answer unchanged; with keywords it fails iff a store answer has an empty outer list, and otherwise it is one duplicate-free group of equal-length lists that starts with the first-occurrence semantic hits, then holds only keyword documents the semantic hits lack, and has exactly the documents of both searches |
| ModularRag.HybridRaisesOnStoreError | app/modular_rag.py:70-78 | with a failed semantic store, hybrid raises iff the question has a keyword |
| ModularRag.AdaptiveReportsRoute | app/modular_rag.py:91-99 | the reported strategy is basic iff simple, hybrid iff medium, hierarchical iff complex; only the medium route can fail |
| ModularRag.WhatIsAiGoesHybrid | app/modular_rag.py:162-173 | "What is AI?" is routed to the hybrid strategy |
| QueryAnalysis.KeptWords | app/modular_rag.py:113 | every kept word is longer than 3 characters and not a stop word |
| QueryAnalysis.KeptIsSubsequence | app/modular_rag.py:113 | the kept words are an in-order subsequence of the split words |
| QueryAnalysis.Keywords | app/modular_rag.py:110-114 | at most 5 keywords, each longer than 3 and not a stop word, an in-order subsequence of the lowered words; they are the first kept words (a prefix of the filtered list), and all of them when fewer than 5 |
| QueryAnalysis.KeptAreWords | app/modular_rag.py:113 | every kept word is one of the split words |
| QueryAnalysis.KeptAppend | app/modular_rag.py:113 | filtering distributes over concatenation |
| QueryAnalysis.ComparisonQuestionKeywords | app/modular_rag.py:110-114 | the keywords of the transformer comparison question are `[main, advantages, transformer, models, over]`, so "recurrent" is not among them |
| QueryAnalysis.MentionsAny | app/modular_rag.py:168 | true iff some indicator occurs as a substring |
| QueryAnalysis.AssessComplexity | app/modular_rag.py:162-173 | complex iff a complex indicator occurs in the lowered question; medium iff none does and a simple one does; simple iff neither does |
| QueryAnalysis.WhatIsAiIsMedium | app/modular_rag.py:170-171 | "What is AI?" is medium |
| QueryAnalysis.HowQuestionIsComplex | app/modular_rag.py:166-169 | every question starting "How" is complex |
| QueryAnalysis.ShowRequestIsComplex | app/modular_rag.py:166-169 | every question starting "Show" is complex, because it contains "how" |
| Reranking.Score | app/modular_rag.py:104 | a document's score is at most the number of question tokens |
| Reranking.Reranked | app/modular_rag.py:101-108 | the reranked list has as many documents as the input |
| Reranking.CountPresent | app/modular_rag.py:104 | the score is at most the number of question tokens |
| Reranking.SortPermutation | app/modular_rag.py:107 | the sort is a permutation of its input |
| Reranking.SortIsRanked | app/modular_rag.py:107 | the sort is non-increasing by key |
| Reranking.SortIsStable | app/modular_rag.py:107 | for every key value, the documents with that key keep their input order |
| Reranking.InsertStable | app/modular_rag.py:107 | inserting behind all equal keys appends the new document to its key class |
| Reranking.RerankedSpec | app/modular_rag.py:101-108 | the reranked list is a permutation of the input, sorted non-increasing by score, and stable on equal scores |
| Reranking.InsertAtFirstLower | app/modular_rag.py:107 | inserting at the first strictly lower key is the specification's insertion |
| Reranking.FirstBelow | app/modular_rag.py:107 | finds the first position whose score is below the new one |
| Reranking.InsertScored | app/modular_rag.py:105-107 | one step of the sort on scored pairs agrees with the specification's insertion and keeps each score equal to its document's score |
| Reranking.RerankDocuments | app/modular_rag.py:101-108 | the scoring loop and the sort compute `Reranked` |
| Merging.Zip | app/modular_rag.py:145 | `zip` pairs up to the shorter length |
| Merging.FirstIndex | app/modular_rag.py:145-149 | the position of a document's first occurrence: it holds the document and no earlier position does |
| Merging.FirstIndexUnique | app/modular_rag.py:145-149 | a position holding the document with no earlier occurrence is its first index |
| Merging.FirstOccurrences | app/modular_rag.py:145-149 | never longer than the input |
| Merging.FirstOccurrencesSpec | app/modular_rag.py:145-149 | no longer than the input; every kept hit is a first occurrence of its document; documents are pairwise distinct; the same set of documents; each kept hit is the input hit at its document's first index, and the kept hits are in increasing order of those indices |
| Merging.FirstOccurrencesOrdered | app/modular_rag.py:145-149 | each kept hit (document with its metadata) is the input hit at its document's first index, and the kept order is the order of first occurrence |
| Merging.FirstOccurrencesPrefix | app/modular_rag.py:145-155 | the semantic first occurrences are a prefix of the merged list |
| Merging.MergeStep | app/modular_rag.py:146-149 | one loop step appends the hit iff its document is unseen |
| Merging.Merged | app/modular_rag.py:135-160 | fails iff an outer list is empty; otherwise one group of two equal-length lists |
| Merging.MergedSpec | app/modular_rag.py:135-160 | fails iff an outer list is empty; otherwise one group of equal-length lists, at most len(docs1)+len(docs2) long, duplicate-free, semantic first occurrences first, then only keyword documents the semantic hits lack, with exactly the documents of the zipped inputs; every document is paired with the metadata of its first occurrence in semantic-then-keyword order, and the documents appear in that order |
| Merging.MergedHitsShape | app/modular_rag.py:145-155 | the merged hits are no longer than both inputs together, duplicate-free, start with the semantic first occurrences, and cover exactly the documents of both |
| Merging.MergedHitsTail | app/modular_rag.py:151-155 | every merged document after the semantic ones is a keyword document not among the semantic hits |
| Merging.MergedHitsOrder | app/modular_rag.py:145-155 | each merged hit is the hit at its document's first occurrence in semantic-then-keyword order, and the merged order is the order of first occurrence |
| Merging.MergeResults | app/modular_rag.py:135-160 | the two loops over a seen-set compute `Merged` |
| Merging.AddKeywordHits | app/modular_rag.py:151-155 | the second loop extends the first-occurrence lists of the semantic hits to those of both inputs; the length cap never bites |
| Memory.CacheKey | app/memory.py:33 | the key is "embedding:" followed by the caller's key |
| Memory.CacheKeyInjective | app/memory.py:33 | distinct keys use distinct cache entries |
| Memory.Put | app/memory.py:33-36 | the cache gains the entry under "embedding:"+key with the data and expiry now+ttl; every other entry is unchanged |
| Memory.Get | app/memory.py:46-49 | a hit iff an entry exists and its expiry is strictly after now; a hit returns the stored data |
| Memory.GetAfterPut | app/memory.py:33-36 | after a put, reads before now+ttl hit with the new value and later reads miss; ttl <= 0 misses at once |
| Memory.PutKeepsOtherKeys | app/memory.py:33-36 | a put leaves every other key's reads unchanged |
| Memory.MissStaysMiss | app/memory.py:46-49 | expired entries stay: a miss now is a miss later |
| Memory.Pushed | app/memory.py:67-70 | the new turn comes first, followed by the previous first 9 turns, at most 10 in all |
| Memory.Stored | app/memory.py:54-73 | the session's list becomes its old list with the turn pushed; every other session is unchanged |
| Memory.StoredSpec | app/memory.py:67-70 | storing keeps every list at most 10 long, puts the turn first, keeps the first 9 old turns behind it, and leaves other sessions unchanged |
| Memory.Cleared | app/memory.py:86-93 | the session is removed; every other session is unchanged |
| Memory.ClearedSpec | app/memory.py:91 | clearing empties the session, leaves others unchanged, is idempotent, and does nothing to an absent session |
| Memory.StoredAllKeepsLastTen | app/memory.py:67-70 | after any sequence of stores, the history is the last 10 turns, newest first |
| Memory.ConversationMemory.constructor | app/memory.py:21-22 | both maps start empty |
| Memory.ConversationMemory.CacheEmbedding | app/memory.py:24-38 | the cache becomes `Put(old, key, embedding, ttl, now)`; the history is untouched |
| Memory.ConversationMemory.GetCachedEmbedding | app/memory.py:40-52 | returns `Get` on the cache |
| Memory.ConversationMemory.StoreConversation | app/memory.py:54-73 | the history becomes `Stored(...)` with the new turn; the cache is untouched; the 10-turn bound is kept |
| Memory.ConversationMemory.GetConversationHistory | app/memory.py:75-84 | returns the stored list sliced `[:limit]`, which is empty for an unknown session |
| Memory.ConversationMemory.ClearConversation | app/memory.py:86-93 | the history becomes `Cleared(...)`; the cache is untouched |
| Metrics.Window | app/main.py:48-56 | the new duration is last; the window grows by one up to 100 and drops the oldest at 100 |
| Metrics.WindowKeepsMostRecent | app/main.py:48-56 | after any sequence of requests, the window is the last min(n, 100) durations |
| Metrics.MetricsOf | app/main.py:58-71 | idle iff there are no durations; otherwise the total is success+error and the error count is reported |
| Metrics.MetricsSpec | app/main.py:58-71 | idle iff no durations; otherwise the total is success+error, the error count is reported, and the rate is in [0,1] and equals 1 iff there were no errors |
| Metrics.RateBounds | app/main.py:63-64 | success/total lies in [0,1] and is 1 iff the error count is 0 |
| Metrics.PerformanceMetrics.constructor | app/main.py:43-46 | empty window, zero counters |
| Metrics.PerformanceMetrics.RecordRequest | app/main.py:48-56 | the window becomes `Window(old, duration)`; exactly one counter grows by one |
| Metrics.PerformanceMetrics.GetMetrics | app/main.py:58-71 | the sum loop computes `MetricsOf` of the current state |
| Gemini.NewClient | app/gemini_client.py:9-18 | construction succeeds iff a non-empty key is given |
| Gemini.Backoff | app/gemini_client.py:50-51 | the k-th delay is 2*(k+1) |
| Gemini.ResponseFrom | app/gemini_client.py:20-54 | from attempt k on: the failure text when every remaining attempt fails; the attempt's reply when it does not fail |
| Gemini.Response | app/gemini_client.py:20-54 | the failure text iff all three attempts fail; otherwise the reply of the first attempt that does not fail |
| Gemini.GenerateResponse | app/gemini_client.py:20-54 | 1 to 3 calls; every call before the last failed; the last one succeeded unless all 3 failed; the text is that outcome's reply (safety text, no-parts text or the model's text) or the failure text; the recorded sleeps are 2, 4, ... one fewer than the calls |
| Api.SourceLineShape | app/main.py:236-242 | "Source i+1" starts the line; an empty meta gives exactly that; otherwise ": title-or-Unknown title" follows, and " by authors" ends the line iff authors is non-empty |
| Api.SourceLineNumbered | app/main.py:237-242 | the number parsed back from each line is i+1 |
| Api.Sources | app/main.py:233-243 | one line per metadata, line i starting with "Source i+1" |
| Api.FormatSources | app/main.py:233-243 | the loop computes `Sources`: one line per metadata |
| Api.SourcesNumberedInOrder | app/main.py:233-243 | one line per metadata, numbered 1, 2, ... in order, pairwise distinct |
| Api.ContextEntryShape | app/main.py:227-230 | an entry starts "[Source i+1]", continues with " title" when meta is non-empty with a title, and ends with a newline and the document |
| Api.ContextEntries | app/main.py:224-231 | as many entries as the shorter of documents and metadatas |
| Api.FormatContext | app/main.py:224-231 | the loop computes the blank-line join of the entries, paired up to the shorter list |
| Api.WithHistory | app/main.py:138-143 | no history leaves the context as it is; otherwise the result starts with the previous-conversation header and is longer than the context |
| Api.WithHistorySpec | app/main.py:139-143 | the context is unchanged iff the history is empty; otherwise it starts with the previous-conversation header and ends with the current-context header and the context |
| Api.PromptShowsLastTurnsInOrder | app/main.py:138-143 | after any sequence of stores, the context with history is the context itself when nothing was stored, and otherwise the previous-conversation header, the last min(n, 3) turns oldest first joined by newlines, the current-context header and the context |
| Api.Prompt | app/prompts.py:1-17 | the template's introduction, then the context, then the instructions; it ends with the question and the closing "ANSWER:" line |
| Api.Answered | app/main.py:96-171 | fails iff retrieval failed or found documents in the nested shape; a success reports the strategy's value and, when documents were found, has them as its context and one source per metadata |
| Api.AnsweredSpec | app/main.py:113-171 | fails iff retrieval failed or found documents in the nested shape; reports the strategy's value; with no documents, the canned answer with empty sources and context; otherwise the context is the documents, the sources are `Sources(metadatas)` numbered in order, and the answer is the model's response to the prompt holding the last 3 turns, the formatted context and the question |
| Api.HybridNeverAnswers | app/main.py:133-160 | a hybrid query ends in the error path or in the canned no-documents answer, never with a model answer |
| Api.AnswerFromDocuments | app/main.py:133-152 | the answer is the model's response to the template filled with the history block of the last 3 turns and the formatted context; the sources are `Sources(metadatas)` |
| Api.QueryDocuments | app/main.py:98-171 | the response is `Answered(...)` of the dispatched strategy; on success the turn is stored and metrics are untouched; on failure history is untouched and one error is recorded; the cache is never touched |
| Loader.DocumentText | scripts/load_arxiv_data.py:81-89 | starts with "Title: title\n" and ends with "Abstract: abstract" |
| Loader.CreateDocumentText | scripts/load_arxiv_data.py:73-91 | the same for the stripped fields of a paper, a missing field read as "" |
| Loader.DocumentLines | scripts/load_arxiv_data.py:81-89 | 2 to 4 lines: title first, abstract last, the authors line iff authors is non-empty, the categories line iff categories is non-empty |
| Loader.DocumentTextIsLines | scripts/load_arxiv_data.py:81-89 | the text is exactly those lines joined by newlines, authors before categories |
| Loader.PaperId | scripts/load_arxiv_data.py:47 | the paper's id when it has one; otherwise "unknown_" followed by decimal digits that read back as the position i |
| Loader.PaperMetadata | scripts/load_arxiv_data.py:46-52 | five keys; year is "2020"; paper_id is the paper's id or "unknown_i" |
| Loader.DocumentId | scripts/load_arxiv_data.py:53 | every id is "arxiv_" followed by the paper's id, or, for a paper without one, by decimal digits that read back as its position i |
| Loader.DefaultIdsDistinct | scripts/load_arxiv_data.py:46-53 | papers without an id at different positions get distinct paper ids and distinct document ids |
| Loader.SendBatch | scripts/load_arxiv_data.py:56-64 | sending a batch of 1..100 equal-length lists keeps every batch well sized and extends the concatenations by it |
| Loader.PendingGrows | scripts/load_arxiv_data.py:41-53 | appending paper i keeps "sent plus pending is the first i+1 papers' columns" |
| Loader.PendingSent | scripts/load_arxiv_data.py:56-60 | flushing the pending lists preserves that invariant with empty pending lists |
| Loader.AddInBatches | scripts/load_arxiv_data.py:41-64 | every batch holds 1 to 100 documents with equal-length metadatas and ids; the concatenated batches are the per-paper documents, metadatas and ids in input order |
| Loader.ProcessArxivData | scripts/load_arxiv_data.py:16-71 | an existing database succeeds with nothing sent; a missing or unreadable file fails with nothing sent; otherwise the first 3000 papers are sent in order in well-sized batches |

## Left out

- Redis mode of `ConversationMemory`: it is a network store. It also returns history in reversed order. The module-level instance never gets a URL.
- ChromaDB: the store is an abstract search function. Its ranking, embeddings and filter semantics are not modelled, nor is `add_documents` failing.
- `_keyword_search`'s filter and its exception path: the filter is passed as an opaque value. A raising search is not distinguished from a store that returns the empty error shape.
- Floating point: averages, rounding, `processing_time`, temperature, the unused `alpha` and embedding contents are opaque or left out. Durations are `real`.
- Metrics.MetricsSpec: does not model `round(..., 2)` of the rate and the average.
- `datetime.now()` and ISO timestamps are an integer `now` argument.
- Unicode: `lower()`, `split()` and `strip()` are modelled on ASCII letters and ASCII white space only.
- Sorting: Python's in-place Timsort is modelled as a stable insertion sort on a sequence, which computes the same result.
- The Gemini SDK call, generation config and safety settings: each attempt is an abstract `Outcome`, and sleeps are recorded, not performed.
- Exception classes: `ValueError` and `IndexError` become `Err` values, and the exception text is not modelled.
- The prompt that reaches the model is modelled on the system template of app/prompts.py. `NO_CONTEXT_PROMPT` is unused by the code.
- HTTP plumbing:
  - FastAPI routing, request validation and rate limiting;
  - CORS and logging;
  - the timing middleware, which records each request's duration and status. For a successful `/query` its entry is the only one; for a failed one it is a second entry beside the error entry that `query_documents` records itself;
  - `/query/strategy`, which drops its strategy field and always runs the default strategy;
  - the other endpoints.
- The model call on the nested hybrid path: the code calls the model before `format_sources` raises, or before `QueryResponse` rejects the nested context when the merged metadatas are `[]`. The model does not call it on that path, since the call's answer is discarded.
- Api.QueryDocuments: takes the strategy as a `Strategy` value. Request validation in app/models.py:14 admits only the four names, and main.py:110-111 converts the validated name to the retrieval enum, so no unknown name reaches it. Request validation of `question` and `top_k` is not modelled, so the method accepts any values.
- File-system checks and JSON loading in scripts/load_arxiv_data.py are booleans and an `Option` of the parsed papers.
- Loader.ProcessArxivData: every paper field is a string or missing. A JSON `null` or number in `title`, `abstract` or `authors` makes `.strip()` raise inside the loop, after earlier batches were already sent, and the script then returns False; that path is not modelled.
- Memory.ConversationMemory.CacheEmbedding: time is an unbounded integer, so `datetime.now() + timedelta(seconds=ttl)` never overflows. In the code an overflowing ttl raises, the exception is logged and swallowed, and nothing is cached; that path is not modelled.
- The Streamlit frontend, the tests, benchmarks and evaluators.
