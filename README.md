# Medical RAG engine: decision and formatting model

This project models the core of `MedicalRAGEngine` (`rag_engine.py`) in Dafny. That core is a retrieval-augmented question-answering engine for medical literature.

- It holds a Chroma vector store handle, which may be absent.
- `add_document` splits an uploaded PDF into chunks. It tags each chunk with its source file name, its position and a fixed document type, then appends the batch to the store.
- `query` first asks a topic gate whether the question is medical. A question the gate refuses gets a fixed "Out of Context" message. When there is no store, the store is empty, or retrieval finds nothing, `_query_without_context` answers from general knowledge. It repeats the gate call and appends a fixed "No medical literature loaded" note. Otherwise the retrieved contexts are put into a grounded prompt, and the generated answer is followed by a "Document Sources" summary.
- Failures come back as strings with fixed prefixes.
- `get_database_stats` and `clear_database` report on or reset the store.

Everything the engine hands to other code is an oracle:

- the Gemini model and its embeddings;
- Chroma's search, count and persistence;
- the `RetrievalQA` chain;
- the PDF loader and the text splitter;
- the temporary file.

The outcome of each such call is given as a value. `Ok` is its result and `Err` carries the text of the exception it raised. `QueryOracle` has one field per call site of `query`, so the two classification calls on the fallback path can disagree. `IngestIO` has one field per step of `add_document`.

Modules:

- `Wrappers`: `Option`, `Result`, `Outcome`.
- `Text`: Python's `str.lower()` (ASCII), the `in` substring test with a reference definition, `str.join`, `str(int)`.
- `Documents`: documents, metadata values, search hits and the per-query context records. It also holds the `.get(key, 'Unknown')` defaults and the chunk-tagging loop.
- `TopicGate`: `_is_medical_question`.
- `Sources`: the deduplicated source summary and the loop with its `seen_sources` set.
- `Answers`: the answer of `_query_without_context` (`QueryWithoutContext`) and the branch chain of `query` (`QueryOutcome`). Both are given as functions on an oracle and the store's contents. Each result carries the answer string and the sequence of external calls reached (`Step`), so the properties can say which calls were not made.
- `Ingest`: the result record of `add_document`.
- `RagEngine`: the classes `VectorStore` (a sequence of entries) and `MedicalRAGEngine` (the nullable `vectorstore` field). It holds the imperative operations. `AddDocument`, `ExtractRelevantContexts` and `Query` are proved equal to the functions above (`IngestResultOf` with `TagAll`, `ToContexts`, `QueryOutcome`). `GetDatabaseStats`, `ClearDatabase`, `InitializeVectorstore` and the constructors state their results and new state directly in their postconditions.

Fixed strings follow the code points in `rag_engine.py` exactly. The warning sign at the head of the two fixed messages is written there as U+00E2 U+0161 U+00A0 U+00EF U+00B8. The books emoji of the sources header is written as U+00F0 U+0178 U+201C U+0161. These are the UTF-8 bytes of the emojis read as Windows-1252, with the warning sign's final byte 0x8F lost because Windows-1252 gives it no character. The model keeps them as written.

Three behaviours of the code are worth naming, because a reader might expect otherwise:

- Ingestion is not atomic. A failure of `persist()` or of the temporary-file removal, after `add_documents`, returns an error result although the batch has been stored (`FailureAfterCommit`, `AddDocument`).
- The fallback path consults the classifier a second time. It can refuse a question the first call admitted (`SecondGateCanRefuse`).
- A classifier reply passes whenever it contains `true` anywhere, case-insensitively. So `"untrue"` passes (`GateExamples`).

## Model

| member | source | states |
|---|---|---|
| Text.Lower | rag_engine.py:190 | `str.lower()` on ASCII keeps the length of the text and leaves no capital letter |
| Text.Contains | rag_engine.py:190 | Python's `in` on strings; a match needs the pattern to fit in the text (its full meaning is `ContainsIsInfix`) |
| Text.ContainsIsInfix | rag_engine.py:190 | the `in` test used by the gate holds exactly when the pattern occurs at some position of the text (both directions) |
| Text.JoinKeepsPart | rag_engine.py:267-268 | every part of a `"\n\n".join` occurs contiguously in the joined text |
| TopicGate.IsMedicalQuestion | rag_engine.py:182-192 | a failed classification call gives true (fail-open); a reply gives true exactly when `true` occurs in the lower-cased reply |
| TopicGate.GateIsCaseInsensitive | rag_engine.py:189-190 | a reply passes exactly when some four consecutive characters spell `true` in any mix of case |
| TopicGate.GateExamples | rag_engine.py:184-192 | `True` and `TRUE` pass, `false` is refused, `untrue` passes, a failed call passes |
| Documents.ToContext | rag_engine.py:240-246 | a context keeps the chunk text and score; a missing `source`, `page` or `chunk_id` becomes `'Unknown'` |
| Documents.ToContexts | rag_engine.py:238-248 | one context per search result, in the same order |
| Documents.TagChunk | rag_engine.py:146-150 | a tagged chunk has the file name as source, its position as chunk_id and `medical_literature` as doc_type; its text and other metadata keys are untouched |
| Documents.TagAll | rag_engine.py:145-150 | after tagging, the chunk at position i has chunk_id i, the file name as source and the fixed doc_type, with text and other keys unchanged |
| Documents.TagChunks | rag_engine.py:145-150 | the in-place tagging loop leaves the chunk list equal to the tagged list of the original chunks |
| Sources.SourceSet | rag_engine.py:311-317 | the seen-sources set holds the source of every context scanned |
| Sources.FirstIndexOf | rag_engine.py:312-317 | gives the first position carrying a source: that context has the source and no earlier one does |
| Sources.FirstPerSourceCoversSources | rag_engine.py:310-317 | the summary names every source of the contexts and no other |
| Sources.FirstPerSourceDistinct | rag_engine.py:310-317 | no source is reported twice |
| Sources.FirstPerSourceIsFirst | rag_engine.py:310-317 | each reported context is the first one with its source |
| Sources.FirstPerSourceOrdered | rag_engine.py:310-317 | reports follow the order in which the sources first appear |
| Sources.FirstPerSourceCount | rag_engine.py:310-317 | the summary has exactly as many lines as there are distinct sources |
| Sources.SourceLine | rag_engine.py:313-316 | the `- {source} (Relevance: {relevance}%)` line of one reported context is never empty |
| Sources.SummaryLines | rag_engine.py:310-317 | the lines of the reported contexts; there is text exactly when some context is reported |
| Sources.SourceSummary | rag_engine.py:310-317 | the summary always starts with the `Document Sources` header |
| Sources.SummaryStep | rag_engine.py:311-317 | one loop iteration adds the source to the seen set, and adds the context's line exactly when its source is new |
| Sources.BuildSourceSummary | rag_engine.py:310-317 | the summary loop with its seen set yields the header followed by one line per first-seen source |
| Sources.FirstPerSource | rag_engine.py:310-317 | the contexts the summary loop reports, one per new source; never more than the contexts scanned (its meaning is proved by the four `FirstPerSource…` lemmas) |
| Answers.QueryWithoutContext | rag_engine.py:194-226 | the fallback classifies first and makes at most one further call, a fallback generation for the question (answers: `FallbackFormat`) |
| Answers.QueryOutcome | rag_engine.py:250-322 | every branch of `query` starts with the classification of the question (branch results: the `Answers` lemmas below) |
| Answers.ContextBlock | rag_engine.py:267 | the block of a context contains its source and its content |
| Answers.ContextText | rag_engine.py:267-268 | the joined context text is empty with no contexts and is the single block with one context |
| Answers.ContextTextHasEveryContext | rag_engine.py:267-268 | the context text of the grounded prompt contains the block of every retrieved context |
| Answers.FallbackFormat | rag_engine.py:194-226 | fallback: refusal when the repeated gate says no; else the generated content followed by the fixed note; a generation failure gives `Error generating response: ` and the message |
| Answers.OutOfDomainShortCircuit | rag_engine.py:252-256 | a refused question returns the fixed Out of Context message and makes no count, search or generation call |
| Answers.FallbackWhenStoreEmpty | rag_engine.py:258-259 | with no store or an empty one the answer is the fallback's, and no search or grounded generation happens |
| Answers.FallbackWhenNothingRetrieved | rag_engine.py:261-264 | a search returning nothing gives the fallback's answer and no grounded generation |
| Answers.SecondGateCanRefuse | rag_engine.py:199-203 | the fallback's own classification may refuse a question the first call admitted |
| Answers.GroundedAnswer | rag_engine.py:306-319 | the grounded answer is the chain's response, the sources header and one line per distinct source, each the first context with that source, in first-seen order |
| Answers.GroundedPromptHoldsEveryContext | rag_engine.py:266-307 | the grounded path classifies, counts, searches and makes one grounded request whose context text holds every search result |
| Answers.QueryErrorsArePrefixed | rag_engine.py:321-322 | a failing count, search or chain gives `Error processing query: ` followed by the exception text |
| Answers.QueryCallBudget | rag_engine.py:250-322 | every query classifies first, classifies at most twice and requests at most one generation |
| Answers.FallbackCallBudget | rag_engine.py:194-226 | the fallback classifies once, first, and generates at most once |
| Ingest.IngestResultOf | rag_engine.py:121-180 | success exactly when no step raised, with chunks_created the number of chunks and total_pages the number of pages; any failure gives an error with the file name, or `'unknown'` without a file; a failing temporary-file creation reports its own error, and only when it succeeds does a missing file give the `'NoneType'` error |
| Ingest.FailureBeforeCommit | rag_engine.py:133-180 | with the temporary file created and a file given, a failing save, PDF load, split or store write is reported with that step's exception text, the first failing step winning |
| Ingest.FailureAfterCommit | rag_engine.py:160-180 | a failure after the store write reports an error with that exception's text |
| RagEngine.VectorStore.AddDocuments | rag_engine.py:160 | adding appends the batch to the entries |
| RagEngine.VectorStore.DeleteCollection | rag_engine.py:348 | deleting the collection empties it |
| RagEngine.MedicalRAGEngine.constructor | rag_engine.py:62-64 | a new engine holds a store opened on the persisted content |
| RagEngine.MedicalRAGEngine.InitializeVectorstore | rag_engine.py:69-85 | reopening the store gives a fresh store with the persisted content; a failure re-raises with `Failed to initialize vector store: ` and keeps the field |
| RagEngine.MedicalRAGEngine.AddDocument | rag_engine.py:121-180 | returns the result record of `IngestResultOf` (temporary-file creation checked before the file is read); when the store write succeeds the tagged chunks are appended (to a new store when there was none), else the store is unchanged |
| RagEngine.MedicalRAGEngine.ExtractRelevantContexts | rag_engine.py:228-248 | no store gives `[]`; otherwise one context per result in order, and a failing search propagates |
| RagEngine.MedicalRAGEngine.Query | rag_engine.py:250-322 | the answer and the calls made are those of the branch chain `QueryOutcome` on the current store contents |
| RagEngine.MedicalRAGEngine.GetDatabaseStats | rag_engine.py:324-342 | `not_initialized` without a store, else `initialized` with the entry count and persist directory, or the count's error |
| RagEngine.MedicalRAGEngine.ClearDatabase | rag_engine.py:344-352 | without a store nothing changes and success is reported; otherwise the store is emptied and reopened, and a delete or reopen failure is reported as an error |

## Left out

- The Gemini model, its embeddings, the `RetrievalQA` chain and Chroma's internals are foreign services. Each call's outcome is an oracle value. The chain's own retrieval is part of the one grounded `Generate` step.
- Prompt template texts are not modelled. A prompt is represented by the question, the context text and `k`.
- `RecursiveCharacterTextSplitter` and `PyPDFLoader` are library code. Their page and chunk sequences are inputs, and no chunk size or overlap is claimed.
- The temporary file, `persist()` and `os.unlink` are I/O. They appear only as steps that may raise.
- A failing `add_documents` is taken to leave the store unchanged. Whether Chroma keeps part of a failed batch is not visible in this code.
- `Chroma.from_documents` (no store yet) is modelled as a store holding only the new batch. Earlier content of the persist directory is not modelled.
- The search results are taken as given. They are not constrained to be store entries, to number at most `k`, or to be sorted by distance.
- `round((1 - score) * 100, 2)` is floating point. The model computes `(1 - score) * 100` as a real, and the rounding and printing are an opaque `render` parameter. Scores are reals, not floats.
- `str.lower()` is modelled on ASCII letters only. No other character lower-cases to a letter of `true`, so the gate's verdict is unaffected.
- The case where `__init__` fails in `_initialize_vectorstore` is not modelled. Python raises there and no engine exists. The two branches of `os.path.exists` in `_initialize_vectorstore` do the same thing, so they are modelled as one.
- Sources.SourceLine: the contract states only that the line is non-empty. The text of the line is its definition, and the summary's content is stated by `GroundedAnswer` and `BuildSourceSummary`.
- The file-truthiness test `file.name if file else 'unknown'` is modelled only for a missing file (`None`).
- `app.py` is not part of this model. It is the Streamlit user interface and its session state.
- Concurrent use of one engine is not modelled.
