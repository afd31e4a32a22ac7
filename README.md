# Policy chatbot core, modelled in Dafny

The policy chatbot is a Django service that answers questions about an
organization's uploaded policy documents with retrieval-augmented generation.
This project models the parts of it that hold logic:

- **Ingestion.** A PDF upload is validated for size and type, then its text
  is extracted page by page. The text is cut into chunks, either by an
  external splitter with offset bookkeeping or by a fixed-window fallback,
  and each chunk is embedded. The chunk rows replace the document's old
  rows and the document moves through PENDING, PROCESSING, then COMPLETED
  or FAILED. Two pipelines do this: the background task and the
  `DocumentProcessor` service. A management command backfills missing
  embeddings. A seeding script has its own greedy sentence packer.
- **Embeddings.** The remote providers send batches of at most 2048 texts
  (blank ones replaced by `"empty"`). They put each returned vector into a
  preallocated slot list by batch-local index. A provider instance is cached
  under the configured provider name, and backend failures become
  `EmbeddingError`.
- **Retrieval.** A similarity query returns the organization's chunks that
  have an embedding, belong to an active document and reach the similarity
  threshold. Rows come closest first, at most `limit` of them.
- **Answering.** The question is sanitised and the search results are
  rendered as numbered context blocks, cut to a character budget at a
  punctuation mark. The answer comes from a history-aware chain, or else
  from a prompt sent to the model, with the conversation written to an
  in-memory, bounded, lazily expiring chat store. A failure gives a fixed
  apology.
- **Access.** An API-key middleware attaches the organization that owns an
  active key and answers 401 to an unknown key. Admin, schema and health
  paths are exempt. New organizations get a slug derived from their name
  and a `pk_`-prefixed key.

Each core source file is one Dafny module:

- `chat_history.dfy` (`ChatHistory`)
- `providers.dfy` (`Providers`)
- `text_chunker.dfy` (`TextChunker`)
- `sentence_chunker.dfy` (`SentenceChunker`)
- `embeddings.dfy` (`Embeddings`)
- `search.dfy` (`Search`)
- `pdf_extractor.dfy` (`PdfExtractor`)
- `document_processor.dfy` (`DocumentProcessing`)
- `tasks.dfy` (`Tasks`)
- `generate_embeddings.dfy` (`EmbeddingBackfill`)
- `middleware.dfy` (`ApiKeyAuth`)
- `upload_validation.dfy` (`UploadValidation`)
- `managers.dfy` (`OrganizationManager`)

Two modules are shared. `documents.dfy` (`Documents`) holds the document and
its chunk rows. `text.dfy` (`Text`) holds the Python string operations the
code relies on: `strip`, `find`, `rfind`, `split`, `join`, `lower`, slicing
and `str(n)`.

State the source updates in place is held in classes with `modifies`
clauses:

- the chat histories and the chat store;
- the chatbot's record of collaborator calls;
- the provider cache;
- the document;
- the middleware's request.

Loops become methods with invariants, and each is proved equal to a
specification function. The properties the code promises are stated about
those functions as lemmas.

Collaborators the code calls but does not define are parameters. These are:

- the LangChain splitter and chain;
- the chat model;
- the embeddings endpoint and the local model;
- the PDF parser;
- pgvector's cosine distance;
- the Celery dispatch;
- the ORM tables, as in-memory sequences and maps;
- the clock, as an integer number of seconds;
- the random token.

## Model

| member | source | states |
|---|---|---|
| ChatHistory.Appended | backend/apps/chatbot/services/chat_history.py:35-36 | appending under the cap: `messages[-max:]` after the append, the whole list when `max` is 0 (properties in AppendedKeepsNewest and AppendedZeroCapKeepsAll) |
| ChatHistory.LastN | backend/apps/chatbot/services/chat_history.py:36 | `s[-n:]` for a positive `n`: the last `min(n, len)` elements, as a suffix of `s` |
| ChatHistory.AppendedKeepsNewest | backend/apps/chatbot/services/chat_history.py:25-36 | with a positive cap, the list after appending is the newest `max` messages of old list plus new one, in order, at most `max` long, ending with the new message |
| ChatHistory.AppendedZeroCapKeepsAll | backend/apps/chatbot/services/chat_history.py:35-36 | with a cap of 0 the `[-0:]` slice keeps everything, so nothing is dropped |
| ChatHistory.History.constructor | backend/apps/chatbot/services/chat_history.py:18-23 | a new history is empty, created and active at `now`, with the given id and cap |
| ChatHistory.History.AddMessage | backend/apps/chatbot/services/chat_history.py:25-36 | the new message is last, `lastActivity` is `now`, the list is the capped append and stays within a non-zero cap |
| ChatHistory.History.GetRecentMessages | backend/apps/chatbot/services/chat_history.py:38-40 | the last `min(count, len)` messages for a positive count, all messages otherwise |
| ChatHistory.History.Clear | backend/apps/chatbot/services/chat_history.py:42-44 | the list is emptied and the activity time is left as it was |
| ChatHistory.MessageTotalRemove | backend/apps/chatbot/services/chat_history.py:116 | the message total does not depend on the order the sessions are summed in |
| ChatHistory.MessageTotalBound | backend/apps/chatbot/services/chat_history.py:114-122 | with every session within its cap, the total is at most sessions × cap |
| ChatHistory.History.IsExpired | backend/apps/chatbot/services/chat_history.py:46-48 | strictly more than `max_age_hours` × 3600 seconds since the last activity; CleanupExpired removes exactly the sessions for which it holds |
| ChatHistory.Store.constructor | backend/apps/chatbot/services/chat_history.py:54-58 | a new store is empty with the given limits and `lastCleanup == now` |
| ChatHistory.Store.CleanupDue | backend/apps/chatbot/services/chat_history.py:91-95 | a cleanup pass runs once at least the interval (in minutes) has passed since the last one; CleanupExpired changes nothing otherwise |
| ChatHistory.Store.ExpiredKeys | backend/apps/chatbot/services/chat_history.py:97-100 | the listed keys are exactly the expired sessions, each once |
| ChatHistory.Store.Delete | backend/apps/chatbot/services/chat_history.py:102-103 | `del sessions[k]` removes that key only and keeps the table cap |
| ChatHistory.Store.DeleteAll | backend/apps/chatbot/services/chat_history.py:102-103 | deleting a list of distinct keys removes exactly those keys |
| ChatHistory.Store.CleanupExpired | backend/apps/chatbot/services/chat_history.py:89-108 | when the interval has passed, exactly the sessions idle for strictly more than the age are removed and `lastCleanup` becomes `now`; otherwise nothing changes |
| ChatHistory.Store.OldestSession | backend/apps/chatbot/services/chat_history.py:69-72 | the key picked has the least `lastActivity` of the table |
| ChatHistory.Store.CreateSession | backend/apps/chatbot/services/chat_history.py:76 | a fresh empty history with the default cap is inserted under the id, nothing else changes |
| ChatHistory.Store.FindOrCreate | backend/apps/chatbot/services/chat_history.py:65-79 | a present id is returned unchanged; an absent one is created after evicting exactly one least-active session when the table is full; the table stays within its cap |
| ChatHistory.Store.GetSessionHistory | backend/apps/chatbot/services/chat_history.py:60-79 | cleanup first, then the lookup-or-create on the cleaned table; the returned history is the one stored under the id and the cap holds |
| ChatHistory.Store.ClearSession | backend/apps/chatbot/services/chat_history.py:81-87 | returns whether the id was present; afterwards it is absent and every other session is unchanged |
| ChatHistory.Store.GetSessionCount | backend/apps/chatbot/services/chat_history.py:110-112 | the number of sessions |
| ChatHistory.Store.GetStats | backend/apps/chatbot/services/chat_history.py:114-122 | active sessions is the table size, total messages the sum of all list lengths, plus the cap and last cleanup time |
| Providers.StripControl | backend/apps/chatbot/services/providers.py:70 | no character of the control class remains, nothing is added, and clean text is unchanged |
| Providers.EscapeChar | backend/apps/chatbot/services/providers.py:76 | the escape of one character holds no `<` or `>` and leaves other characters as they are |
| Providers.EscapeHtml | backend/apps/chatbot/services/providers.py:76 | escaped text holds no `<` or `>`, keeps control-freedom, and is unchanged when nothing needs escaping |
| Providers.SanitizeInput | backend/apps/chatbot/services/providers.py:73-77 | the result is at most `max_length` long and holds no control character and no `<` or `>` |
| Providers.SanitizeInputKeepsClean | backend/apps/chatbot/services/providers.py:73-77 | a short question with no control, markup or surrounding whitespace is returned unchanged |
| Providers.SanitizeInputEscapesBeforeCut | backend/apps/chatbot/services/providers.py:75-77 | escaping happens before the cut: `"<"` with a budget of 2 gives `"&l"` |
| Providers.FindCI | backend/apps/chatbot/services/providers.py:83 | the first case-insensitive match at or after `from`, or -1 when there is none |
| Providers.ScriptElementEnd | backend/apps/chatbot/services/providers.py:83 | a script element starting at `i` ends strictly after `i` and within the text |
| Providers.RemoveScripts | backend/apps/chatbot/services/providers.py:83 | removing script elements never lengthens the text and keeps it control-free |
| Providers.SanitizeOutput | backend/apps/chatbot/services/providers.py:80-84 | the answer is at most `max_length` long and holds no control character |
| Providers.RemoveScriptsKeepsPlain | backend/apps/chatbot/services/providers.py:83 | text without an opening script tag passes through unchanged |
| Providers.ScriptElementEndExample | backend/apps/chatbot/services/providers.py:83 | an upper-case `<SCRIPT>` element is matched up to its closing tag |
| Providers.SanitizeOutputDropsScript | backend/apps/chatbot/services/providers.py:80-84 | an answer that is one script element sanitises to the empty string |
| Providers.Block | backend/apps/chatbot/services/providers.py:224-228 | one rendered result: source number, title or "Unknown Document", score and content (shape stated by BlockShape) |
| Providers.Blocks | backend/apps/chatbot/services/providers.py:224-228 | one context block per search result |
| Providers.BlockShape | backend/apps/chatbot/services/providers.py:224-228 | block `i` opens with `[Source i+1 - <title or "Unknown Document"> (relevance: ` and ends with `)]:\n<content>` |
| Providers.FormatContext | backend/apps/chatbot/services/providers.py:219-229 | the blocks joined by blank lines; the "no relevant documents" sentence exactly when there are no results |
| Providers.NoDocumentsDiffers | backend/apps/chatbot/services/providers.py:220-229 | rendered results never read as the "no documents" sentence |
| Providers.CutAt | backend/apps/chatbot/services/providers.py:238-242 | the cut ends just after a listed mark lying past 70% of the budget, or is the text plus `...` (which cut is stated by CutAtFirstQualifying) |
| Providers.CutsAt | backend/apps/chatbot/services/providers.py:239-240 | a mark qualifies when its last occurrence lies past 70% of the budget |
| Providers.CutAtFirstQualifying | backend/apps/chatbot/services/providers.py:238-242 | for any list of marks: the text plus `...` exactly when no mark qualifies; otherwise the text up to and including the LAST occurrence of the FIRST mark in the list that qualifies |
| Providers.CutAtStep | backend/apps/chatbot/services/providers.py:238-242 | one step of the loop: the first mark cuts when it qualifies, otherwise the remaining marks are tried; none left gives the ellipsis |
| Providers.CutAtMarks | backend/apps/chatbot/services/providers.py:238-242 | with the marks `.`, `!`, `?`: the cut after the last `.` if it qualifies, else after the last `!`, else after the last `?`, else the text plus `...`, which happens exactly when none qualifies |
| Providers.TruncateContext | backend/apps/chatbot/services/providers.py:232-242 | a context within the budget (or a 0 budget) is unchanged; a longer one is cut to at most `max_chars`, at a `.`, `!` or `?` past 70% of the budget, or to `max_chars - 3` characters plus `...` |
| Providers.TruncateContextCascade | backend/apps/chatbot/services/providers.py:232-242 | a context over a non-zero budget is cut from `context[:max_chars-3]` by that cascade: `.` then `!` then `?` at their last occurrence past 70% of the budget, the ellipsis exactly when none qualifies |
| Providers.TruncatePrefersPeriod | backend/apps/chatbot/services/providers.py:238-241 | the marks are tried in fixed order: a late enough `.` wins over a nearer `!` |
| Providers.TruncateEllipsis | backend/apps/chatbot/services/providers.py:242 | with no mark past the 70% point the cut text ends in `...` |
| Providers.HistoryLines | backend/apps/chatbot/services/providers.py:313-317 | one line per stored message, oldest first |
| Providers.HistoryLineSafe | backend/apps/chatbot/services/providers.py:314-317 | a history line is a role label then a sanitised body of at most 500 characters, without control or markup characters |
| Providers.SimplePrompt | backend/apps/chatbot/services/providers.py:298-304 | `_build_simple_prompt`: rules and context, the question heading, then the tagged question and the answer cue (frame stated by SimplePromptShape) |
| Providers.HistoryPrompt | backend/apps/chatbot/services/providers.py:322-327 | the prompt around a conversation block, under the "Current Question" heading (frame stated by HistoryPromptShape) |
| Providers.ManualPrompt | backend/apps/chatbot/services/providers.py:306-330 | the history prompt with the recent messages' block, or the simple prompt when reading them raised (frame stated by ManualPromptShape) |
| Providers.SimplePromptShape | backend/apps/chatbot/services/providers.py:298-304 | the simple prompt opens with the rules and the context and closes with the tagged question and the answer cue |
| Providers.HistoryPromptShape | backend/apps/chatbot/services/providers.py:322-327 | the history prompt has the same opening and closing, whatever conversation block it carries |
| Providers.ManualPromptShape | backend/apps/chatbot/services/providers.py:306-330 | so does the prompt built with manual history, including its fallback to the simple prompt |
| Providers.ConversationLines | backend/apps/chatbot/services/providers.py:313-317 | the line loop builds exactly the history lines |
| Providers.BuildPromptWithManualHistory | backend/apps/chatbot/services/providers.py:306-330 | the prompt with the recent messages' block, or the simple prompt when fetching them fails |
| Providers.NewLLMProvider | backend/apps/chatbot/services/providers.py:122-163 | the requested type, else the configured one, must be "openai" or "ollama" (ValueError otherwise); the model falls back to the setting; construction succeeds exactly when the chosen backend is available (and, for OpenAI, has a key) |
| Providers.ErrorResponse | backend/apps/chatbot/services/providers.py:353-363 | `_error_response`: the message as answer, no sources, no provider or model, history and LangChain reported unused; ModelResponse shows no success response equals the apology |
| Providers.Chatbot.constructor | backend/apps/chatbot/services/providers.py:185-214 | the chain exists exactly when history is enabled, LangChain is available and the chain builds; no call has been made yet |
| Providers.Chatbot.SuccessResponse | backend/apps/chatbot/services/providers.py:334-351 | the answer is sanitised output: at most 10000 characters and control-free |
| Providers.Chatbot.Question | backend/apps/chatbot/services/providers.py:253 | the question is sanitised input: at most 2000 characters and control-free |
| Providers.Chatbot.Context | backend/apps/chatbot/services/providers.py:259-260 | the rendered context, cut to the configured budget |
| Providers.Chatbot.ModelEffects | backend/apps/chatbot/services/providers.py:281-285 | the model is called once with the prompt; when it answers and the session has history enabled the user message is written, and the AI message after it unless the user write raised |
| Providers.Chatbot.WriteExchange | backend/apps/chatbot/services/providers.py:283-285 | `add_user_message` then `add_ai_message`, stopping at the first that raises; reports whether either raised |
| Providers.Chatbot.ModelResponse | backend/apps/chatbot/services/providers.py:281-294 | the apology response exactly when the model or a history write raised (all inside the same `try`); otherwise a success response naming the provider, with history reported as used only when it was written |
| Providers.Chatbot.ChoosePrompt | backend/apps/chatbot/services/providers.py:276-279 | the manual-history prompt with a session id, the simple prompt without |
| Providers.Chatbot.AnswerFromModel | backend/apps/chatbot/services/providers.py:276-294 | the calls made are the model call and the history writes up to the first that raised, and the response is the model response |
| Providers.Chatbot.GenerateAnswer | backend/apps/chatbot/services/providers.py:246-294 | an empty sanitised question gives the error response with no call; an answering chain gives its answer with no manual history write; otherwise the prompt goes to the model exactly once, after the chain was tried if it applies, and a raised model call or history write gives the apology; the answer is always within 10000 characters |
| TextChunker.OrDefault | backend/apps/documents/services/text_chunker.py:42-43 | `x or default`: a missing or zero argument takes the setting |
| TextChunker.PlaceAt | backend/apps/documents/services/text_chunker.py:66-68 | the start position is never before the cursor |
| TextChunker.PlaceAtSpec | backend/apps/documents/services/text_chunker.py:66-68 | the piece starts at its first occurrence from the cursor on, or at the cursor when it does not occur |
| TextChunker.LocatedAgree | backend/apps/documents/services/text_chunker.py:64-80 | two located prefixes agree on every common position |
| TextChunker.LocatedUnique | backend/apps/documents/services/text_chunker.py:64-80 | the located chunk list is determined by the text, the pieces and the overlap |
| TextChunker.LocatePositions | backend/apps/documents/services/text_chunker.py:64-80 | chunk `j` has index `j`, the stripped piece as content, `end = start + len(piece)`, a start at or after the cursor `max(0, previous end − overlap)`, and the piece at its start when found |
| TextChunker.KeepNonBlank | backend/apps/documents/services/text_chunker.py:83 | exactly the chunks with non-blank content are kept, in order |
| TextChunker.LocateChunks | backend/apps/documents/services/text_chunker.py:61-80 | the offset loop produces the located chunk list |
| TextChunker.Window | backend/apps/documents/services/text_chunker.py:104 | `text[i:i+size]`: a slice of at most `size` characters starting at `i` |
| TextChunker.WindowsSkip | backend/apps/documents/services/text_chunker.py:105 | a blank window adds no chunk |
| TextChunker.WindowsKeep | backend/apps/documents/services/text_chunker.py:105-111 | a non-blank window adds its stripped chunk, numbered by the chunks so far |
| TextChunker.SimpleChunkFallback | backend/apps/documents/services/text_chunker.py:91-112 | one chunk per non-blank window at 0, size, 2·size, …, in order, numbered 0..n−1, each with its stripped content and the window's offsets |
| TextChunker.ChunkText | backend/apps/documents/services/text_chunker.py:26-88 | blank text gives no chunks; a splitter that raises gives the fallback; otherwise the located pieces with blank ones dropped |
| TextChunker.ChunkIndicesIncrease | backend/apps/documents/services/text_chunker.py:64-83 | kept chunks have strictly increasing indices into the splitter output and non-empty stripped content |
| SentenceChunker.Sentences | backend/setup_complete_sample_data.py:23-27 | no more sentences than pieces |
| SentenceChunker.Pieces | backend/setup_complete_sample_data.py:24 | no piece holds a newline or a period |
| SentenceChunker.SentencesWellFormed | backend/setup_complete_sample_data.py:23-27 | every sentence is non-empty, ends with `.` and holds no newline |
| SentenceChunker.Flush | backend/setup_complete_sample_data.py:36-37 | at most one chunk is flushed |
| SentenceChunker.Pack | backend/setup_complete_sample_data.py:29-41 | a pending chunk is never lost |
| SentenceChunker.CollectSentences | backend/setup_complete_sample_data.py:23-27 | the sentence loop produces the sentence list |
| SentenceChunker.SimpleChunkText | backend/setup_complete_sample_data.py:18-43 | the function returns the packed chunks of the text's sentences, with the length test as written |
| SentenceChunker.PackSentences | backend/setup_complete_sample_data.py:29-41 | the packing loop produces the packed chunks |
| SentenceChunker.PackStep | backend/setup_complete_sample_data.py:32-38 | one iteration either appends the sentence to the pending chunk or flushes it and starts anew |
| SentenceChunker.PackJoin | backend/setup_complete_sample_data.py:29-43 | the chunks joined by spaces are the sentences joined by spaces: none lost, duplicated or reordered |
| SentenceChunker.PackShape | backend/setup_complete_sample_data.py:33-41 | every chunk is well formed and is a single sentence or at most `size + 1` long |
| SentenceChunker.PackLongSentence | backend/setup_complete_sample_data.py:33-38 | a sentence longer than the chunk size forms a chunk on its own |
| SentenceChunker.TextSentencesWellFormed | backend/setup_complete_sample_data.py:23-27 | the sentences of any text are well formed |
| SentenceChunker.ChunksSpec | backend/setup_complete_sample_data.py:18-43 | blank text gives no chunks; the chunks rejoin to the sentences; every chunk is well formed and a single sentence or within the bound; long sentences stand alone |
| SentenceChunker.OverlongChunk | backend/setup_complete_sample_data.py:33-34 | with size 4, "a." and "b." pack into "a. b.", 5 characters; counting the space keeps them apart |
| Embeddings.Clean | backend/apps/documents/services/embeddings.py:75 | one cleaned text per text |
| Embeddings.CleanSpec | backend/apps/documents/services/embeddings.py:75 | blank texts are sent as "empty", all others unchanged |
| Embeddings.BatchEnd | backend/apps/documents/services/embeddings.py:73-74 | a batch is at most 2048 texts and only the last one is shorter |
| Embeddings.Requests | backend/apps/documents/services/embeddings.py:73-75 | the requests are the cleaned batches, one per batch |
| Embeddings.BatchesSpec | backend/apps/documents/services/embeddings.py:73-74 | the batches are non-empty, at most 2048 long, and concatenate back to the input |
| Embeddings.PySlot | backend/apps/documents/services/embeddings.py:84 | Python list assignment: a negative index counts from the end, and one out of range raises |
| Embeddings.PlaceFrom | backend/apps/documents/services/embeddings.py:83-84 | reassembly keeps the slot count, and its only failure is an index out of range |
| Embeddings.LastWrite | backend/apps/documents/services/embeddings.py:83-84 | the last item written to a slot, and no later item writes it |
| Embeddings.PlaceSpec | backend/apps/documents/services/embeddings.py:83-84 | reassembly fails exactly when some item's slot is out of range; otherwise each slot holds the vector of the last item written to it and untouched slots keep their value |
| Embeddings.Normalise | backend/apps/documents/services/embeddings.py:85-94 | connection, rate-limit and API errors become `EmbeddingError` (rate limit told apart only by OpenAI); other exceptions pass through |
| Embeddings.EmbedFrom | backend/apps/documents/services/embeddings.py:73-96 | the batch loop keeps the slot count |
| Embeddings.EmbedUntouched | backend/apps/documents/services/embeddings.py:71-84 | a slot no batch writes keeps its preallocated value |
| Embeddings.NoneSlots | backend/apps/documents/services/embeddings.py:71 | `[None] * n` |
| Embeddings.EmbedSlots | backend/apps/documents/services/embeddings.py:71-96 | a successful remote embed returns one slot per text, and unwritten slots are `None` |
| Embeddings.Construct | backend/apps/documents/services/embeddings.py:208-212 | building succeeds exactly for "openai" with a key, "ollama", or "huggingface" with a loadable model; every failure is an `EmbeddingError` |
| Embeddings.Generated | backend/apps/documents/services/embeddings.py:284-303 | a selection error passes through, every embed failure is an `EmbeddingError`, and a successful embed is returned unchanged |
| Embeddings.Single | backend/apps/documents/services/embeddings.py:306-311 | the first vector when there is one, otherwise an `EmbeddingError` |
| Embeddings.EmbeddingProvider.constructor | backend/apps/documents/services/embeddings.py:246 | the instance has the selected kind |
| Embeddings.EmbeddingProvider.Embed | backend/apps/documents/services/embeddings.py:68-96 | the result is the modelled embed; the requests sent are a prefix of the cleaned batches, all of them on success |
| Embeddings.Place | backend/apps/documents/services/embeddings.py:83-84 | the item loop performs the reassembly |
| Embeddings.ProviderCache.constructor | backend/apps/documents/services/embeddings.py:214-215 | the cache starts empty |
| Embeddings.ProviderCache.Get | backend/apps/documents/services/embeddings.py:219-249 | the cached instance when its key is the configured name; otherwise a new instance cached under the name; a failed build leaves the cache unchanged |
| Embeddings.ProviderCache.Reset | backend/apps/documents/services/embeddings.py:252-257 | instance and key are cleared |
| Embeddings.GenerateEmbeddings | backend/apps/documents/services/embeddings.py:264-303 | no texts give no vectors without touching the cache; otherwise the selected provider's result, failures normalised, and the cache afterwards holds that provider under the configured name, or is left as it was when building the provider raised; a cache hit keeps the same instance |
| Embeddings.GenerateSingleEmbedding | backend/apps/documents/services/embeddings.py:306-311 | the first vector of embedding the one text, or an `EmbeddingError`; the cache afterwards holds the selected provider under the configured name, or is left as it was when building it raised; a cache hit keeps the same instance |
| Search.Eligible | backend/apps/chatbot/services/search.py:102-106 | exactly the rows of the organization with an embedding, an active document and similarity at least the threshold |
| Search.EligibleMonotone | backend/apps/chatbot/services/search.py:106 | a higher threshold never lets more rows through |
| Search.Insert | backend/apps/chatbot/services/search.py:107 | inserting into a sorted list keeps it sorted and adds exactly the row |
| Search.SortByDistance | backend/apps/chatbot/services/search.py:107 | `ORDER BY distance`: a sorted permutation of the rows |
| Search.SqlRows | backend/apps/chatbot/services/search.py:92-108 | the query fails exactly for a negative limit |
| Search.SqlRowsSpec | backend/apps/chatbot/services/search.py:92-108 | every returned row passes the filter, rows come by ascending distance, and there are `min(limit, passing rows)` of them |
| Search.SqlRowsClosest | backend/apps/chatbot/services/search.py:107-108 | no passing row left out is closer than a returned one |
| Search.VectorSearchService.constructor | backend/apps/chatbot/services/search.py:23-24 | the service keeps its organization |
| Search.VectorSearchService.VectorSimilaritySearch | backend/apps/chatbot/services/search.py:76-128 | one result dict per fetched row, in order, for the service's organization; the queryset is not read |
| Search.VectorSearchService.Search | backend/apps/chatbot/services/search.py:26-74 | a failed query embedding is raised; otherwise the similarity results, whatever `document_ids` says |
| Search.VectorSearchService.SearchByDocument | backend/apps/chatbot/services/search.py:130-147 | the same results as `search` for the same query |
| Search.VectorSearchService.GetSimilarChunks | backend/apps/chatbot/services/search.py:149-183 | an id not in the organization gives no results; a chunk without an embedding raises; otherwise the similarity results for the chunk's embedding, read as a list (see Left out for numpy's truth-value error) |
| Search.FindChunk | backend/apps/chatbot/services/search.py:162-165 | the row with that id in the organization, or none when there is none |
| Search.SearchResultSpec | backend/apps/chatbot/services/search.py:92-108 | every hit is an eligible row scoring `1 − distance` at least the threshold, scores do not increase, at most `limit` hits, and a higher threshold never returns more |
| Search.DocumentFilterIgnored | backend/apps/chatbot/services/search.py:57-67 | a search restricted to document "mine" returns a chunk of document "other" |
| Search.InDocuments | backend/apps/chatbot/services/search.py:59 | exactly the rows of the listed documents |
| Search.SearchInDocumentsSpec | backend/apps/chatbot/services/search.py:58-59 | with the filter applied, every hit belongs to a listed document |
| Search.SimilarChunksIncludeReference | backend/apps/chatbot/services/search.py:171-179 | the reference chunk comes back as its own most similar chunk |
| Search.Without | backend/apps/chatbot/services/search.py:175 | exactly the rows with another id |
| Search.SimilarChunksExcludingSpec | backend/apps/chatbot/services/search.py:171-175 | with the exclusion applied, the reference chunk is never a result |
| PdfExtractor.PagesText | backend/apps/documents/services/pdf_extractor.py:55-62 | one contribution per page: its text, or "" when it has none or raises |
| PdfExtractor.Metadata | backend/apps/documents/services/pdf_extractor.py:67-72 | exactly the four listed attributes that have a non-empty value |
| PdfExtractor.ExtractTextFromBytes | backend/apps/documents/services/pdf_extractor.py:40-78 | a parser failure is "Invalid PDF: …"; otherwise the stripped, blank-line-joined page texts, the page count and the metadata |
| PdfExtractor.ExtractTextFromFile | backend/apps/documents/services/pdf_extractor.py:20-37 | a failed read is "Cannot read file: …"; otherwise the extraction of the bytes |
| PdfExtractor.ExtractedSpec | backend/apps/documents/services/pdf_extractor.py:55-78 | the page count includes failed pages; the text has no surrounding whitespace and is empty exactly when every page is blank; one page gives its stripped text; metadata values are non-empty |
| PdfExtractor.JoinBlank | backend/apps/documents/services/pdf_extractor.py:64 | texts joined by blank lines are blank exactly when every text is |
| Documents.TextValues | backend/apps/documents/services/pdf_extractor.py:72 | the metadata strings as JSON values under the same keys |
| Documents.Updated | backend/apps/documents/services/document_processor.py:149 | `dict.update`: new entries win and other entries stay |
| Documents.Document.constructor | backend/apps/documents/models.py:55-74 | a new document is pending with no text, metadata, processing time or chunks |
| DocumentProcessing.CountPresent | backend/apps/documents/services/document_processor.py:160 | the number of present embeddings: 0 exactly when none is present, all exactly when every one is |
| DocumentProcessing.NewChunks | backend/apps/documents/services/document_processor.py:131-142 | one row per chunk with index `i`, its content, and `embeddings[i]` or none past the end; indices are distinct |
| DocumentProcessing.DocumentProcessor.constructor | backend/apps/documents/services/document_processor.py:40-42 | the processor keeps its document |
| DocumentProcessing.DocumentProcessor.ExtractText | backend/apps/documents/services/document_processor.py:82-92 | no file fails; an extraction error fails with its message; otherwise the extraction |
| DocumentProcessing.DocumentProcessor.ChunkTextAsWritten | backend/apps/documents/services/document_processor.py:94-106 | the call with `preserve_sentences` always fails before chunking |
| DocumentProcessing.DocumentProcessor.Process | backend/apps/documents/services/document_processor.py:44-80 | every run fails: on a missing file, on an extraction error, or else at chunking |
| DocumentProcessing.DocumentProcessor.GenerateEmbeddings | backend/apps/documents/services/document_processor.py:108-119 | no chunks give no embeddings; an `EmbeddingError` is re-raised with its reason; other failures propagate |
| DocumentProcessing.DocumentProcessor.SaveChunksAndEmbeddings | backend/apps/documents/services/document_processor.py:121-163 | with at least one chunk the metadata read fails and the transaction leaves the document as it was |
| DocumentProcessing.DocumentProcessor.SaveChunks | backend/apps/documents/services/document_processor.py:121-163 | the new rows replace all old ones; the document is completed with no error, the text, the merged metadata and the time; the counts are the chunks and the present embeddings |
| DocumentProcessing.DocumentProcessor.FinishSave | backend/apps/documents/services/document_processor.py:148-155 | text, metadata, status, error message and time are written and the rows are untouched |
| DocumentProcessing.DocumentProcessor.ProcessFixed | backend/apps/documents/services/document_processor.py:44-163 | each failure names its cause and leaves the document as it was; success stores the new rows and completes the document |
| DocumentProcessing.ProcessDocumentById | backend/apps/documents/services/document_processor.py:182-202 | an unknown id is "not found"; a known one fails with its title and the cause `process` gives: no file attached, the extraction error, or the chunking call's rejected keyword |
| Tasks.Zipped | backend/apps/documents/tasks.py:128-136 | `zip`: `min(len(chunks), len(embeddings))` rows, each with its chunk's content and index, an empty vector stored as none |
| Tasks.RunEnds | backend/apps/documents/tasks.py:62-174 | a run ends COMPLETED or FAILED; it fails exactly when it answers "failed", with the detail as the error message; only completion sets the time |
| Tasks.RunStoresChunks | backend/apps/documents/tasks.py:122-160 | a completed run has text and chunks; the rows are the zip or none when the insert failed; without a key or after an embedding failure no row has an embedding |
| Tasks.ZippedDistinct | backend/apps/documents/tasks.py:128-139 | chunks numbered increasingly give distinct row indices, so only the database can leave the document without rows |
| Tasks.ProcessDocument | backend/apps/documents/tasks.py:23-174 | an unknown id is an error result; a completed document is skipped and left unchanged; any other goes through the modelled run |
| Tasks.ChunkAndStore | backend/apps/documents/tasks.py:88-160 | the run from chunking on: fail without chunks, otherwise pair, replace and complete |
| Tasks.MarkFailed | backend/apps/documents/tasks.py:162-174 | the document is FAILED with the message and the answer is "failed" |
| EmbeddingBackfill.Views | backend/apps/documents/management/commands/generate_embeddings.py:136 | one view per document, in order |
| EmbeddingBackfill.NullCount | backend/apps/documents/management/commands/generate_embeddings.py:56 | the chunks without an embedding: positive exactly when one lacks it |
| EmbeddingBackfill.Cleared | backend/apps/documents/management/commands/generate_embeddings.py:87 | every chunk loses its embedding and nothing else changes |
| EmbeddingBackfill.ProcessAllDocuments | backend/apps/documents/management/commands/generate_embeddings.py:103-179 | the counts are the tally over the documents; each document's chunks are cleared exactly when listed in a non-dry force run; nothing else of any document changes (status, error message, text, metadata, processing time) |
| EmbeddingBackfill.VisitNext | backend/apps/documents/management/commands/generate_embeddings.py:136-162 | one turn of the loop keeps its invariant: the counts cover one more document, which now holds its chunks after the run, and no other document and no other field changes |
| EmbeddingBackfill.Visit | backend/apps/documents/management/commands/generate_embeddings.py:136-162 | one document's contribution to the counts and its clearing; nothing but its chunks changes |
| EmbeddingBackfill.DryRunSchedulesNothing | backend/apps/documents/management/commands/generate_embeddings.py:151 | a dry run schedules nothing and clears nothing |
| EmbeddingBackfill.ListedSpec | backend/apps/documents/management/commands/generate_embeddings.py:105-118 | normal mode lists exactly the completed documents with a chunk lacking an embedding; force mode those with chunks, counting all their chunks |
| EmbeddingBackfill.CountsBounded | backend/apps/documents/management/commands/generate_embeddings.py:133-162 | scheduled ≤ found ≤ documents; the chunk total is at most all chunks, and in normal mode at most the chunks without an embedding |
| EmbeddingBackfill.ProcessSingleDocument | backend/apps/documents/management/commands/generate_embeddings.py:40-101 | unknown id and no chunks are reported; with and without embeddings add up to the total; scheduled exactly when force or a chunk lacks an embedding, outside a dry run, when dispatch succeeds; force clears first; nothing but the chunks changes |
| ApiKeyAuth.IsExempt | backend/apps/core/middleware.py:52-54 | `_is_exempt`: the path starts with one of the four exempt prefixes (examples in ExemptExamples) |
| ApiKeyAuth.AnyPrefix | backend/apps/core/middleware.py:54 | true exactly when the path starts with one of the prefixes |
| ApiKeyAuth.ExemptExamples | backend/apps/core/middleware.py:22-27 | `/admin/`, health paths and below are exempt; `/admin` and the chat endpoints are not |
| ApiKeyAuth.DiffersAt | backend/apps/core/middleware.py:54 | a path differing from a prefix at some position does not start with it |
| ApiKeyAuth.ActiveByKey | backend/apps/core/middleware.py:42-44 | an active organization with that key, or none exactly when there is none |
| ApiKeyAuth.ActiveByKeyUnique | backend/apps/core/models.py:21 | with unique keys the lookup finds the one active organization with the key |
| ApiKeyAuth.Authenticate | backend/apps/core/middleware.py:32-50 | exempt paths pass with no organization; a non-empty key passes with its active organization or is rejected with 401 "Invalid API key" exactly when none matches; a missing or empty key passes with none |
| ApiKeyAuth.Request.constructor | backend/apps/core/middleware.py:32 | a request starts with no organization |
| ApiKeyAuth.Call | backend/apps/core/middleware.py:32-50 | a forwarded request carries the decided organization and goes downstream; a rejected one is answered with the error and keeps its attribute |
| UploadValidation.ValidateFile | backend/apps/documents/api/serializers.py:19-30 | accepted exactly when within the size limit (inclusive) and of an allowed type, and then returned unchanged; size is checked first |
| UploadValidation.SizeLimitMonotone | backend/apps/documents/api/serializers.py:20-24 | shrinking an accepted file keeps it accepted, growing an oversize one gives the same error, and a file exactly at the limit passes the size check |
| UploadValidation.DeployedSizeLimit | backend/apps/documents/api/serializers.py:20-24 | with the deployed 50 MiB limit a 50 MiB PDF passes and one byte more reports "50 MB" |
| UploadValidation.DeployedTypeCheck | backend/apps/documents/api/serializers.py:25-29 | a Word file is refused with a message naming its type and the allowed one |
| OrganizationManager.Slugify | backend/apps/core/managers.py:24 | same length as the name, lower-cased, with each space replaced by `-` |
| OrganizationManager.SlugifySpec | backend/apps/core/managers.py:24 | a derived slug has no space and no upper-case letter, and deriving it again changes nothing |
| OrganizationManager.CreateOrganization | backend/apps/core/managers.py:13-32 | the name is unchanged; a non-empty slug is kept, otherwise derived; the key is `pk_` followed by the token |
| OrganizationManager.KeysFollowTokens | backend/apps/core/managers.py:26 | two keys are equal exactly when their tokens are |

## Left out

- Clock and randomness: `datetime.now()` and `timezone.now()` become a `now` argument in seconds, read once per call. `secrets.token_urlsafe(32)` becomes a token argument.
- Python `str.strip` and `isspace` are modelled for ASCII whitespace and `\x1c`–`\x1f` only. `str.lower` is modelled for ASCII letters only.
- OrganizationManager.Slugify: lower-cases ASCII letters only, so a non-ASCII name keeps its letters' case.
- Providers.FindCI: the `IGNORECASE` match folds ASCII letters only.
- ChatHistory.Store.OldestSession: promises some session of least activity. Among equally old sessions, `min()` takes the first in insertion order; the session table is a map without insertion order, so this tie-break is not stated.
- Foreign calls are parameters with no behaviour of their own. These are the LangChain splitter and history chain, the chat model, the OpenAI and Ollama clients, the local sentence-transformers model, PyPDF2, pgvector's `<=>` and the ORM queries.
- The prompt rules are the constant `SystemRules`, the text of `_SYSTEM_INSTRUCTIONS` before its context placeholder. A chatbot holds it, and the prompt functions take it as their `rules` parameter.
- GetSimilarChunks: `HasEmbedding` reads `chunk.embedding` as a list that is truthy when non-empty. With the pinned pgvector 0.2.5, `VectorField` gives back a `numpy.ndarray`, and `not chunk.embedding` on a stored multi-dimensional embedding raises numpy's `ValueError` (ambiguous truth value). The `except DocumentChunk.DoesNotExist` does not catch that error, so under that library the success branch would not be reached. The model does not capture numpy's truth-value error.
- The `:.2f` score rendering is a parameter, `fmt`. The 0.7 factor of the context cut is the exact integer test `10·last > 7·max_chars`, where the source compares with the float `max_chars * 0.7`. The two differ only when a mark sits exactly at 0.7·max_chars and that product rounds below the integer, for example at budgets 90, 170, 180 and 330–360 (143 budgets up to 10000): there the source cuts and the model does not. At the deployed 8000 they agree.
- `max_chars or setting` in the context cut is resolved before the call. So is `CHATBOT_ENABLE_CHAT_HISTORY`.
- The chat-history helper functions the answer path imports are collaborators, and the chat-history file in the repository does not define them. `get_recent_messages` is the parameter `recent`, called with the count 6. `add_user_message` and `add_ai_message` are recorded calls, and the parameter `writeRaises` says which of them raises. `get_session_history_for_langchain` lives inside the chain. What a write that raised left in the store is not modelled.
- The module-level wrappers `get_chat_history`, `clear_chat_history` and `get_chat_store_stats` only delegate to one global store, so they are not modelled.
- Concurrency: the embedding cache lock and its double check are modelled sequentially. Celery retries, acknowledgement settings and the import-error branch of the task are not modelled.
- Logging and console output are not modelled. This covers the dimension-mismatch warning of `generate_embeddings`, whose list is returned unchanged, and every printed line of the backfill command.
- Exception messages are kept where the code builds them from constants. The messages of client exceptions are reduced to their kind; so are the OpenAI rate-limit and API error texts.
- The HuggingFace provider is modelled as one encoding call that succeeds or fails. The model name settings and `tolist` are not modelled.
- Search: the distance is a parameter and similarity is `1 − distance` over reals. Rows at equal distance keep table order, where the database leaves their order unspecified. A negative `LIMIT` is an error value. The request serializer's bounds on `limit`, threshold and query length are not modelled.
- The backfill command imports `generate_embeddings_for_document`, which the task module does not define. Dispatch is a parameter saying whether it raises, and the import failure itself is not modelled.
- The backfill command's selection of documents without chunks follows the outer join of `chunks__embedding__isnull=True`.
- `Organization.save` key hashing, `Document.save` retries, the ORM `create` call and `bulk_create` are not modelled; the bulk insert is an input saying whether it raises.
- Document metadata values are strings or counts. Other JSON values are not modelled.

## Findings

| source | as written | input that shows it | evidently intended | confidence | as-written member | corrected member |
|---|---|---|---|---|---|---|
| backend/setup_complete_sample_data.py:33-34 | the length test omits the space added when a sentence joins the chunk | sentences "a." and "b." with `chunk_size` 4 give the 5-character chunk "a. b." | a chunk of several sentences is at most `chunk_size` long | not executed | SentenceChunker.OverlongChunk | SentenceChunker.ChunksSpec |
| backend/apps/chatbot/services/search.py:57-67 | `document_ids` filters a queryset the SQL never reads | a search limited to document "mine" returns a chunk of document "other" | results come only from the listed documents | not executed | Search.DocumentFilterIgnored | Search.SearchInDocumentsSpec |
| backend/apps/chatbot/services/search.py:171-179 | the exclusion of the reference chunk is applied to a queryset the SQL never reads | chunk "c1" is returned as similar to itself | the reference chunk is never among the similar chunks | not executed | Search.SimilarChunksIncludeReference | Search.SimilarChunksExcludingSpec |
| backend/apps/documents/services/document_processor.py:97-102 | `_chunk_text` passes `preserve_sentences=True`, which `chunk_text` does not accept | any document with a readable PDF fails at chunking with a `TypeError` | the pipeline chunks, embeds and stores the document | not executed | DocumentProcessing.DocumentProcessor.Process | DocumentProcessing.DocumentProcessor.ProcessFixed |
| backend/apps/documents/services/document_processor.py:140 | the save reads `chunk_data.metadata`, which a chunk does not have | any non-empty chunk list raises `AttributeError` and the save rolls back | the rows are stored and the document completed | not executed | DocumentProcessing.DocumentProcessor.SaveChunksAndEmbeddings | DocumentProcessing.DocumentProcessor.SaveChunks |
