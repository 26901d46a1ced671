# Retrieval-augmented chat engine, modelled in Dafny

This project models the core of a Spring Boot / Semantic Kernel application.
The application answers user questions with an OpenAI chat model, grounded
in documents stored in a Qdrant vector collection.

- **Ingestion** (`SimpleVectorService.processAndSaveText`):
  - cut a text into overlapping windows of 500 characters, advancing 450 each time (Java counts UTF-16 code units, the model counts characters: see "Left out");
  - embed each window;
  - build one point per returned vector, with a random UUID id and payload `{"content": window}`;
  - make sure the collection exists (cosine distance, 1536 dimensions), then upsert the whole batch.
- **Search** (`SimpleVectorService.search`, `RagService.searchContext`):
  - embed the query;
  - ask the store for at most 50 hits scoring at least 0.8, with their payload;
  - map each hit to a DTO.
- **Context assembly** (`ContentRetrieverPlugin.retrieveContext`): join the
  hits' chunks; return one fixed sentence when the result is blank and
  another when the search throws.
- **Chat** (`ChatService`):
  - a registry from model id to completion service, filled once, where a later entry wins;
  - per-user histories, created on first use with the system prompt "You are a friendly helper.";
  - each `ask` appends the question, calls the model, joins the reply fragments and appends the reply.
- **RAG endpoint** (`RagController.searchContext`): retrieve context for the
  question, build the instruction prompt around question and context, and
  ask the chosen model on behalf of the user.

The embedding provider, the vector store and the UUID generator are one
`External.Services` object:

- The object keeps a log of every request sent. Each reply is a fixed function (an oracle) of that log, including the request being answered. Any reply may be a failure.
- UUIDs come from a counter of ids issued so far.
- Each chat model is a function from the history it is shown to its reply fragments, or to a failure.
- Each service method is specified by a pure function of the state before the call. The function gives the requests sent, the new state and the result. The lemmas are stated about these functions.

Some behaviours of the code differ from what its surrounding description promises. The model follows the code:

- **Two short tails.** The window loop can emit two short chunks at the end, not one. A 940-character text gives chunks of 500, 490 and 40 characters (`Chunking.TwoShortTails`).
- **Short texts.** A text of exactly 500 characters gives two chunks, the whole text and its last 50 characters. Only texts of at most 450 characters give one chunk (`Chunking.FullWindowTextSplitsTwice`, `Chunking.ShortTextIsOneChunk`).
- **Turns need not alternate.** A failed model call leaves the question in the history with no answer after it. The next question then follows it directly (`Chat.FailedAskLeavesTwoQuestionsInARow`).
- **`getChunk` does not exist.** `ContentRetrieverPlugin` calls `getChunk` on `EmbeddingModelResponse`, but that class declares only `id` and `score`. The model gives the DTO a `chunk` field holding the hit's `"content"` payload, the text ingestion stored there. This field is empty when the payload has no `"content"` entry.
- **Ids read as numbers.** `toDTO` reports `getId().getNum()`. Ingestion only ever creates UUID ids, and `getNum()` is 0 for those. So every DTO of an ingested point reports id 0 (`Domain.UuidHitsAllReportIdZero`).
- **No re-sorting.** `search` returns the store's list exactly as received, without re-sorting or filtering it.

## Model

| member | source | states |
|---|---|---|
| Chunking.SplitText | src/main/java/com/epam/training/gen/ai/service/SimpleVectorService.java:186-196 | the window loop returns exactly the windows `Chunks` describes, for any overlap below the chunk size |
| Chunking.ChunkCount | src/main/java/com/epam/training/gen/ai/service/SimpleVectorService.java:186-196 | the number of chunks is ceil(\|text\| / (chunkSize − overlap)); there are none exactly when the text is empty |
| Chunking.ChunkAt | src/main/java/com/epam/training/gen/ai/service/SimpleVectorService.java:188-194 | chunk k starts at k·(chunkSize − overlap), inside the text, and is text[k·step .. min(k·step + chunkSize, \|text\|)]; so chunks come in increasing start order |
| Chunking.ChunkLength | src/main/java/com/epam/training/gen/ai/service/SimpleVectorService.java:190-193 | every chunk is non-empty and at most chunkSize long, and it is full exactly when its window fits in the text |
| Chunking.TwoShortTails | src/main/java/com/epam/training/gen/ai/service/SimpleVectorService.java:186-196 | with size 500 and overlap 50, a 940-character text gives three chunks of 500, 490 and 40 characters: more than one chunk can be short |
| Chunking.ShortTextIsOneChunk | src/main/java/com/epam/training/gen/ai/service/SimpleVectorService.java:186-196 | a non-empty text no longer than chunkSize − overlap is one chunk, the text itself |
| Chunking.FullWindowTextSplitsTwice | src/main/java/com/epam/training/gen/ai/service/SimpleVectorService.java:186-196 | a 500-character text gives two chunks, the text and its last 50 characters |
| Chunking.Reassemble | src/main/java/com/epam/training/gen/ai/service/SimpleVectorService.java:186-196 | the first chunk followed by every later chunk without its first min(overlap, \|chunk\|) characters is the original text |
| External.Services.GetEmbeddings | src/main/java/com/epam/training/gen/ai/service/SimpleVectorService.java:173-176 | one embeddings request carrying the single text is logged, and its reply is returned |
| External.Services.GetCollectionInfoAsync | src/main/java/com/epam/training/gen/ai/service/SimpleVectorService.java:144 | one collection-info request is logged, and its pass/fail reply is returned |
| External.Services.CreateCollectionAsync | src/main/java/com/epam/training/gen/ai/service/SimpleVectorService.java:124-129 | one create request with the given name and parameters is logged, and its reply is returned |
| External.Services.UpsertAsync | src/main/java/com/epam/training/gen/ai/service/SimpleVectorService.java:149 | one upsert request with the given points is logged, and its reply is returned |
| External.Services.SearchAsync | src/main/java/com/epam/training/gen/ai/service/SimpleVectorService.java:94-103 | one search request is logged, and its reply (hits or failure) is returned unchanged |
| External.Services.RandomUuid | src/main/java/com/epam/training/gen/ai/service/SimpleVectorService.java:161 | returns a UUID never handed out before and counts it; nothing is logged |
| VectorService.PointOf | src/main/java/com/epam/training/gen/ai/service/SimpleVectorService.java:159-165 | the point carries the given id and vector, and its payload is exactly {"content": chunk} |
| VectorService.SaveVectorRun | src/main/java/com/epam/training/gen/ai/service/SimpleVectorService.java:141-151 | the lookup comes first; the collection (cosine, 1536) is created exactly when the lookup fails, and at most once; the upsert of the batch is sent exactly when the lookup or the create succeeds, once, and it is then last; no upsert means failure; the outcome is the last reply |
| VectorService.EmbedChunks | src/main/java/com/epam/training/gen/ai/service/SimpleVectorService.java:71-78 | defines the embedding phase: one single-text embeddings request per chunk, in chunk order, each reply's items gathered and tagged with their chunk, the first failing reply ending the phase with its exception (its properties are proved in `IngestionFacts.EmbedPhase`) |
| VectorService.Ingest | src/main/java/com/epam/training/gen/ai/service/SimpleVectorService.java:68-80 | defines `processAndSaveText` as a whole: the chunks of 500 with overlap 50, the embedding phase over them, and, only if no embedding failed, `saveVector` of one fresh-UUID point per gathered vector; the UUIDs used and the outcome (its properties are proved in `IngestionFacts`) |
| VectorService.SearchRequest | src/main/java/com/epam/training/gen/ai/service/SimpleVectorService.java:94-102 | the query names the collection, carries the query embeddings end to end, asks for at most 50 hits with payload and a score threshold of 0.8 |
| VectorService.SearchRun | src/main/java/com/epam/training/gen/ai/service/SimpleVectorService.java:90-103 | the query text is embedded once, unchanged; a failed embedding is the result and nothing is searched; otherwise one search is sent and the store's reply is the result as is |
| VectorService.SimpleVectorService.ProcessAndSaveText | src/main/java/com/epam/training/gen/ai/service/SimpleVectorService.java:68-80 | the nested loops send exactly the requests of `Ingest`, hand out exactly its UUIDs and end in its outcome |
| VectorService.SimpleVectorService.EmbedChunksToPoints | src/main/java/com/epam/training/gen/ai/service/SimpleVectorService.java:70-78 | the chunk loop sends exactly the requests of `EmbedChunks` over the chunks, ending right after the first failing one with its exception, and holds one point per gathered vector in order, numbered from the UUIDs issued before it |
| VectorService.SimpleVectorService.EmbedChunk | src/main/java/com/epam/training/gen/ai/service/SimpleVectorService.java:72-77 | one embeddings request for the chunk; on failure its exception and no new UUID; otherwise one new point per returned item, appended in item order |
| VectorService.SimpleVectorService.AddPoints | src/main/java/com/epam/training/gen/ai/service/SimpleVectorService.java:74-77 | appends one point per item, each with the next fresh UUID and the chunk as content, and sends nothing |
| VectorService.SimpleVectorService.Search | src/main/java/com/epam/training/gen/ai/service/SimpleVectorService.java:90-103 | sends exactly the requests of `SearchRun` and returns its result; no UUID is used |
| VectorService.SimpleVectorService.GetEmbeddings | src/main/java/com/epam/training/gen/ai/service/SimpleVectorService.java:112-115 | one embeddings request for the text with the service's model; the reply's items are returned |
| VectorService.SimpleVectorService.CreateCollection | src/main/java/com/epam/training/gen/ai/service/SimpleVectorService.java:123-131 | one create request for the service's collection with cosine distance and size 1536 |
| VectorService.SimpleVectorService.SaveVector | src/main/java/com/epam/training/gen/ai/service/SimpleVectorService.java:141-151 | sends exactly the requests of `SaveVectorRun` and ends in its outcome |
| VectorService.SimpleVectorService.GetPointStruct | src/main/java/com/epam/training/gen/ai/service/SimpleVectorService.java:159-165 | builds `PointOf` with the next fresh UUID; nothing is sent |
| IngestionFacts.EmbedPhase | src/main/java/com/epam/training/gen/ai/service/SimpleVectorService.java:70-78 | one embeddings request per chunk in chunk order; if every reply succeeds, all chunks are sent and the gathered vectors are every reply's items in order, each tagged with its chunk; otherwise sending stops right after the first failing reply, whose exception is the phase's |
| IngestionFacts.EmbeddingFailureUpsertsNothing | src/main/java/com/epam/training/gen/ai/service/SimpleVectorService.java:68-80 | when an embedding fails, the ingestion fails with that exception and has sent only embeddings requests: no lookup, no create, no upsert |
| IngestionFacts.SuccessfulEmbeddingUpsertsWholeBatch | src/main/java/com/epam/training/gen/ai/service/SimpleVectorService.java:68-80 | when every embedding succeeds, all chunks' requests come first, then `saveVector`; the only upsert is the last request and carries one point per returned vector; no upsert means failure |
| IngestionFacts.CollectionCreatedAtMostOnce | src/main/java/com/epam/training/gen/ai/service/SimpleVectorService.java:141-151 | the create request and the upsert of the batch each occur at most once among the requests `saveVector` sends, and a create that succeeds is followed by the upsert as the last request |
| IngestionFacts.TaggedComeFromChunks | src/main/java/com/epam/training/gen/ai/service/SimpleVectorService.java:71-77 | every gathered vector is tagged with one of the chunks already embedded |
| IngestionFacts.PointsAreFreshAndTagged | src/main/java/com/epam/training/gen/ai/service/SimpleVectorService.java:159-164 | one point per gathered vector, with pairwise distinct fresh UUIDs, the vector itself and payload exactly {"content": its chunk} |
| IngestionFacts.QueryVectorIsEmbeddingsInOrder | src/main/java/com/epam/training/gen/ai/service/SimpleVectorService.java:91-93 | the query vector is the returned embeddings joined end to end in order; for a single embedding it is that embedding |
| IngestionFacts.SearchNeverHidesFailure | src/main/java/com/epam/training/gen/ai/service/SimpleVectorService.java:90-103 | a failed query embedding is reported as a failure, never as an empty list; a successful search returns the store's reply unchanged |
| Domain.NumOf | src/main/java/com/epam/training/gen/ai/domain/EmbeddingModelResponse.java:42 | the reported id is the unsigned 64-bit point id read as a signed `long`: unchanged below 2^63, that id minus 2^64 (negative) from 2^63 on; 0 for a UUID id |
| Domain.NumericIdsStayDistinct | src/main/java/com/epam/training/gen/ai/domain/EmbeddingModelResponse.java:42 | two numeric ids that report the same number are the same id; the largest id reports -1 |
| Domain.ContentOf | src/main/java/com/epam/training/gen/ai/plugins/ContentRetrieverPlugin.java:48 | defines the chunk text of a hit: its "content" payload, or the empty text when it has none |
| Domain.ToDTO | src/main/java/com/epam/training/gen/ai/domain/EmbeddingModelResponse.java:40-45 | defines the DTO of one hit: its `NumOf` id, its score unchanged, and its `ContentOf` text |
| Domain.ToDTOs | src/main/java/com/epam/training/gen/ai/service/RagService.java:64-66 | one DTO per hit, the i-th built from the i-th hit |
| Domain.DTOsFollowHits | src/main/java/com/epam/training/gen/ai/domain/EmbeddingModelResponse.java:40-45 | the same number of DTOs as hits, with no filtering; each keeps its hit's score, reports its numeric id, and carries its "content" text |
| Domain.UuidHitsAllReportIdZero | src/main/java/com/epam/training/gen/ai/domain/EmbeddingModelResponse.java:42 | for hits with UUID ids, such as every point ingestion creates, every DTO reports id 0 |
| Rag.DTOResult | src/main/java/com/epam/training/gen/ai/service/RagService.java:61-66 | a failed search stays a failure with the same exception; a successful one gives one DTO per hit |
| Rag.Stored | src/main/java/com/epam/training/gen/ai/service/RagService.java:89-98 | the uploaded name is always present afterwards; an existing file of that name is kept as it was, otherwise the upload's bytes are stored under it; other names are untouched |
| Rag.ReuploadReadsFirstFile | src/main/java/com/epam/training/gen/ai/service/RagService.java:89-98 | a second upload under a name already used stores nothing: the bytes read back are the first file's, whatever the second held; after both uploads the directory holds exactly the old names plus that one, and every other name keeps its file |
| Rag.RagService.SaveToDir | src/main/java/com/epam/training/gen/ai/service/RagService.java:89-98 | the upload directory becomes `Stored` of the old one and the upload |
| Rag.RagService.SearchContext | src/main/java/com/epam/training/gen/ai/service/RagService.java:61-67 | runs `search` on the query unchanged and returns its hits as DTOs, or its failure |
| Rag.RagService.SaveContext | src/main/java/com/epam/training/gen/ai/service/RagService.java:47-51 | the upload is stored as `Stored` says, and the text is extracted from the file now stored under its name (the earlier file, on a re-upload); a failed extraction fails with its exception, and nothing is sent and no UUID is used; otherwise that text, unchanged, is ingested exactly once |
| Common.Concat | src/main/java/com/epam/training/gen/ai/plugins/ContentRetrieverPlugin.java:48 | the parts joined end to end in order with no separator, as `Collectors.joining()` and `addAll` do; no parts give the empty sequence, one part gives itself; `Common.ConcatAppend` proves that joining distributes over appending |
| Common.IsWhitespace | src/main/java/com/epam/training/gen/ai/plugins/ContentRetrieverPlugin.java:49 | defines `Character.isWhitespace`: the ASCII controls 9-13 and 28-31, the space, and the Unicode space, line and paragraph separators except the non-breaking ones |
| Common.IsBlank | src/main/java/com/epam/training/gen/ai/plugins/ContentRetrieverPlugin.java:49 | defines `String.isBlank`: every character is whitespace, so the empty text is blank |
| Retriever.JoinChunks | src/main/java/com/epam/training/gen/ai/plugins/ContentRetrieverPlugin.java:48 | no hits join to the empty text; a single hit joins to its own chunk |
| Retriever.BlankJoinIffAllBlank | src/main/java/com/epam/training/gen/ai/plugins/ContentRetrieverPlugin.java:48-49 | the joined chunks are blank exactly when every chunk is blank |
| Retriever.ContextOf | src/main/java/com/epam/training/gen/ai/plugins/ContentRetrieverPlugin.java:46-55 | a failed search gives the "cannot retrieve" sentence; blank joined chunks give the "no context" sentence; otherwise the joined chunks themselves |
| Retriever.ContextIsNeverBlank | src/main/java/com/epam/training/gen/ai/plugins/ContentRetrieverPlugin.java:49-54 | the context is never blank; the two sentences differ; after a successful search the context is "no context" exactly when all chunks are blank or they spell that sentence |
| Retriever.ContentRetrieverPlugin.RetrieveContext | src/main/java/com/epam/training/gen/ai/plugins/ContentRetrieverPlugin.java:42-56 | searches once with the question unchanged and returns `ContextOf` of the outcome; a search failure never propagates |
| Chat.Registry | src/main/java/com/epam/training/gen/ai/service/ChatService.java:44-46 | defines the map the constructor's loop fills: each service put under its model id, in list order, so a later entry replaces an earlier one |
| Chat.RegistryLastWriteWins | src/main/java/com/epam/training/gen/ai/service/ChatService.java:44-46 | the registry's keys are exactly the declared model ids, and each maps to the last service in list order declaring it |
| Chat.ChatService.constructor | src/main/java/com/epam/training/gen/ai/service/ChatService.java:37-47 | the loop leaves the registry equal to `Registry` of the list, and there are no histories yet |
| Chat.HistoryOf | src/main/java/com/epam/training/gen/ai/service/ChatService.java:64-67 | defines `computeIfAbsent`: the user's history, or a new one holding only the system prompt "You are a friendly helper." |
| Chat.AskStep | src/main/java/com/epam/training/gen/ai/service/ChatService.java:58-78 | unknown model: "Model not found: " + id, and no history is created or changed. Otherwise: the user gets a history (seeded with the system prompt if new); the model sees that history plus the question; success appends question and joined reply and returns the reply; failure keeps only the question; other users' histories are unchanged |
| Chat.AskKeepsHistoriesSeeded | src/main/java/com/epam/training/gen/ai/service/ChatService.java:66-68 | every history starts with "You are a friendly helper." as its only system message, and a first ask creates [system prompt, question] |
| Chat.TwoAsksThenAnotherUser | src/main/java/com/epam/training/gen/ai/service/ChatService.java:58-78 | two successful asks by one user leave [system, q1, a1, q2, a2], reusing one history; another user's ask leaves that history as it was |
| Chat.FailedAskLeavesTwoQuestionsInARow | src/main/java/com/epam/training/gen/ai/service/ChatService.java:68-76 | after a failed completion, the next ask's question follows the unanswered one directly |
| Chat.ChatService.Ask | src/main/java/com/epam/training/gen/ai/service/ChatService.java:58-78 | the registry is unchanged, and the histories and result are those of `AskStep` |
| RagApi.RagPrompt | src/main/java/com/epam/training/gen/ai/controller/RagController.java:76-83 | defines the prompt `String.format` builds: the instruction, "\nQuestion: ", the question, "\nContext: ", the context (laid out as `RagApi.PromptLayout` proves) |
| RagApi.PromptLayout | src/main/java/com/epam/training/gen/ai/controller/RagController.java:76-83 | the prompt is the fixed instruction, "\nQuestion: ", the question verbatim, "\nContext: " and the context verbatim, with the question before the context |
| RagApi.ResponseOf | src/main/java/com/epam/training/gen/ai/controller/RagController.java:85-88 | 200 with the reply unchanged exactly when `ask` returns; otherwise 400 with the exception's message |
| RagApi.UnknownModelStillSearches | src/main/java/com/epam/training/gen/ai/controller/RagController.java:66-89 | for an unknown model id, the question is still embedded first, then the answer is 400 "Model not found: <id>" and no history changes |
| RagApi.SearchFailureIsAnsweredByTheModel | src/main/java/com/epam/training/gen/ai/controller/RagController.java:68-84 | a failed search does not reach the client: the model is asked the prompt with the "cannot retrieve" sentence as context, and the user's history records that prompt |
| RagApi.QuestionReachesSearchAndModel | src/main/java/com/epam/training/gen/ai/controller/RagController.java:68-84 | the store is searched with the request's input, and that input appears verbatim in the prompt recorded as the user's new turn |
| RagApi.AnswerByContext | src/main/java/com/epam/training/gen/ai/controller/RagController.java:66-89 | defines one request to the endpoint: the search with the input, `ContextOf` its outcome, `AskStep` with the composed prompt, the user id and the model id, and `ResponseOf` the reply |
| RagApi.RagController.SearchContext | src/main/java/com/epam/training/gen/ai/controller/RagController.java:66-89 | sends the retrieval's requests, asks with the composed prompt, the request's user id and model id, and answers with `ResponseOf` of the reply |

## Left out

- The HTTP layer is not modelled: `ChatController`, `EmbeddingController`, the upload endpoint and status-code mapping. `RagController.searchContext` answers with `Ok(body)` or `BadRequest(body)`.
- Spring wiring and credentials are not modelled. The kernel's default chat service is the first in the list (`SemanticKernelConfiguration.java:128`).
- `ChatController` (`/chat`) is not modelled. It calls `ChatService.ask` with the raw input and shares the same per-user histories, so `/chat` turns and RAG turns of one user mix in one history. A request without a model id makes `ask` look up null, which throws; null model ids are not modelled.
- Rag.RagService.SaveToDir: the only copy failure modelled is an existing file of the same name. Other I/O failures of `Files.copy` and of `getOrCreateDir` (swallowed as well, so the later read fails) are not modelled, nor is PDFBox itself, which is a fixed function `loadPdf` from stored bytes to text or an exception.
- The `.block()`/`.get()` async plumbing is not modelled. A failed future or a thrown call is a failure reply of the oracle. `InterruptedException` is not told apart from other failures.
- Semantic Kernel tool calling during chat completion belongs to the library, and so does what the model does with the history. Each model is an arbitrary function of the history it is shown.
- RagApi.RagController.SearchContext calls the plugin directly. The kernel's dispatch by plugin and function name is not modelled, and neither is a failure of that dispatch, which would give a 400.
- Embedding vectors and scores are `real` sequences and values, and no similarity arithmetic is done. VectorService.ScoreThreshold is the decimal 0.8, not the nearest 32-bit float.
- External.Services.RandomUuid: random version-4 UUIDs (section 4.4 of RFC 4122) are a counter of issued ids. Distinctness is exact, whereas real random UUIDs are distinct only with overwhelming probability.
- Chunking.SplitText requires 0 <= overlap < chunkSize; the Java method checks nothing and its only caller passes 500 and 50. With overlap == chunkSize the cursor never moves and the list grows until memory runs out. With overlap > chunkSize the cursor goes negative and the second `substring` throws `StringIndexOutOfBoundsException` on any non-empty text. A negative overlap, which Java accepts, skips characters between windows. The 32-bit `start` can also overflow near `Integer.MAX_VALUE`.
- Chunking.SplitText: lengths and positions count Unicode characters, while Java's `length()` and `substring` count UTF-16 code units. The two agree on text within the Basic Multilingual Plane. For text with characters beyond it, such as the mathematical letters from U+1D400 on, Java cuts different windows and a different number of chunks (500 copies of U+1D465 are 1000 units, so three chunks, not the model's two), and it can cut a surrogate pair and send a lone surrogate to the embeddings endpoint. Neither is modelled.
- RagApi.RagController.SearchContext and Chat.ChatService.Ask: the kernel lets the model call every registered plugin (`SemanticKernelConfiguration.java:151`), `ContentRetrieverPlugin` included, so during `ask` the model can embed and search again through the same services. Requests from such tool calls are not in the modelled log; each model is a pure function of the history it is shown.
- VectorService.SimpleVectorService.SaveVector: all requests form one sequential log, so concurrent ingestions through the shared service are not modelled. In particular the check-then-create race of `saveVector` is not: two ingestions can both see the lookup fail and both send a create, and a batch whose create then fails is never upserted. `IngestionFacts.CollectionCreatedAtMostOnce` holds per call only.
- Chat.ChatService.Ask runs sequentially. `ConcurrentHashMap` and simultaneous asks by one user are not modelled. A history is a value in the map, so aliasing of `ChatHistory` objects is not modelled.
- Null arguments and null fields are not modelled: a null `input` formatted as "null", a null model id, and missing payload values.
- The `log.info` calls are not modelled.
- The other plugins are not modelled: age calculator (clock, calendar), currency converter (floating point) and weather stub.
