# Hacker News Chinese digest: a verified model of its core

The system fetches the Hacker News front page. For each story it extracts the
linked page through a reader service, asks an LLM for a Chinese translation and
structured analysis, stores the enriched article and vectorises it for
retrieval. It serves the articles as a paginated listing and offers a chat over
them: about one article, or globally over the vector index. A web client
scrolls the listing and streams chat replies.

This project models that core in Dafny:

- the ingestion pipeline (`NewsIngestor`) over its two services
  (`ExtractionService`, `TranslateService`);
- the article records and schemas (`ArticleModel`, `ArticleSchema`) and the
  article service (`ArticleService`);
- the chat service helpers (`ChatService`) and the chat repository with its
  message cache (`ChatRepository`);
- on the client: the chat panel store (`ChatStore`), the streamed chat hook
  (`ChatStream`) and the home page's infinite scroll (`HomePage`).

`Wrappers`, `Text` and `Keyed` hold the language-level operations the source
relies on: Python truthiness, string split and join, first-occurrence replace,
whitespace strip, slicing, and `dict(zip(...))`.

Every external service is a parameter of the operation that calls it: the
database, Redis, the HTTP client, the LLM, the JSON decoder, the vector store
and the chat server. The parameter is a function from the request to its
outcome, and exceptions are constructors of that outcome. Objects whose fields
the source updates in place are classes:

- the story contexts of a run;
- the chat repository's cache;
- the chat store;
- the chat hook.

Their loops are methods proved against value-level specification functions.

## Model

| member | source | states |
|---|---|---|
| ArticleModel.Validate | backend/app/models/article.py:5-15 | accepts exactly the objects whose required fields are present and typed, with 3..10 key points and a score in 0..100; fields are copied; absent tech stack and translations take their defaults |
| ArticleModel.ValidateEncode | backend/app/models/article.py:5-15 | validating a serialised analysis gives it back exactly when it meets the constraints, and rejects it otherwise |
| ArticleModel.ScoreOutOfRangeRejected | backend/app/models/article.py:13 | a score below 0 or above 100 is rejected whatever the other fields hold |
| ArticleSchema.ParseSortField | backend/app/schemas/article.py:7-10 | exactly the three wire values parse, each to the member whose value it is |
| ArticleSchema.ParseSortOrder | backend/app/schemas/article.py:12-14 | exactly "desc" and "asc" parse, each to its own member |
| ArticleSchema.SortValuesRoundTrip | backend/app/schemas/article.py:7-14 | every enum member is recovered from its wire value |
| ArticleSchema.ParseFilterParams | backend/app/schemas/article.py:17-21 | parameters are accepted iff page >= 1, 1 <= size <= 100 and the enum values are known; absent ones default to page 1, size 20, posted_at, desc |
| ArticleSchema.DefaultFilterParams | backend/app/schemas/article.py:17-21 | with no parameters the listing asks for page 1 of 20, newest first |
| ArticleSchema.SchemaFromRow | backend/app/schemas/article.py:24-47 | flags absent from the row default to false (deleted and dead to Some(false)); present flags are kept as they are; every other field is copied unchanged |
| ArticleService.ListQueryFor | backend/app/services/article_service.py:10-17 | the query takes one page of size items and skips exactly the items of the earlier pages |
| ArticleService.TotalPages | backend/app/services/article_service.py:21 | the page count is the least number of pages of size items holding total items, 0 when size <= 0 |
| ArticleService.TotalPagesCoverItems | backend/app/services/article_service.py:21 | for a non-empty collection there is at least one page, and every item index falls on a page 1..total_pages |
| ArticleService.PageInRangeStartsInside | backend/app/services/article_service.py:10-21 | a request for any page up to total_pages never skips past the last item |
| ArticleService.NoItemsNoPages | backend/app/services/article_service.py:21 | an empty collection has zero pages |
| ArticleService.GetArticleList | backend/app/services/article_service.py:9-29 | one repository query; each row becomes its response record in order; total, page and size are echoed; total_pages is the ceiling |
| ArticleService.DetailSchema | backend/app/schemas/article.py:24-47 | validation of the detail data succeeds exactly when the database id and the favourites count are present; every field is then copied |
| ArticleService.Detail | backend/app/services/article_service.py:31-45 | 404 exactly when the article is missing; otherwise the data with the merged flags validated against the response schema, a failure being a server error |
| ArticleService.GetArticleDetailAsWritten | backend/app/services/article_service.py:31-45 | as written, every article that is found ends in a server error, because its data holds no favourites count |
| ArticleService.GetArticleDetail | backend/app/services/article_service.py:31-45 | with the favourites count defaulted: 404 exactly when the article is missing, a server error exactly when it has no id, otherwise its fields with both flags false without a user id and the interaction status with one |
| ArticleService.DetailLosesArticle | backend/app/services/article_service.py:36-45 | for a found article with an id, the corrected detail returns it with the merged flags and the detail as written fails |
| ArticleService.GetArticleContext | backend/app/services/article_service.py:47-58 | 404 exactly when the article is missing; each empty field is replaced by its placeholder, so text and content are never empty |
| TranslateService.OrNotAvailable | backend/app/services/translate_service.py:33-34 | a truthy value is kept, anything else becomes "N/A"; never empty |
| TranslateService.SafeScraped | backend/app/services/translate_service.py:35 | the content is the whole scraped text when it fits in 100000 characters, exactly its first 100000 characters otherwise, and "N/A" when absent |
| TranslateService.PromptLayout | backend/app/services/translate_service.py:37-44 | title, description, the rule and the content appear in the prompt in this order at the stated offsets |
| TranslateService.PromptFor | backend/app/services/translate_service.py:30-44 | no prompt exactly when title, text and content are all empty; otherwise the prompt holds the defaulted pieces |
| TranslateService.Interpret | backend/app/services/translate_service.py:46-76 | a result exactly when the call returned non-empty text that decodes to an object the schema accepts; every failure gives None |
| TranslateService.SummariseOne | backend/app/services/translate_service.py:23-76 | never fails; any result is a valid analysis; empty input gives None |
| TranslateService.AllEmptySkipsLlm | backend/app/services/translate_service.py:30-31 | with nothing to summarise the LLM is not consulted: any two LLMs give None |
| TranslateService.Get | backend/app/services/translate_service.py:89-91 | `get` returns the stored value for a present key and the default otherwise |
| TranslateService.SummariseBatch | backend/app/services/translate_service.py:78-97 | the batch answers exactly its input keys, each from its own input, with valid analyses only |
| TranslateService.GatherResults | backend/app/services/translate_service.py:85-95 | the gathered results follow the order of the ids, one per id |
| TranslateService.BatchIsZip | backend/app/services/translate_service.py:97 | zipping the ids with the gathered results gives the keyed batch |
| TranslateService.EmptyInputGivesNone | backend/app/services/translate_service.py:89 | an input with an empty title and nothing else is never summarised |
| ExtractionService.ExpectedHeaders | backend/app/services/extraction_service.py:11-15 | images are never retained; the bearer token is sent exactly when an API key is configured |
| ExtractionService.TargetFor | backend/app/services/extraction_service.py:20-23 | no request for an empty URL; otherwise the reader base followed by the URL |
| ExtractionService.TargetForInjective | backend/app/services/extraction_service.py:23 | distinct URLs are requested at distinct addresses |
| ExtractionService.ExtractionService.constructor | backend/app/services/extraction_service.py:9-17 | the headers built are the expected headers for the key |
| ExtractionService.ExtractionService.ExtractUrl | backend/app/services/extraction_service.py:19-39 | page text exactly when the URL is non-empty and the response has status 200; None on any other status, timeout or error |
| ExtractionService.ExtractionService.GatherResults | backend/app/services/extraction_service.py:41-44 | one result per URL, in order |
| ExtractionService.ExtractionService.ExtractBatchSpec | backend/app/services/extraction_service.py:41-45 | the batch answers exactly the URLs asked, each with its own extraction |
| NewsIngestor.UrlsOf | backend/app/core/news_ingestor.py:25-28 | exactly the truthy URLs of the stories are collected |
| NewsIngestor.ExtractedFor | backend/app/core/news_ingestor.py:30-33 | a context takes the map's answer for its URL whenever that answer is not None, and keeps its content otherwise |
| NewsIngestor.ValidOnly | backend/app/core/news_ingestor.py:36 | exactly the contexts passing the validity test are kept |
| NewsIngestor.StoryContext.constructor | backend/app/core/news_ingestor.py:21 | a fresh context has nothing extracted and no analysis |
| NewsIngestor.Values | backend/app/core/news_ingestor.py:21 | the values of the context objects, one per object in order |
| NewsIngestor.CreateContexts | backend/app/core/news_ingestor.py:21 | one fresh context per fetched story, in order |
| NewsIngestor.WithUrl | backend/app/core/news_ingestor.py:25 | the kept contexts are exactly those with a truthy URL |
| NewsIngestor.UrlsOfWithUrl | backend/app/core/news_ingestor.py:25-28 | the URL list sent to extraction is that of the initial contexts |
| NewsIngestor.ApplyExtraction | backend/app/core/news_ingestor.py:30-33 | every URL context takes its own page from the map, when the map has one |
| NewsIngestor.ValidContexts | backend/app/core/news_ingestor.py:36 | the filter keeps only contexts of the list |
| NewsIngestor.ValuesOfValidContexts | backend/app/core/news_ingestor.py:36 | the filtered objects hold exactly the filtered values |
| NewsIngestor.BuildAiInputs | backend/app/core/news_ingestor.py:38-45 | the input map built by the loop is the keyed specification |
| NewsIngestor.ApplyAiResults | backend/app/core/news_ingestor.py:47-50 | every valid context takes the batch's answer for its own id |
| NewsIngestor.SaveAll | backend/app/core/news_ingestor.py:53-67 | the save loop offers and stores what the save specification says; the counter counts exactly the stored articles |
| NewsIngestor.ExtractStage | backend/app/core/news_ingestor.py:25-33 | the extraction request and the contexts after it match the specification |
| NewsIngestor.SummariseStage | backend/app/core/news_ingestor.py:38-50 | the summarisation request and the contexts after it match the specification |
| NewsIngestor.Analyse | backend/app/core/news_ingestor.py:21-50 | extraction, filtering and summarisation agree with the specification |
| NewsIngestor.Run | backend/app/core/news_ingestor.py:14-81 | the run's results and every request it makes are those of the pipeline specification |
| NewsIngestor.EmptyFetchRunsNothing | backend/app/core/news_ingestor.py:16-19 | an empty fetch returns [] and calls nothing else |
| NewsIngestor.ExtractRequestIsTruthyUrls | backend/app/core/news_ingestor.py:25-28 | extraction is asked exactly when some story has a truthy URL, and for exactly those URLs |
| NewsIngestor.ExtractedIsOwnPage | backend/app/core/news_ingestor.py:28-33 | each context holds its own URL's page, or nothing |
| NewsIngestor.SummariseOnlyValid | backend/app/core/news_ingestor.py:36-45 | only valid contexts are summarised; no call when none is valid; the batch is keyed by their ids |
| NewsIngestor.SharedIdTakesLastInput | backend/app/core/news_ingestor.py:38-45 | two contexts sharing an id: the later one's input is sent |
| NewsIngestor.ValidUnsummarised | backend/app/core/news_ingestor.py:36 | no context holds an analysis before summarisation |
| NewsIngestor.AiResultIsOwnEntry | backend/app/core/news_ingestor.py:47-50 | each valid context holds the batch answer for its own id, which is a valid analysis |
| NewsIngestor.WithAiResultsOwnEntry | backend/app/core/news_ingestor.py:47-50 | results keyed by the contexts' ids give each context its own entry, valid analyses only |
| NewsIngestor.SaveStageSources | backend/app/core/news_ingestor.py:53-67 | every stored article was offered to the store, and every offered article comes from an analysed context |
| NewsIngestor.SaveStageExact | backend/app/core/news_ingestor.py:53-67 | the store is offered exactly the articles of the analysed contexts, in order, and the stored articles are exactly its successful answers, in order; a failed conversion or save skips one context and the loop goes on |
| NewsIngestor.OfferedHasEvery | backend/app/core/news_ingestor.py:56-60 | every analysed context whose conversion succeeds has its article offered to the store |
| NewsIngestor.SaveStageAppend | backend/app/core/news_ingestor.py:56-67 | the log of a longer run of saves is the earlier contexts' log followed by the later contexts' own log, whatever the earlier saves returned |
| NewsIngestor.SavedOnlyAnalysed | backend/app/core/news_ingestor.py:53-67 | at most one save per valid context; only analysed, valid contexts are saved; every analysed context's article is offered, in order, whatever the store answered before it; the stored articles are the store's successful answers, in order |
| NewsIngestor.VectoriseExactlySaved | backend/app/core/news_ingestor.py:69-81 | vectorisation is asked exactly when something was saved, with exactly the saved articles; its results are returned, and a failure gives [] |
| NewsIngestor.Backfill | backend/app/core/news_ingestor.py:83-101 | [] when the pending query raises or finds nothing; otherwise the vectorisation results of the pending articles, or [] when vectorisation raises |
| NewsIngestor.BackfillIsRunVectorisation | backend/app/core/news_ingestor.py:69-98 | a run's results are what the backfill returns when the pending articles are the ones the run saved |
| NewsIngestor.BackfillIgnoresLimit | backend/app/core/news_ingestor.py:83-89 | the limit argument has no effect: the query always asks for 10 |
| ChatService.ConvertOne | backend/app/services/chat_service.py:46-50 | user becomes a human message, assistant an AI message, any other role nothing |
| ChatService.ConvertHistory | backend/app/services/chat_service.py:44-51 | the loop's output is the converted history |
| ChatService.ConvertedAppend | backend/app/services/chat_service.py:44-51 | conversion distributes over concatenation, so the order is kept |
| ChatService.ConvertedLength | backend/app/services/chat_service.py:44-51 | no longer than the history; exactly as long iff every role is known |
| ChatService.MetaField | backend/app/services/chat_service.py:90-92 | the metadata value when the key is present, the default when the key or the metadata is absent, and a failure exactly when the metadata is null |
| ChatService.BuildRagContext | backend/app/services/chat_service.py:84-98 | the fixed message for no results; a failure exactly when some result's metadata is null; otherwise the numbered blocks joined by line breaks |
| ChatService.BlocksInOrder | backend/app/services/chat_service.py:89-98 | each result's block appears at its own offset, in search order, one line break apart |
| ChatService.MissingFieldsDefault | backend/app/services/chat_service.py:90-94 | a result with no metadata and no content is listed under the placeholders |
| ChatService.NullContentRendersNone | backend/app/services/chat_service.py:93-95 | a null content is rendered as the text "None" at the end of its block |
| ChatService.RewrittenQuery | backend/app/services/chat_service.py:72-82 | the query is the LLM's rewrite stripped of surrounding whitespace, with no whitespace left at its ends |
| ChatService.GlobalChatInputFor | backend/app/services/chat_service.py:100-117 | the context is built from five search results for the rewritten query; history and message are passed on; the chat fails exactly when a result's metadata is null |
| ChatRepository.CacheKey | backend/app/repositories/chat_repository.py:130 | the key is "chat:" followed by the conversation id |
| ChatRepository.CacheKeyInjective | backend/app/repositories/chat_repository.py:130 | distinct conversations never share a cache list |
| ChatRepository.CachedAll | backend/app/repositories/chat_repository.py:152 | the cache keeps role and content of each row, in order |
| ChatRepository.ReversedInvolution | backend/app/repositories/chat_repository.py:151 | reversing twice gives back the original order |
| ChatRepository.ReverseInPlace | backend/app/repositories/chat_repository.py:151 | the array afterwards holds the reversal of its old contents |
| ChatRepository.TrimToLimit | backend/app/repositories/chat_repository.py:135-136 | the last limit entries for a positive limit; Python slice semantics for 0 and negative limits |
| ChatRepository.TrimKeepsNewest | backend/app/repositories/chat_repository.py:135-137 | with a positive limit the newest entry is returned last |
| ChatRepository.ChatRepository.CachedList | backend/app/repositories/chat_repository.py:132 | the list under the key, empty iff the key is absent |
| ChatRepository.ChatRepository.AddMessage | backend/app/repositories/chat_repository.py:105-125 | with a declared expiry setting: true iff the insert succeeds; then exactly one entry is pushed on the conversation's list; otherwise the cache is unchanged |
| ChatRepository.ChatRepository.AddMessageAsWritten | backend/app/repositories/chat_repository.py:105-125 | as written: always false; a successful insert still pushes exactly one entry, a failed one leaves the cache unchanged |
| ChatRepository.AddMessageLosesSuccess | backend/app/repositories/chat_repository.py:114-125 | a successful insert pushes the same entry in both versions, but only the corrected one returns true |
| ChatRepository.ChatRepository.GetMessages | backend/app/repositories/chat_repository.py:127-163 | with a declared expiry setting: a hit returns the trimmed cached list and changes nothing; a miss asks the database for the conversation's newest `limit` rows, returns them oldest first and refills the key with exactly them; a miss with no rows or a failed query gives [] and no change |
| ChatRepository.ChatRepository.Refill | backend/app/repositories/chat_repository.py:148-156 | the rows are returned reversed, oldest first, and the key holds exactly their role and content in that order |
| ChatRepository.ChatRepository.GetMessagesAsWritten | backend/app/repositories/chat_repository.py:127-163 | as written: hits as in GetMessages; a miss with rows refills the key with them but returns [] |
| ChatRepository.GetMessagesLosesRows | backend/app/repositories/chat_repository.py:146-163 | a miss with rows refills the cache alike in both versions, but only the corrected one returns the rows |
| ChatRepository.ChatRepository.DeleteConversation | backend/app/repositories/chat_repository.py:86-101 | true iff the delete succeeds; then exactly the conversation's key is removed |
| ChatRepository.ConversationQueryFor | backend/app/repositories/chat_repository.py:43-53 | the article filter is applied iff the article id is truthy; the range starts at skip and holds limit rows |
| ChatRepository.ConversationPagesTile | backend/app/repositories/chat_repository.py:52-53 | consecutive pages neither overlap nor leave a gap |
| ChatRepository.GetUserConversations | backend/app/repositories/chat_repository.py:43-60 | the query's rows, or [] when it fails |
| ChatRepository.AwaitToThread | backend/app/repositories/chat_repository.py:34 | a callable runs; a response object raises |
| ChatRepository.IdOf | backend/app/repositories/chat_repository.py:36-38 | the id exactly when the insert returned a row holding one |
| ChatRepository.CreateConversationAsWritten | backend/app/repositories/chat_repository.py:21-41 | as written, every call returns None |
| ChatRepository.CreateConversation | backend/app/repositories/chat_repository.py:21-41 | the new id exactly when the insert returns one |
| ChatRepository.CreateConversationLosesId | backend/app/repositories/chat_repository.py:34 | an insert returning id "c1": the corrected function gives "c1", the code as written gives None |
| ChatStore.OpenForgetsPrior | frontend/src/stores/chat.ts:17 | opening sets every field from its arguments, whatever the state before |
| ChatStore.CloseIdempotent | frontend/src/stores/chat.ts:18 | closing twice is closing once; closing keeps the mode |
| ChatStore.OpenThenClose | frontend/src/stores/chat.ts:17-18 | closing after opening leaves only the mode that was opened |
| ChatStore.ChatStore.constructor | frontend/src/stores/chat.ts:13-16 | closed, global, no article |
| ChatStore.ChatStore.OpenChat | frontend/src/stores/chat.ts:17 | the new state is the opened state |
| ChatStore.ChatStore.CloseChat | frontend/src/stores/chat.ts:18 | the new state is the closed state |
| HomePage.PageRequest | frontend/src/app/page.tsx:32-33 | twelve articles, newest first; the request is valid iff the page is >= 1 |
| HomePage.NextPageParam | frontend/src/app/page.tsx:35-36 | the next page exactly while the page is below the total |
| HomePage.ScrollVisitsEveryPage | frontend/src/app/page.tsx:34-36 | from page 1 the scroll asks for exactly pages 1..total_pages in order |
| HomePage.ScrollStaysInside | frontend/src/app/page.tsx:32-36 | every page the scroll asks for is valid and starts inside the collection |
| ChatStream.RequestFor | frontend/src/hooks/use-chat-stream.ts:35-39 | the article endpoint iff article mode with a truthy id; message and conversation id are passed |
| ChatStream.ResponseCheck | frontend/src/hooks/use-chat-stream.ts:41-43 | no error iff the body is present, the status is not 401 and ok; otherwise the matching message |
| ChatStream.ErrorReply | frontend/src/hooks/use-chat-stream.ts:91-96 | the replacement is an assistant message starting "Error: " |
| ChatStream.ReplaceLast | frontend/src/hooks/use-chat-stream.ts:75-80 | the length and earlier messages are kept; the last is replaced |
| ChatStream.ReplaceLastForError | frontend/src/hooks/use-chat-stream.ts:93-96 | the last message is replaced, or the message alone on an empty list |
| ChatStream.SecondLine | frontend/src/hooks/use-chat-stream.ts:62-84 | the second line of the block exactly when it has one |
| ChatStream.ChatStream.constructor | frontend/src/hooks/use-chat-stream.ts:7-9 | no messages, not loading, no conversation |
| ChatStream.ChatStream.HandleBlock | frontend/src/hooks/use-chat-stream.ts:60-88 | one block's effect is that of the block specification |
| ChatStream.ChatStream.ReadBlocks | frontend/src/hooks/use-chat-stream.ts:59-88 | the complete blocks are processed in order up to the first that throws |
| ChatStream.ChatStream.ReadStream | frontend/src/hooks/use-chat-stream.ts:50-89 | the read loop's effect is that of the chunk specification |
| ChatStream.ChatStream.Receive | frontend/src/hooks/use-chat-stream.ts:41-89 | the checks, then the read; the exception raised is that of the exchange specification |
| ChatStream.ChatStream.SendMessage | frontend/src/hooks/use-chat-stream.ts:12-100 | the new state is the specified state after a send |
| ChatStream.ChatStream.ResetChat | frontend/src/hooks/use-chat-stream.ts:102-105 | no messages and no conversation; loading untouched |
| ChatStream.ErrorStops | frontend/src/hooks/use-chat-stream.ts:83-87 | after a block throws, later blocks change nothing |
| ChatStream.StepBlocksAppend | frontend/src/hooks/use-chat-stream.ts:59-88 | processing two runs of blocks is processing their concatenation |
| ChatStream.StepBlocksBuffer | frontend/src/hooks/use-chat-stream.ts:55-59 | blocks neither read nor change the buffer |
| ChatStream.DoneBlockIgnored | frontend/src/hooks/use-chat-stream.ts:67-70 | a "data: [DONE]" block changes nothing |
| ChatStream.DataBlockAppends | frontend/src/hooks/use-chat-stream.ts:67-82 | any other data block appends its unescaped payload and shows it in the last message |
| ChatStream.EventDataLine | frontend/src/hooks/use-chat-stream.ts:62-84 | the data line of an event block is its second line |
| ChatStream.NewConversationBlock | frontend/src/hooks/use-chat-stream.ts:61-66 | a new_conversation event sets the trimmed id and nothing else |
| ChatStream.ErrorBlock | frontend/src/hooks/use-chat-stream.ts:83-87 | an error event throws its data, or "Unknown error" when empty |
| ChatStream.BareErrorBlock | frontend/src/hooks/use-chat-stream.ts:83-87 | an error event without a data line throws "Unknown error" |
| ChatStream.StepChunksKeepEarlier | frontend/src/hooks/use-chat-stream.ts:50-89 | the read keeps the number of messages and all but the last, and the last shows the answer |
| ChatStream.BufferHasNoSeparator | frontend/src/hooks/use-chat-stream.ts:55-57 | after every chunk the buffer holds no blank line |
| ChatStream.ReadIsCompleteBlocks | frontend/src/hooks/use-chat-stream.ts:50-89 | however the stream is chunked, exactly the complete blocks of all the text are processed, in order; the unfinished tail stays in the buffer |
| ChatStream.AnswerIsPayloads | frontend/src/hooks/use-chat-stream.ts:67-82 | when no block throws, the answer grows by the payloads of the blocks, in order |
| ChatStream.ReplyIsStreamedAnswer | frontend/src/hooks/use-chat-stream.ts:25-89 | the placeholder ends holding the payloads of all complete blocks; earlier messages are untouched |
| ChatStream.ChunkingDoesNotMatter | frontend/src/hooks/use-chat-stream.ts:50-89 | two chunkings of the same text give the same answer, messages, conversation id and error |
| ChatStream.SignedOutMakesNoRequest | frontend/src/hooks/use-chat-stream.ts:17-23 | without a token no request is made; the message and the sign-in reply are appended |
| ChatStream.ExchangeOfPlaced | frontend/src/hooks/use-chat-stream.ts:34-96 | the messages before the placeholder are kept; no exception exactly when the checks pass, no block throws and the body is read to its end, and then the placeholder holds the streamed answer |
| ChatStream.SendAddsExchange | frontend/src/hooks/use-chat-stream.ts:12-100 | exactly two messages are added; loading ends; the reply is the streamed answer, or an "Error: " message on any failure |

## Left out

- Network, database, Redis, HTTP, LLM and vector-store calls are function parameters returning their outcome. Their own behaviour is not modelled.
- ChatRepository.ChatRepository.GetMessages: the database is a function of the message query. That it returns at most `limit` rows of that conversation, newest first, is the database's behaviour and is not modelled, so a miss returns whatever rows the query gives.
- Concurrency: `asyncio.gather` fan-outs and semaphores are modelled as sequential calls in order. Interleavings are not modelled.
- Redis key expiry (`expire`) and Redis failures are not modelled. The cache is a map of lists, and a Redis exception inside the repository's `try` is not modelled.
- JSON encoding and decoding of cached messages is taken to round-trip. The cache stores role and content as values.
- The client's `TextDecoder`: the body arrives already decoded into text chunks.
- The 200 ms `setTimeout` of the signed-out reply: both messages are appended at once.
- Logging is not modelled; it does not change results.
- The `monitor` decorator that wraps `NewsIngestor.run`, `extract_batch` and `translate_and_summarize_batch` is not part of this model. Its code is not shown; it is assumed to return the wrapped function's result and let its exceptions through unchanged.
- ArticleService.Detail: the article repository's lookup is a parameter. An article it returns without its database id fails validation, which the model keeps as the server-error outcome.
- ChatRepository.ChatRepository.AddMessage, ChatRepository.ChatRepository.GetMessages: the corrected methods assume a declared expiry setting; the expiry itself is not modelled.
- TotalPages: `math.ceil(total / size)` goes through a float. It is modelled as the exact integer ceiling.
- The vector service's chunking, embeddings and similarity search are not part of this model. The search is a parameter returning results.
- ChatService.GlobalChatInputFor: the streaming of the LLM's answer and the saving of the exchange are not modelled. The model stops at the input handed to the answering chain.
- `get_conversation_by_id` and `update_conversation_timestamp` are not modelled. They are single database calls with no logic of their own.
- The article repository, interaction repository and chunk repository are not part of this model. Their answers are parameters.
- NewsIngestor: `has_valid_content` and `to_article` are parameters. The contexts start with no extraction and no analysis.
- ArticleModel.Article: the thread metadata (kids, parent, poll, parts), image URLs and comment analyses are not modelled.
- React rendering, routing and the UI components are not modelled.
- ChatStream.ChatStream.ReadStream: a read that fails in the middle of the stream is modelled as failing after the chunks received (`StreamEnd`).
- NewsIngestor.Backfill: the selection of articles without embeddings is a parameter.

## Findings

| source | as written | input that shows it | evidently intended | confidence | as-written member | corrected member |
|---|---|---|---|---|---|---|
| backend/app/repositories/chat_repository.py:34 | `asyncio.to_thread(query.execute())` runs the insert eagerly and hands its response to `to_thread`, which raises `TypeError` when awaited | an insert returning `{"id": "c1"}`: the row is inserted but `create_conversation` returns `None` | `asyncio.to_thread(query.execute)`, returning `"c1"` | not executed | ChatRepository.CreateConversationAsWritten | ChatRepository.CreateConversation |
| backend/app/repositories/chat_repository.py:120 | `redis.expire(cache_key, settings.redis_cache_expire_seconds)` reads a setting the settings class does not declare; the `AttributeError` is caught and `add_message` returns `False` | a successful insert of any message: the row is inserted and the entry pushed, but the result is `False` | a declared expiry setting, so a stored message returns `True` | not executed | ChatRepository.ChatRepository.AddMessageAsWritten | ChatRepository.ChatRepository.AddMessage |
| backend/app/repositories/chat_repository.py:157 | the same undeclared setting is read after a miss refills the cache; the `except` returns `[]` | a cache miss for a conversation with stored rows: the cache is refilled but `get_messages` returns `[]` | the rows, oldest first | not executed | ChatRepository.ChatRepository.GetMessagesAsWritten | ChatRepository.ChatRepository.GetMessages |
| backend/app/services/article_service.py:45 | `ArticleSchema.model_validate(article_data)` on `Article.model_dump()` plus the flags; the dump has no `favorites_count`, which the schema requires | any article that is found: validation raises and the request ends in a server error | `favorites_count` defaulted like the per-user flags, so the article is returned with its merged flags | not executed | ArticleService.GetArticleDetailAsWritten | ArticleService.GetArticleDetail |
