# Real-estate RAG assistant — a verified model of its core

The assistant answers questions about properties and their neighbourhoods. It does this with retrieval-augmented generation over a Pinecone vector index. This project models the logic that sits between the user interface and the remote services:

- **Upload form** (`FileUpload`, `chunking.dfy`):
  - cutting an uploaded text into chunks at the separators the user typed (the plain and the "advanced" split, and the preview);
  - turning the question-example field into one question per line;
  - giving a manual category precedence over the AI classification when the chunk metadata is built.
- **Vector index** (`Pinecone`, `vector_index.dfy`):
  - the text each chunk is embedded from, and the metadata record written for it;
  - the batched upload. Chunks that fail go to a retry set, which is uploaded again recursively;
  - the bounded retry with a doubling delay around every remote call;
  - the similarity-threshold filter of a query, and its session override;
  - the two converters of the stored answer examples.
- **Answering service** (`LangChainService`, `langchain.dfy`):
  - how retrieved documents and advanced-search matches become the prompt context and the search details;
  - how a retrieval or answering failure becomes an error record, distinguishing the quota error;
  - the "no context" instruction;
  - rebuilding the conversation history from the chat page;
  - cutting the history down to a token budget before it is sent (class `ChatMessageHistory`).
- **Templates and example generation** (`ResponseTemplates`, `response_templates.dfy`):
  - the three answer templates and `format_response`;
  - the parsers that turn a language-model reply into question examples or question/answer pairs.
- **Category classifier** (`CategoryClassifier`, `categories.dfy`):
  - the two-level taxonomy and its getters;
  - how the taxonomy is rendered into the prompt;
  - extracting and validating the JSON reply, with the fallback record on any failure;
  - classifying a list of chunks.
- **`Strings`** (`strings.dfy`): the Python `str` operations the code relies on (`strip`, `find`, `split`, `join`, `replace`, slicing).

**Remote services are parameters, not code.** The OpenAI embedding and chat models, the Pinecone upsert and query, the advanced search service, `tiktoken` and `json.loads` are modelled as functions passed in:

- an embedding or upsert oracle answers per attempt, so a flaky service is one that fails on some attempts;
- the token counter is any `string -> nat`.

**Imperative code stays imperative.** Loops in the source are Dafny methods with loop invariants. Each method is proved equal to a specification function, and the properties are proved about that function. The upload service and the conversation history are classes whose fields the methods update.

## Model

| member | source | states |
|---|---|---|
| Strings.Strip | src/components/file_upload.py:124 | `str.strip()` returns a string no longer than the input with no whitespace at either end, which is empty exactly when the input is all whitespace. |
| Strings.StripRemovesOuterSpace | src/components/file_upload.py:124 | The result of `str.strip()` is a slice of the input with only whitespace before and after it. |
| Strings.StripIdempotent | src/components/file_upload.py:176 | Stripping a string twice gives the same result as stripping it once. |
| Strings.FindFrom | src/services/response_templates.py:128 | `str.find`: the index found is an occurrence and no earlier occurrence exists; no index is found only when there is no occurrence |
| Strings.IndexOfChar | src/services/category_classifier.py:136 | `str.find` of one character: None exactly when the character is absent, otherwise its first position |
| Strings.LastIndexOfChar | src/services/category_classifier.py:137 | `str.rfind` of one character: None exactly when the character is absent, otherwise its last position |
| Strings.Split | src/components/file_upload.py:116 | `str.split(sep)` yields at least one part and no part contains the separator |
| Strings.SplitJoin | src/components/file_upload.py:116 | joining the parts of a split with the separator gives back the original text |
| Strings.JoinSplitChar | src/services/langchain_service.py:246 | splitting at a character the parts do not contain gives back the joined parts |
| Strings.SplitAroundSeparator | src/components/file_upload.py:171 | a text with exactly one separator occurrence splits into the text before it and the text after it |
| Strings.SplitWithoutSeparator | src/components/file_upload.py:186-191 | a text without the separator is one part |
| Strings.ReplaceLeadingOnly | src/services/pinecone_service.py:509 | `replace(prefix, "")` on a text starting with a prefix that occurs nowhere else removes exactly that prefix |
| Strings.PyPrefix | src/services/response_templates.py:140 | `s[:n]` with Python's meaning of a negative `n`: a prefix of `s` of the length Python gives |
| FileUpload.Digits | src/components/file_upload.py:127 | `str(i)` of a chunk index is a non-empty string of decimal digits with no leading zero unless the index is 0. |
| FileUpload.DigitsValue | src/components/file_upload.py:127 | Reading the digits of a chunk index back as a decimal number gives the index itself. |
| FileUpload.ManualChunkIdInjective | src/components/file_upload.py:127 | Two different chunk indexes give two different "manual_chunk_" ids. |
| FileUpload.NonEmptyStrippedExact | src/components/file_upload.py:123-125 | the kept texts are exactly the non-empty stripped parts |
| FileUpload.NonEmptyStrippedAppend | src/components/file_upload.py:175-178 | keeping the non-empty stripped parts distributes over concatenation |
| FileUpload.QuestionExampleList | src/components/file_upload.py:290-292 | the question-example list is the non-empty stripped lines of the field |
| FileUpload.BlankInputHasNoLines | src/components/file_upload.py:291 | a blank field gives no question examples, so the `strip()` guard changes nothing |
| FileUpload.ParseSeparators | src/components/file_upload.py:112 | every separator is non-empty and stripped |
| FileUpload.SeparatorFieldOfOne | src/components/file_upload.py:112 | a single stripped, non-empty separator line parses to exactly that separator |
| FileUpload.ManualParts | src/components/file_upload.py:109-120 | the plain split always has at least one part |
| FileUpload.ManualChunkSplit | src/components/file_upload.py:105-135 | the loop yields one chunk per non-empty stripped part, numbered with the part's index |
| FileUpload.IndexedChunksSound | src/components/file_upload.py:123-133 | each chunk's text is its part stripped, non-empty, and its id and index come from the part's position |
| FileUpload.IndexedChunksIncreasing | src/components/file_upload.py:123-133 | chunk indexes are below the number of parts and strictly increasing |
| FileUpload.IndexedChunksComplete | src/components/file_upload.py:123-133 | every part that is not blank after stripping has a chunk |
| FileUpload.IndexedChunkTexts | src/components/file_upload.py:123-133 | the chunk texts are, in order, the non-empty stripped parts |
| FileUpload.IndexGapAfterLeadingSeparator | src/components/file_upload.py:123-131 | a text starting with the separator gives its first chunk index 1, not 0 |
| FileUpload.AdvancedManualChunkSplit | src/components/file_upload.py:137-221 | the advanced loop computes the advanced chunk list |
| FileUpload.EmitSubParts | src/components/file_upload.py:195-207 | sub parts are emitted as the non-empty stripped ones, numbered on from the running index |
| FileUpload.ChunkParts | src/components/file_upload.py:175-219 | the per-part loop numbers the texts of all parts consecutively from 0 |
| FileUpload.Numbered | src/components/file_upload.py:198-219 | chunk k has index k, its text, and the separators used |
| FileUpload.PreviewChunks | src/components/file_upload.py:223-225 | the preview is the advanced split |
| FileUpload.AdvancedChunksWellFormed | src/components/file_upload.py:137-221 | advanced chunks are numbered 0, 1, 2, … with non-empty stripped texts; they carry the separators whenever a separator was usable |
| FileUpload.NoSeparatorWholeText | src/components/file_upload.py:141-168 | with no usable separator the result is the whole stripped text as chunk 0, or nothing when the text is blank |
| FileUpload.SingleSeparatorTexts | src/components/file_upload.py:208-219 | with one separator the texts are the non-empty stripped parts |
| FileUpload.LaterSeparatorsIgnored | src/components/file_upload.py:185-192 | the loop over the extra separators stops at the first one, so separators after the second never matter |
| FileUpload.SameFirstTwoSeparators | src/components/file_upload.py:171-192 | two separator fields that agree on their first two separators produce the same chunk texts |
| FileUpload.DashedExample | src/components/file_upload.py:137-221 | "A\n---\nB\n---\n" with separator "---" gives chunks "A" (index 0) and "B" (index 1) |
| FileUpload.BuildMetadata | src/components/file_upload.py:534-554 | a non-empty manual main category wins over the AI classification; the AI classification's fields, defaulting to "" and 0.0, are used otherwise; with neither, the categories stay ""; city, source and question examples come from the form |
| FileUpload.SavedSplitChunksUncategorised | src/components/file_upload.py:523-554 | A chunk straight from the manual split gets "" for both categories and no AI fields in its metadata. |
| FileUpload.PrepareChunks | src/components/file_upload.py:532-563 | every chunk of the array is updated in place to its prepared form |
| FileUpload.PreparedKeepsChunk | src/components/file_upload.py:556-563 | preparing keeps the id, the text, the categories and the AI classification, sets `chunk_id` to the id and the file name; preparing twice is preparing once |
| Pinecone.Doubling | src/services/pinecone_service.py:105-109 | the delays of n failed attempts start at the first delay and there are n of them |
| Pinecone.RetryFrom | src/services/pinecone_service.py:96-111 | at most three attempts; every attempt before the last failed; success means the last attempt succeeded; failure means all three failed; the delays double |
| Pinecone.AllAttemptsFail | src/services/pinecone_service.py:96-111 | an always-failing call makes three attempts, sleeping d and then 2d |
| Pinecone.RetryDelaySchedules | src/services/pinecone_service.py:93-109 | the embedding retry sleeps at most 1 s then 2 s; the upsert retry of lines 223-238 at most 2 s then 4 s |
| Pinecone.RetryLoop | src/services/pinecone_service.py:96-111 | the retry loop computes the retry run of the specification |
| Pinecone.Embedding | src/services/pinecone_service.py:91-111 | an embedding is returned exactly when one of the three attempts succeeds, and it is that attempt's vector |
| Pinecone.GetEmbedding | src/services/pinecone_service.py:91-111 | `get_embedding` returns the specified embedding; its sleeps are a prefix of 1 s, 2 s |
| Pinecone.RenderAnswers | src/services/pinecone_service.py:144-154 | the answer examples render exactly when they are uniformly dicts or uniformly strings |
| Pinecone.SearchText | src/services/pinecone_service.py:137-157 | without examples the search text is the chunk text; with examples it exists exactly when they are uniform, and it is the "回答例:" line, a "Q: …" and an "A: …" line per dict (or the string itself), a blank line and the chunk text, joined by newlines |
| Pinecone.SearchTextSplitsIntoLines | src/services/pinecone_service.py:138-157 | when no line holds a newline, splitting the search text at newlines gives back the title, every example line in order, the blank line and the chunk text |
| Pinecone.BareChunkDefaults | src/services/pinecone_service.py:162-186 | a chunk without metadata gets the documented defaults (empty strings, `False`, "static", zero distances) |
| Pinecone.NoneCoordinatesBecomeZero | src/services/pinecone_service.py:176-177 | missing latitude or longitude become 0 |
| Pinecone.RecordCarriesChunk | src/services/pinecone_service.py:162-216 | the record has the chunk's id, and its metadata has the chunk's text and search text |
| Pinecone.ToStrings | src/services/pinecone_service.py:472-493 | converting to strings never makes the list longer |
| Pinecone.ConvertAnswerExamplesToStrings | src/services/pinecone_service.py:472-493 | the loop computes the specified conversion |
| Pinecone.ToStringsAppend | src/services/pinecone_service.py:472-493 | the conversion works element by element |
| Pinecone.ToStringsDropsOnlyEmptyDicts | src/services/pinecone_service.py:478-489 | only a dict with an empty question and an empty answer is dropped |
| Pinecone.FromStrings | src/services/pinecone_service.py:495-526 | converting back keeps the length |
| Pinecone.ConvertAnswerExamplesFromStrings | src/services/pinecone_service.py:495-526 | the loop computes the specified conversion |
| Pinecone.PlainStringBecomesAnswer | src/services/pinecone_service.py:505-523 | a string without the markers becomes an example with an empty question and that string as the answer |
| Pinecone.ExampleRoundTrip | src/services/pinecone_service.py:472-526 | every storable example converts to a string and back to itself |
| Pinecone.ConvertersRoundTrip | src/services/pinecone_service.py:472-526 | converting a list of storable examples to strings and back gives the list back |
| Pinecone.Batches | src/services/pinecone_service.py:124-125 | the batches concatenate to the chunks; each is non-empty and at most `batch_size`; all but the last are full |
| Pinecone.EmbedChunk | src/services/pinecone_service.py:133-220 | A chunk becomes a record exactly when its search text can be built and embedded, and the record carries the chunk's id and text, that embedding and that search text. |
| Pinecone.EmbedBatch | src/services/pinecone_service.py:130-220 | every chunk of a batch goes either to the vectors or to the retry set |
| Pinecone.EmbedBatchPartitions | src/services/pinecone_service.py:130-220 | the ids of the vectors and of the retry set are, as a multiset, the ids of the batch |
| Pinecone.EmbedBatchRoutes | src/services/pinecone_service.py:133-220 | a chunk is in the retry set exactly when it could not be rendered or embedded |
| Pinecone.Upload | src/services/pinecone_service.py:113-250 | an empty chunk list does nothing; no upsert is ever sent with no vectors |
| Pinecone.AbortIsFinal | src/services/pinecone_service.py:222-250 | once an upsert fails after three attempts, later batches are not processed |
| Pinecone.UploadAccountsForEveryChunk | src/services/pinecone_service.py:113-250 | unless the run raised, the ids written are, as a multiset, exactly the chunk ids: every chunk is written exactly once |
| Pinecone.UnrenderableMakesUploadRaise | src/services/pinecone_service.py:144-249 | a chunk whose answer examples mix dicts and strings fails at every depth, so the upload recurses until the recursion limit and raises |
| Pinecone.ReliableServicesUploadEverything | src/services/pinecone_service.py:113-250 | with renderable chunks and embedding and upsert always succeeding, the upload does not raise |
| Pinecone.OddBatchSizes | src/services/pinecone_service.py:124 | batch size 0 aborts the upload, because `range` raises; a negative batch size silently uploads nothing |
| Pinecone.EmbedBatchChunks | src/services/pinecone_service.py:130-220 | the per-batch embedding loop computes the specified partition |
| Pinecone.PineconeService.UpsertBatch | src/services/pinecone_service.py:222-240 | the batch is upserted exactly when one of three attempts succeeds; the log records it then |
| Pinecone.PineconeService.UploadChunks | src/services/pinecone_service.py:113-250 | the upload appends exactly the batches of the specified run to the record of upserts, and returns whether it raised |
| Pinecone.PineconeService.UploadInBatches | src/services/pinecone_service.py:124-247 | the batch loop follows the specified run batch by batch |
| Pinecone.PineconeService.ProcessBatch | src/services/pinecone_service.py:129-245 | one batch is embedded, written and its retry set uploaded again, as specified |
| Pinecone.PineconeService.WriteBatch | src/services/pinecone_service.py:222-240 | the vectors of a batch are upserted only when there are any |
| Pinecone.FilterByThreshold | src/services/pinecone_service.py:284-287 | filtering never adds matches |
| Pinecone.FilterKeepsExactly | src/services/pinecone_service.py:284-287 | a match is kept exactly when its score reaches the threshold |
| Pinecone.FilterKeepsOrder | src/services/pinecone_service.py:284-287 | the filter works element by element and keeps the order |
| Pinecone.HigherThresholdFiltersFurther | src/services/pinecone_service.py:284-287 | filtering at a higher threshold equals filtering twice |
| Pinecone.QueryResultOf | src/services/pinecone_service.py:284-301 | the counts are the numbers of candidates and of kept matches; the kept matches are exactly those reaching the threshold |
| Pinecone.EffectiveThreshold | src/services/pinecone_service.py:258-259 | the session's threshold applies only when the caller passed the default |
| Pinecone.QueryOutcome | src/services/pinecone_service.py:252-310 | A query answers exactly when one of its three attempts succeeds, and then returns the filtered result of the first successful attempt, whose matches all reach the effective threshold and carry a "text" entry. |
| Pinecone.QueryOverTextRecords | src/services/pinecone_service.py:290-293 | When every candidate the index returns carries a "text" entry, a query answers exactly when the index answers one of the three attempts. |
| Pinecone.Query | src/services/pinecone_service.py:252-310 | the query's retry loop computes the specified outcome |
| LangChainService.Shorten | src/services/langchain_service.py:214-219 | a short value is kept; a long one becomes its first n characters and "..." |
| LangChainService.SimplifyMetadata | src/services/langchain_service.py:210-214 | exactly the string-valued keys are kept, each value shortened to 100 characters |
| LangChainService.SimplifyDocuments | src/services/langchain_service.py:207-227 | the loop simplifies every document, in order |
| LangChainService.KeepStringMetadata | src/services/langchain_service.py:210-214 | the metadata loop computes the simplified metadata |
| LangChainService.KeepScoringExactly | src/services/langchain_service.py:230-233 | a document is kept exactly when its score reaches the threshold |
| LangChainService.BasicContextLines | src/services/langchain_service.py:244-249 | no kept document gives an empty context; otherwise, when contents have no newline, the context's lines are the kept contents, each at most 503 characters |
| LangChainService.DetailOf | src/services/langchain_service.py:257-266 | A document's detail has its score, its first 100 content characters followed by "...", and its `chunk_id` or "不明" when it has none. |
| LangChainService.BasicSearchResult | src/services/langchain_service.py:188-270 | The basic search returns the joined context of the documents reaching the threshold, one detail per kept document in order, and the context's token count. |
| LangChainService.AdvancedDetail | src/services/langchain_service.py:166-179 | A match's detail shows its adjusted score when there is one, else its raw score, its first 100 text characters followed by "...", and its chunk id or "不明". |
| LangChainService.AdvancedSearchResult | src/services/langchain_service.py:155-186 | No matches give ("", [], 0); otherwise the context is the match texts joined by newlines, with one detail per match in order and the context's token count. |
| LangChainService.AdvancedContextLines | src/services/langchain_service.py:161 | when match texts have no newline, the context's lines are the match texts |
| LangChainService.ErrorContext | src/services/langchain_service.py:123-141 | A failed retrieval gives an empty context, no tokens and one error record, which is the fixed quota message, type and action exactly when the message mentions `insufficient_quota`, and otherwise the original message with type "Unknown Error" and no action. |
| LangChainService.RelevantContext | src/services/langchain_service.py:114-141 | a successful search is passed through unchanged; a failure becomes the error context |
| LangChainService.PromptContext | src/services/langchain_service.py:307-311 | a blank context is replaced by the "no information" instruction; the result is never blank |
| LangChainService.ResponseFailure | src/services/langchain_service.py:388-407 | A failed answer records the original message with type "API Quota Error" when it mentions `insufficient_quota` and "Unknown Error" otherwise, and replies with the fixed quota text or "エラーが発生しました：" followed by the message. |
| LangChainService.HistoryMessages | src/services/langchain_service.py:314-320 | the rebuilt history has no more messages than the chat and no system message |
| LangChainService.HistoryMessagesKeepsEntries | src/services/langchain_service.py:314-320 | every "human" and "ai" entry becomes a message of its kind and every message comes from such an entry; with no other role, nothing is dropped |
| LangChainService.HistoryMessagesAppend | src/services/langchain_service.py:316-320 | rebuilding works entry by entry |
| LangChainService.OtherRolesDropped | src/services/langchain_service.py:317-320 | an entry whose role is neither "human" nor "ai" is dropped |
| LangChainService.SystemMessages | src/services/langchain_service.py:430-433 | a message is among the system messages exactly when it is a system message of the history |
| LangChainService.OtherMessages | src/services/langchain_service.py:430-434 | a message is among the others exactly when it is a non-system message of the history |
| LangChainService.PartitionKeepsAll | src/services/langchain_service.py:430-434 | system and other messages together are the history, as a multiset |
| LangChainService.Insert | src/services/langchain_service.py:449 | inserting into a sorted list keeps it sorted by tokens and adds exactly that message |
| LangChainService.SortByTokens | src/services/langchain_service.py:449 | the sort is ordered by token count and is a permutation |
| LangChainService.Fill | src/services/langchain_service.py:451-457 | the messages added are a prefix of the sorted candidates |
| LangChainService.FillWithinBudget | src/services/langchain_service.py:451-457 | the added messages fit the remaining budget; a negative budget adds none; the loop stops only at a message that does not fit |
| LangChainService.Important | src/services/langchain_service.py:430-439 | every system message and the latest other message are kept as important |
| LangChainService.ImportantAndRest | src/services/langchain_service.py:430-439 | the important and the remaining messages together are the history |
| LangChainService.WithinBudgetUnchanged | src/services/langchain_service.py:411-423 | an empty history or one within the available tokens is left unchanged |
| LangChainService.OptimizedKeepsImportant | src/services/langchain_service.py:430-460 | the optimised history is a sub-multiset of the old one; it keeps every system message and the latest other message |
| LangChainService.OptimizedTotal | src/services/langchain_service.py:442-457 | when the history is over budget and the important messages fit the available tokens, so does the result; when they do not, only the important messages are kept |
| LangChainService.OptimizedFillIsGreedy | src/services/langchain_service.py:449-457 | the messages added are the shortest candidates, taken until the first one that does not fit |
| LangChainService.ChatMessageHistory.constructor | src/services/langchain_service.py:315 | a new history is empty |
| LangChainService.ChatMessageHistory.AddUserMessage | src/services/langchain_service.py:318 | a human message is appended |
| LangChainService.ChatMessageHistory.AddAiMessage | src/services/langchain_service.py:320 | an AI message is appended |
| LangChainService.ChatMessageHistory.RebuildFrom | src/services/langchain_service.py:314-320 | an empty chat keeps the history; otherwise the history is rebuilt from the chat |
| LangChainService.ChatMessageHistory.PrepareHistory | src/services/langchain_service.py:313-323 | the history is rebuilt, when there is a chat, and then optimised to the 10000-token default |
| LangChainService.ChatMessageHistory.RecordExchange | src/services/langchain_service.py:360-362 | the query and the reply are appended, in that order |
| LangChainService.ChatMessageHistory.OptimizeChatHistory | src/services/langchain_service.py:409-469 | the history becomes the optimised history of the old one |
| LangChainService.OptimizeMessages | src/services/langchain_service.py:409-460 | the optimiser's steps compute the optimised history |
| LangChainService.SplitBySystem | src/services/langchain_service.py:430-434 | the loop splits the history into system and other messages |
| LangChainService.FillFront | src/services/langchain_service.py:451-457 | inserting each fitting message at the front gives the reversed greedy fill before the important messages |
| ResponseTemplates.GetTemplate | src/services/response_templates.py:16-59 | a template exists exactly for "facility", "area" and "property"; otherwise the error names the type |
| ResponseTemplates.MissingFields | src/services/response_templates.py:66 | a field is missing exactly when it is required and absent from the data |
| ResponseTemplates.FillSucceedsIff | src/services/response_templates.py:71 | `format` succeeds exactly when every placeholder has a value; otherwise the KeyError names an absent placeholder |
| ResponseTemplates.FormatResponse | src/services/response_templates.py:61-71 | an unknown type gives `get_template`'s error; required fields are missing exactly when the ValueError lists them, all and only them; otherwise it succeeds exactly when every placeholder has a value, with the filled template, and a KeyError names an absent placeholder |
| ResponseTemplates.MissingFieldsInOrder | src/services/response_templates.py:66 | the missing fields are listed in the order of `required_fields` |
| ResponseTemplates.NoMissingFields | src/services/response_templates.py:66-68 | data with every required field reports none missing |
| ResponseTemplates.RequiredFieldsAreNotEnough | src/services/response_templates.py:17-71 | the facility template uses `additional_info`, which is not required, so data with only the required fields still raises KeyError |
| ResponseTemplates.CutNumber | src/services/response_templates.py:127-128 | A line starting with a digit 1-5 becomes the stripped text after its first '.', or the whole stripped line when it has no '.', and any other line is unchanged. |
| ResponseTemplates.AfterFirstDot | src/services/response_templates.py:128 | `line[line.find('.') + 1:]` is the text after the first '.', or the whole line when there is none. |
| ResponseTemplates.CutBullet | src/services/response_templates.py:129-130 | A line starting with '-' or '•' becomes the stripped rest after that character, and any other line is unchanged. |
| ResponseTemplates.MarkQuestion | src/services/response_templates.py:132-134 | A non-empty line not ending in a question mark gets exactly one full-width '？' appended, and any other line is unchanged. |
| ResponseTemplates.QuestionFromLine | src/services/response_templates.py:124-137 | A line gives a question exactly when its stripped form is non-blank, not a list item and non-empty after the number and bullet are cut, and the question is that cut text, made to end in a question mark. |
| ResponseTemplates.ParsedQuestionsAreQuestions | src/services/response_templates.py:119-138 | there are no more questions than lines, and every question is non-empty and ends in a question mark |
| ResponseTemplates.PlainQuestionKept | src/services/response_templates.py:124-134 | a plain question line is kept as it is |
| ResponseTemplates.PlainLineMarked | src/services/response_templates.py:124-137 | A plain line without a question mark becomes that line followed by one full-width '？'. |
| ResponseTemplates.NumberedLineDropped | src/services/response_templates.py:125 | a line numbered "1." to "5." is dropped, not cleaned |
| ResponseTemplates.TwoDigitNumberCut | src/services/response_templates.py:125-134 | "10. q" gets its number cut and a question mark added |
| ResponseTemplates.BulletAfterNumberStripped | src/services/response_templates.py:127-130 | the bullet step is reached: "1x.-q" becomes "q？" |
| ResponseTemplates.ParseQuestions | src/services/response_templates.py:119-138 | the line loop computes the parsed questions |
| ResponseTemplates.GenerateQuestionExamples | src/services/response_templates.py:80-144 | a failed call gives no questions; otherwise the parsed questions cut to `max_questions` |
| ResponseTemplates.ImproveQuestionExamples | src/services/response_templates.py:230-295 | a failed call keeps the existing questions; otherwise all parsed questions |
| ResponseTemplates.QaPairsComplete | src/services/response_templates.py:195-222 | every pair has a non-empty question and answer; the pairs' questions follow the order of the "質問:" lines |
| ResponseTemplates.QuestionLineStep | src/services/response_templates.py:204-212 | a "質問:" line flushes the current pair when complete and opens a new one |
| ResponseTemplates.AnswerLineStep | src/services/response_templates.py:213-214 | an "回答:" line replaces the current answer |
| ResponseTemplates.LaterAnswerWins | src/services/response_templates.py:204-222 | a later answer replaces an earlier one for the same question |
| ResponseTemplates.UnansweredQuestionDropped | src/services/response_templates.py:204-222 | a question without an answer is dropped when the next question starts |
| ResponseTemplates.ParseQaPairs | src/services/response_templates.py:195-222 | the line loop computes the parsed pairs |
| ResponseTemplates.GenerateAnswerExamples | src/services/response_templates.py:146-228 | a failed call gives no pairs; otherwise the parsed pairs cut to `max_answers` |
| ResponseTemplates.ImproveAnswerExamples | src/services/response_templates.py:297-379 | a failed call keeps the existing pairs; otherwise all parsed pairs |
| CategoryClassifier.GetMainCategories | src/services/category_classifier.py:179-181 | the main categories are the taxonomy's keys, in order |
| CategoryClassifier.GetSubCategories | src/services/category_classifier.py:183-184 | an unknown main category has no sub categories |
| CategoryClassifier.LookupFindsKeys | src/services/category_classifier.py:183-184 | a lookup succeeds exactly for a main category |
| CategoryClassifier.LookupAt | src/services/category_classifier.py:183-184 | each main category's sub categories are those listed for it |
| CategoryClassifier.CategoryInfoLineCount | src/services/category_classifier.py:120-131 | the category text has one line per main category and per sub category |
| CategoryClassifier.CategoryInfoMentions | src/services/category_classifier.py:120-131 | every main and sub category appears on its own line |
| CategoryClassifier.PrepareCategoryInfo | src/services/category_classifier.py:120-131 | the loop renders the taxonomy into those lines, joined by newlines |
| CategoryClassifier.ExtractJsonText | src/services/category_classifier.py:133-147 | extraction fails with "JSONが見つかりませんでした" exactly when '{' or '}' is missing; otherwise the text is the slice from the first '{' through the last '}', empty when the last '}' comes first |
| CategoryClassifier.ExtractedObjectShape | src/services/category_classifier.py:137-143 | a non-empty extraction starts with '{', ends with '}', and is a piece of the reply with no '{' before it and no '}' after it |
| CategoryClassifier.CheckKeysOnObject | src/services/category_classifier.py:150-155 | the key check on an object holds exactly when every required key is present |
| CategoryClassifier.ValidateIff | src/services/category_classifier.py:149-173 | a classification is valid exactly when it is an object with all four keys, a known main category, one of its sub categories, and a numeric confidence in [0, 1] |
| CategoryClassifier.ValidateRaisesIff | src/services/category_classifier.py:149-163 | validation raises exactly for a reply that is not a container, a list or string holding all four keys, or an object whose main category is a list or object |
| CategoryClassifier.ClassifyText | src/services/category_classifier.py:16-82 | the result is a valid classification or the fallback record; a non-fallback result came from a successful call |
| CategoryClassifier.ClassifyTextKeepsValidResult | src/services/category_classifier.py:58-73 | a valid parsed reply is returned as it is |
| CategoryClassifier.ClassifiedChunksSkipOnlyEmpty | src/services/category_classifier.py:84-118 | there are never more results than chunks; when every chunk has text, every chunk is kept in order with its id and text; every result has text and a classification |
| CategoryClassifier.ClassifiedChunksSingle | src/services/category_classifier.py:93-104 | A single chunk with text comes back as a copy carrying its classification, and one without text is dropped. |
| CategoryClassifier.ClassifiedChunksAppend | src/services/category_classifier.py:88-118 | Classifying two lists of chunks one after the other gives the concatenation of their results. |
| CategoryClassifier.ClassifyMultipleChunks | src/services/category_classifier.py:84-118 | the loop classifies the chunks as specified |

## Where the model follows the code

- **Bullet strip is reachable.** In the question parser (`src/services/response_templates.py:127-130`) the bullet-stripping step can be reached. A line such as "1x.-q" passes the list-item check, loses "1x." and then loses the bullet. `ResponseTemplates.BulletAfterNumberStripped` states this.
- **Only the second separator is tried.** The advanced split (`src/components/file_upload.py:185-192`) looks only at the second separator: both branches of its loop end in `break`. Any separator after the second is never used (`FileUpload.LaterSeparatorsIgnored`).
- **Endless retry ends in a raise.** `upload_chunks` re-uploads the failed chunks of each batch with no bound of its own (`src/services/pinecone_service.py:243-245`). A chunk that never embeds makes it recurse until Python raises `RecursionError`. Every enclosing call catches that and raises again (`src/services/pinecone_service.py:248-249`), so the upload as a whole raises (`Pinecone.UnrenderableMakesUploadRaise`).
- **Invalid batch sizes.** A batch size of 0 makes `range` raise, and the upload fails. A negative batch size uploads nothing and reports success (`Pinecone.OddBatchSizes`).
- **Chunk indexes can start at 1.** `manual_chunk_split` numbers chunks by the part's position, so a leading separator gives the first chunk index 1 (`FileUpload.IndexGapAfterLeadingSeparator`).
- **History optimisation lives on the history class.** `optimize_chat_history` belongs to the answering service but only rewrites `message_history.messages`. It is modelled as `ChatMessageHistory.OptimizeChatHistory`, whose budget defaults to 10000 in `PrepareHistory`.
- **Saved chunks have no categories.** The save path builds its chunks with `advanced_manual_chunk_split` (`src/components/file_upload.py:523`), which sets neither `manual_main_category` nor `ai_classification`. So the category precedence of the metadata (`src/components/file_upload.py:544-554`) never applies there, and saved chunks get "" for both categories. `FileUpload.BuildMetadata` models the precedence as written, and `FileUpload.SavedSplitChunksUncategorised` states that it gives "" for a split chunk.

## Left out

- Streamlit user interface, file reading and encoding detection, CSV processing (`read_file_content`, `process_csv_file`, `render_file_upload`): user interface and I/O.
- The date-time suffix of chunk ids and the upload and creation dates: clock readings. An id is "manual_chunk_" and its index.
- The OpenAI embedding and chat models, the Pinecone index, the advanced search service, `tiktoken` and `json.loads`: they are external services and are passed in as functions.
- `time.sleep`: the retry loops return the delays they would sleep instead.
- Pinecone.Upload: the interpreter's recursion limit is a fuel parameter, the number of nested `upload_chunks` calls still allowed. The exact depth at which Python raises `RecursionError` depends on the interpreter's stack use, so it is an input.
- Rounding of scores to four decimals, and floating-point arithmetic in general: scores are reals.
- `_initialize_index`, `get_index_stats`, `clear_index`, `get_index_data`, `get_stats`, `list_vectors`, `get_by_id`, `check_api_usage`, `clear_memory`, `set_search_mode`, `get_available_categories`: thin wrappers over the remote index or over state not in this model.
- The prompt text and the chat-model call inside `get_response`, and the token report in its details: the model's answer is an input.
- `print` and `st.error` output: logging only, except the `print` of each kept match's `metadata['text']` in `query` (`src/services/pinecone_service.py:293`), which raises `KeyError` for a match without text and is modelled as a failed attempt.
- Answer-example values other than strings (numbers, nested objects): answer examples are modelled as dicts of two strings or plain strings.
- JSON floats that are NaN or infinite: scores and confidences are reals.
- The `top_k` argument of queries: the index decides how many candidates come back, and the model takes them as given.
- The extra fields of the search details (full metadata, answer examples, verification flag, update type, years, location, query variation): these are copied from the metadata unchanged and are not modelled.
- LangChainService.SortByTokens: the model's insertion sort is stable like Python's `list.sort`, but no lemma states stability.
- CategoryClassifier.ClassifyText: the language model's reasoning and confidence values are taken as returned; only their validation is modelled.
