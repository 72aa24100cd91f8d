# ChatTrinetra core in Dafny

ChatTrinetra is a project workspace for chatting with large language models
about uploaded documents. An Express backend stores projects, conversations,
files and messages in SQLite. It extracts the text of uploaded PDF, Excel and
Word files, and routes each chat turn to OpenAI, OpenRouter or a local Ollama
server. A React frontend shows the projects, a chat window per conversation,
a search bar and a Cmd+K command palette. Both search over a fuzzy index of
projects and files.

This project models the logic of that core and proves properties about it.

**Backend**

- `LlmService`: model selection (`selectModel`) and the routing of a model id
  to a provider. It also covers the message list that `chat` builds from the
  history, the file context and the new message, the three provider calls
  with their request shapes and error messages, and the `chat` entry point
  (a method with the history loop).
- `FileProcessor`: extraction dispatch on the lower-cased extension, the
  workbook text layout of `extractExcel` (a method over the `eachRow` loop),
  the error wrapping of the three extractors, `getSummary` and `getMetadata`.
- `ChatRoute`: `POST /api/chat/send`. It validates the request, looks up the
  project and conversation, builds the file context and the ten-message
  history, and calls the LLM service. It then stores the user turn, the
  assistant turn and the conversation's new `updated_at`, in that order.
  `Store` holds the tables these handlers read and write.
- `ProjectsRoute`: project creation with `||` defaults, the allow-listed
  `UPDATE … SET` builder and its placeholders, and deletion.
- `FilesRoute`: the MIME filter, the stored file name, `path.extname`, the
  upload handler and its clean-up on failure, the extraction sentinel, and
  deletion.

**Frontend**

- `CommandPaletteContext`: the palette reducer over every action.
- `SearchEngine`: the search service as a class with two optional indexes.
  Fuse's ranking is a sort by score then by position, proved sorted and a
  permutation.
- `CommandPalette`: the palette component. Its handlers report the actions
  they dispatch, and the component's state is the reducer applied to them.
- `SearchBar`: the search dropdown.
- `CommandPaletteShortcut`: the Cmd+K listener.
- `ChatWindow`: the chat window's attachment toggle and message sending.
- `App` and `ProjectDashboard`: the project list and the conversation list.

**How outside effects are modelled**

- The network, the parsing libraries, the clock and the uuid generator are
  parameters.
- HTTP outcomes and provider answers are datatypes.
- Timestamps and ids are strings passed in.
- Components whose state React updates in place are classes. Their fields are
  the `useState` variables, and each handler is a method whose `ensures`
  clauses give the whole new state.

## Model

The table lists the members that carry contracts. Definitions without a
contract of their own (`Extname`, `SendEffect`, `History`, `RowsText` and the
like) are named in the rows of the lemmas that state their properties.

| member | source | states |
|---|---|---|
| LlmService.SelectModel | backend/services/llmService.js:27-43 | A truthy user model is returned as given. Otherwise the hint picks a configured id, and only `"coding"` yields `undefined` (its alias `kimi` is not configured). |
| LlmService.AutomaticSelection | backend/services/llmService.js:27-43 | `frontend` picks Gemini and `hard` picks Sonnet. Every hint other than coding/frontend/hard behaves like `simple` and picks Haiku. `coding` gives `undefined`. |
| LlmService.AutomaticSelectionUsesOpenRouter | backend/services/llmService.js:27-43 | Every model that is chosen automatically is dispatched to OpenRouter. |
| LlmService.Dispatch | backend/services/llmService.js:82-92 | Each provider is chosen exactly when its test holds and every earlier test fails: `openai/` first, then `openrouter`, then `ollama` or `localhost:11434`. Otherwise no call is made. |
| LlmService.OpenRouterIdDispatch | backend/services/llmService.js:82-92 | `openrouter/` followed by a path with no `i/` goes to OpenRouter. |
| LlmService.OpenAiIdDispatch | backend/services/llmService.js:82-92 | `openai/` followed by any name goes to OpenAI. |
| LlmService.OllamaUrlDispatch | backend/services/llmService.js:82-92 | The local Ollama URL goes to Ollama. |
| LlmService.OpenAiModelsDispatch | backend/services/llmService.js:9-22 | The three OpenAI entries of `modelConfig` go to OpenAI. |
| LlmService.HaikuDispatch | backend/services/llmService.js:15 | The Haiku id goes to OpenRouter. |
| LlmService.GeminiDispatch | backend/services/llmService.js:16 | The Gemini id goes to OpenRouter. |
| LlmService.OpusDispatch | backend/services/llmService.js:17 | The Opus id goes to OpenRouter. |
| LlmService.SonnetDispatch | backend/services/llmService.js:18 | The Sonnet id goes to OpenRouter. |
| LlmService.DeepseekDispatch | backend/services/llmService.js:19 | The DeepSeek id goes to OpenRouter. |
| LlmService.OpenRouterModelsDispatch | backend/services/llmService.js:9-22 | The five OpenRouter entries of `modelConfig` go to OpenRouter. |
| LlmService.ConfiguredModelsDispatch | backend/services/llmService.js:9-22 | Every configured id is routed to the provider its prefix names, so no configured entry falls through. |
| LlmService.MenuOllamaIdIsNotDispatched | backend/services/llmService.js:82-92 | `ollama/llama2`, which the chat window offers, matches none of the three tests. |
| LlmService.ForwardedHistorySnoc | backend/services/llmService.js:61-73 | `ForwardedHistory`: one more history entry adds its turn exactly when its role is `user` or `assistant`. |
| LlmService.ForwardedHistoryAppend | backend/services/llmService.js:61-73 | `ForwardedHistory`: forwarding distributes over concatenation, so stored order is kept. |
| LlmService.ForwardedHistoryExact | backend/services/llmService.js:61-73 | `ForwardedHistory`: the count matches the user and assistant entries. No system turn is forwarded, and every such entry's turn is present. |
| LlmService.UserPrompt | backend/services/llmService.js:53-56 | The final user text is the message alone when there is no file context. Otherwise it is `Document Context:` and the context, then the message at the end. |
| LlmService.PromptTurnsShape | backend/services/llmService.js:75-79 | `PromptTurns`: the list ends with the one new user turn and holds no system turn. |
| LlmService.WithSystemPrompt | backend/services/llmService.js:197-199 | A truthy system prompt adds one leading system turn before the unchanged list. An empty one adds nothing. |
| LlmService.SystemTurnOnlyAtHead | backend/services/llmService.js:112-116 | What a provider receives has a system turn at position 0 exactly when the prompt is truthy, and nowhere else. |
| LlmService.CallOpenRouter | backend/services/llmService.js:102-138 | With no key, nothing is posted and the call fails with the key message. Otherwise it posts the prefix-stripped model and the turns with temperature 0.7 and 2000 tokens. It returns content, model and tokens (0 if unreported) or rethrows as `OpenRouter error: …`. |
| LlmService.OpenAiError | backend/services/llmService.js:176-188 | 429 and 401 get their fixed messages. Any other failure is `OpenAI error:` plus the provider's message, or the transport message if there is none. |
| LlmService.CallOpenAi | backend/services/llmService.js:143-189 | The same key check, request shape and result as OpenRouter, with `openai/` stripped and the OpenAI error mapping. |
| LlmService.OllamaError | backend/services/llmService.js:217-225 | A refused connection, a message containing 404, and everything else each get their own message. |
| LlmService.CallOllama | backend/services/llmService.js:194-226 | Posts to the local URL with no credential, `stream: false` and the model from the environment. The reply's model is `ollama/<model>` with 0 tokens. |
| LlmService.Route | backend/services/llmService.js:82-92 | An id that matches no provider makes no request and resolves to `undefined`. |
| LlmService.Chat | backend/services/llmService.js:48-97 | The history loop and the final push build exactly the modelled turn list. The result is the routing of the selected model over those turns. |
| LlmService.MissingOpenRouterKeyFailsFirst | backend/services/llmService.js:103-106 | An OpenRouter model with no key posts nothing and throws the key message. |
| LlmService.DefaultModelScenario | backend/services/llmService.js:48-138 | The default model with a system prompt and "hi" gives one OpenRouter request with the model `anthropic/claude-haiku-4.5` and the turns [system, user]. The reply names the requested id. |
| FileProcessor.CellTexts | backend/services/fileProcessor.js:57 | Each cell becomes its text, and a falsy cell becomes the empty string, position by position. |
| FileProcessor.AppendRows | backend/services/fileProcessor.js:56-59 | The `eachRow` loop appends exactly the rows' lines, in order, to the text so far. |
| FileProcessor.AppendSheet | backend/services/fileProcessor.js:54-60 | One `eachSheet` step appends exactly the sheet's banner and then its rows' lines to the text so far. |
| FileProcessor.ExtractExcel | backend/services/fileProcessor.js:48-67 | A workbook gives its sheet-by-sheet text. A reader failure gives `Failed to extract Excel: ` and the message. |
| FileProcessor.RowsTextSnoc | backend/services/fileProcessor.js:56-59 | `RowsText`: one more row adds its line at the end. |
| FileProcessor.RowsTextAppend | backend/services/fileProcessor.js:56-59 | `RowsText`: row text distributes over concatenation. |
| FileProcessor.WorkbookTextSnoc | backend/services/fileProcessor.js:54-60 | `WorkbookText`: one more sheet adds its banner and rows at the end. |
| FileProcessor.WorkbookTextAppend | backend/services/fileProcessor.js:54-60 | `WorkbookText`: workbook text distributes over concatenation, so sheets keep their order. |
| FileProcessor.FalsyCellsAreBlank | backend/services/fileProcessor.js:57 | A falsy cell, 0 included, leaves an empty field. |
| FileProcessor.JoinCount | backend/services/fileProcessor.js:57 | Joining pieces and a separator that hold no `c` gives a text with no `c`. |
| FileProcessor.RowTabs | backend/services/fileProcessor.js:57 | `RowLine`: a row of n > 0 tab-free cells has exactly n − 1 tabs. |
| FileProcessor.RowsNewlines | backend/services/fileProcessor.js:58 | `RowsText`: rows with newline-free cells contribute one newline each. |
| FileProcessor.HeaderNewlines | backend/services/fileProcessor.js:55 | A sheet banner has exactly two newlines. |
| FileProcessor.WorkbookNewlines | backend/services/fileProcessor.js:54-60 | `WorkbookText`: the workbook text has two newlines per sheet and one per row. |
| FileProcessor.ExtractorFor | backend/services/fileProcessor.js:15-29 | Each extractor is chosen exactly for its lower-cased extensions (.pdf; .xlsx/.xls; .docx/.doc). Every other extension gets none. |
| FileProcessor.ExtractorIgnoresCase | backend/services/fileProcessor.js:16 | Lower-casing the extension first changes nothing. |
| FileProcessor.UpperCaseExtensions | backend/services/fileProcessor.js:16 | `.PDF`, `.XLSX` and `.Doc` dispatch like their lower-case forms. |
| FileProcessor.ExtractText | backend/services/fileProcessor.js:15-80 | An unsupported type throws `Unsupported file type: `. Each extractor returns the library's text or wraps its failure with its own prefix. |
| FileProcessor.ExtractTextErrors | backend/services/fileProcessor.js:15-80 | Every failure message starts with the unsupported-type prefix or one of the three extractor prefixes. |
| FileProcessor.GetSummary | backend/services/fileProcessor.js:82-88 | The empty text gives "". A text within the limit, 500 when none is passed, is returned whole. A longer non-empty one gives its first characters up to the limit, with a negative limit counting as 0, followed by `...`. |
| FileProcessor.SummaryBounds | backend/services/fileProcessor.js:85-88 | A summary is at most 3 longer than the clamped limit and than the text, and longer than the limit only when the text was cut. |
| FileProcessor.DefaultSummary | backend/services/fileProcessor.js:82-88 | Without a limit the summary is the first 500 characters, plus `...` only when the text is longer, the same as passing 500. |
| FileProcessor.NegativeLimitLeavesMarker | backend/services/fileProcessor.js:85-88 | A negative limit keeps no character of a non-empty text, leaving only `...`. |
| FileProcessor.GetMetadata | backend/services/fileProcessor.js:93-100 | Gives the character count, whitespace runs + 1 words, newlines + 1 lines, and blank-line breaks + 1 paragraphs. Each is the length of the corresponding split. |
| FileProcessor.BlankLinesUseTwoNewlines | backend/services/fileProcessor.js:98 | Each counted `\n\n` consumes two distinct newlines. |
| FileProcessor.ParagraphsAtMostLines | backend/services/fileProcessor.js:93-100 | The paragraph count never exceeds the line count. |
| FileProcessor.EmptyTextMetadata | backend/services/fileProcessor.js:93-100 | The empty text reports 0 characters and one word, one line and one paragraph. |
| Strings.Trim | frontend/src/services/searchEngine.js:66 | The trimmed text is no longer than the text, and neither starts nor ends with whitespace. |
| Strings.TrimRemovesSurroundingSpace | frontend/src/services/searchEngine.js:66 | The trimmed text is one contiguous part of the text, and everything removed before and after it is whitespace. |
| Strings.TrimIgnoresPadding | frontend/src/services/searchEngine.js:70 | Whitespace on either side of a text does not change what it trims to. |
| Strings.ToLower | backend/services/fileProcessor.js:16 | Lower-casing keeps the length and maps each character on its own. |
| Strings.SplitLength | backend/services/fileProcessor.js:97-98 | `Split`: a split has one more piece than there are occurrences of the separator. |
| Strings.SplitThenJoin | backend/services/fileProcessor.js:97-98 | `Split`: joining the pieces of a split with the separator gives back the text. |
| Strings.SplitOnSpacesLength | backend/services/fileProcessor.js:96 | `SplitOnSpaces`: `split(/\s+/)` has one more piece than the text has whitespace runs. |
| Strings.SplitOnSpacesPiecesAreWords | backend/services/fileProcessor.js:96 | `SplitOnSpaces`: no piece of `split(/\s+/)` contains whitespace. |
| Store.Or | backend/routes/projects.js:63-70 | The logical-or fallback is the value itself when it is truthy, and the fallback otherwise. |
| ChatRoute.JsonChar | backend/routes/chat.js:76 | A quote becomes `\"` and a backslash `\\`. A control character becomes an escape that starts with a backslash. Any other printable character is kept. Every output is one to six printable characters. |
| ChatRoute.JsonEscape | backend/routes/chat.js:76 | The escaped body is between one and six times the input's length and holds no control character. |
| ChatRoute.JsonUnescapeChar | backend/routes/chat.js:76 | `JsonUnescape`: reading back an escaped character and then any text gives that character and then the text read back. |
| ChatRoute.JsonEscapeRoundTrip | backend/routes/chat.js:76 | `JsonUnescape`, the reading `JSON.parse` gives a string body, returns exactly the id that `JsonEscape` wrote. |
| ChatRoute.JsonEscapePlain | backend/routes/chat.js:76 | An id free of quotes, backslashes and control characters is written unchanged between its quotes. |
| ChatRoute.FileBlock | backend/routes/chat.js:47 | A file's block starts with its `[File: name]` header and ends with its extracted text. |
| ChatRoute.Blocks | backend/routes/chat.js:46-48 | One block per row, in row order. |
| ChatRoute.ReferencedRowsExact | backend/routes/chat.js:42-45 | `ReferencedRows`: the rows used are exactly the stored rows whose id is referenced. |
| ChatRoute.ReferencedRowsIgnoreIdOrder | backend/routes/chat.js:42-45 | `ReferencedRows`: only the set of referenced ids matters, not their order or repetition. |
| ChatRoute.FileContextIgnoresIdOrder | backend/routes/chat.js:39-49 | `FileContext`: the file context follows table order, whatever order the request lists the ids in. |
| ChatRoute.ReferencedRowsAppend | backend/routes/chat.js:42-45 | `ReferencedRows`: selecting rows distributes over the table's concatenation. |
| ChatRoute.FileContextOfTwo | backend/routes/chat.js:46-48 | `FileContext`: one file gives its block alone. Two files give their blocks joined by `\n---\n`. |
| ChatRoute.NoMatchingRows | backend/routes/chat.js:42-45 | `ReferencedRows`: ids that match no row select nothing. |
| ChatRoute.FileContextWithoutMatches | backend/routes/chat.js:40-49 | `FileContext`: no references, or references matching nothing, give the empty context. |
| ChatRoute.ConversationRows | backend/routes/chat.js:52-55 | A row is selected exactly when it is in the table and belongs to the conversation, and there are never more rows than the table holds. |
| ChatRoute.ConversationRowsAppend | backend/routes/chat.js:52-55 | Selection distributes over insertion order. |
| ChatRoute.HistoryIsOldestTen | backend/routes/chat.js:52-55 | `History`: the history is the conversation's first min(n, 10) rows, in order, as role/content pairs. |
| ChatRoute.HistoryFrozenAfterTen | backend/routes/chat.js:52-55 | `History`: once a conversation holds ten rows, later rows never change its history. |
| ChatRoute.OtherConversationsIgnored | backend/routes/chat.js:52-55 | `History`: a row of another conversation leaves the history unchanged. |
| ChatRoute.ModelOrDefault | backend/routes/chat.js:63 | A named model is kept, and a missing one becomes the Haiku OpenRouter id. The result is never empty. |
| ChatRoute.DefaultModelGoesToOpenRouter | backend/routes/chat.js:63 | The default model is served by OpenRouter. |
| ChatRoute.Send | backend/routes/chat.js:14-114 | The handler's response and the new `messages` and `conversations` tables are `SendEffect` of the old store. Projects, files and the disk are unchanged. |
| ChatRoute.Record | backend/routes/chat.js:66-112 | `ReplyEffect`: after the model call: a thrown call answers 500 and writes nothing. An undefined answer stores the user row, then fails with 500. A reply stores the user row and then the assistant row, touches the conversation and answers 200. Projects, files and the disk are unchanged. |
| ChatRoute.SendValidatesFirst | backend/routes/chat.js:24-26 | `SendEffect` with `MissingFields`: a missing field gives 400 before any lookup, and nothing is written. |
| ChatRoute.SendNotFound | backend/routes/chat.js:29-37 | `SendEffect`: an unknown project, or a conversation of another project, gives 404 and nothing is written. |
| ChatRoute.SendPersistence | backend/routes/chat.js:58-112 | `SendEffect`: for a request that passes validation and names an existing conversation of an existing project: a thrown call stores nothing and answers 500, an `undefined` result stores the user row alone and answers 500, and the answer is 200 exactly when the call replied. A 200 answer appends exactly two rows, the user row and then the assistant row carrying the reply, and touches the conversation. Any other answer leaves the conversations unchanged. |
| ChatRoute.NewMessageNotInItsHistory | backend/routes/chat.js:52-79 | `SendEffect`: for any send, the new user row is not among the rows the history was drawn from. When the send writes anything, the table is the old table followed by that user row, which then belongs to the conversation. |
| ProjectsRoute.NewProjectRow | backend/routes/projects.js:54-75 | The inserted row fills every column, with the given id and name and both timestamps equal to the creation time. |
| ProjectsRoute.AllColumnsComplete | backend/routes/projects.js:55-59 | The insert lists every column of the table. |
| ProjectsRoute.CreateDefaults | backend/routes/projects.js:62-70 | Each setting is the body's value when truthy and its documented default otherwise. |
| ProjectsRoute.HeadingBoldOnlyFalseClears | backend/routes/projects.js:71 | `heading_bold` is 0 only for an explicit `false` and 1 for everything else. |
| ProjectsRoute.Create | backend/routes/projects.js:34-82 | No name gives 400. A taken id gives 500. Otherwise the row is inserted and returned with 201. Other tables are untouched. |
| ProjectsRoute.BodyColumns | backend/routes/projects.js:97 | A column is present exactly when the body has its name as a key. |
| ProjectsRoute.Fragments | backend/routes/projects.js:98 | One `name = ?` fragment per field, in order. |
| ProjectsRoute.SetClauseEmptyIff | backend/routes/projects.js:96-103 | `SetClause`: the set clause is empty exactly when no allow-listed key is present, which is the 400 case. |
| ProjectsRoute.UnknownKeysIgnored | backend/routes/projects.js:91-99 | `PresentFields` and `SetClause`: adding a key outside the allow-list changes nothing. |
| ProjectsRoute.PresentFieldsInAllowListOrder | backend/routes/projects.js:96-97 | `PresentFields`: the present columns come in allow-list order: those before any cut of the list precede those after it. |
| ProjectsRoute.AllowedFieldsDistinct | backend/routes/projects.js:91-94 | The allow-list has no repeats. |
| ProjectsRoute.ColumnNamePlain | backend/routes/projects.js:91-94 | No column name holds a `?`. |
| ProjectsRoute.SetClausePlaceholders | backend/routes/projects.js:96-99 | `SetClause`: the set clause has one placeholder per field. |
| ProjectsRoute.SqlHeadPlain | backend/routes/projects.js:113 | `UpdateSql`: the statement's head has no placeholder. |
| ProjectsRoute.SqlTailPlaceholders | backend/routes/projects.js:113 | `UpdateSql`: the tail has the two placeholders for `updated_at` and the id. |
| ProjectsRoute.SqlPlaceholders | backend/routes/projects.js:113 | `UpdateSql`: the statement has the set clause's placeholders plus two. |
| ProjectsRoute.FieldValues | backend/routes/projects.js:105-107 | One value per field, each the body's value under that field's name. |
| ProjectsRoute.PlaceholdersMatchValues | backend/routes/projects.js:105-115 | `UpdateSql`: the statement has exactly as many placeholders as bound values. |
| ProjectsRoute.UpdatedRow | backend/routes/projects.js:109-115 | The updated row's `updated_at` is the request time. |
| ProjectsRoute.UpdateWritesPresentField | backend/routes/projects.js:105-115 | Every allow-listed column in the body takes the body's value. |
| ProjectsRoute.UpdateKeepsOtherColumns | backend/routes/projects.js:105-115 | Every other column except `updated_at` keeps its value, or stays absent. |
| ProjectsRoute.Update | backend/routes/projects.js:85-122 | No allow-listed key gives 400. An unknown id changes nothing and returns an empty body. A known id stores and returns the updated row. |
| ProjectsRoute.Delete | backend/routes/projects.js:125-136 | An unknown id gives 404. A known id is removed from the table and the response names it. |
| FilesRoute.FileFilter | backend/routes/files.js:32-45 | Accepts exactly the five document MIME types. Anything else fails with the invalid-type message. |
| FilesRoute.LastIndexOf | backend/routes/files.js:27 | Gives the last position of the character, or −1 when it is absent. |
| FilesRoute.BaseName | backend/routes/files.js:27 | The base name has no `/`. |
| FilesRoute.BaseNameIsLastComponent | backend/routes/files.js:27 | `BaseName`: only trailing slashes are dropped, and the base name ends what remains, preceded by a slash or by nothing. |
| FilesRoute.ExtnameShape | backend/routes/files.js:27 | `Extname`: an extension is empty, or a dot with no further dot that ends the base name and is shorter than it. |
| FilesRoute.ExtnameEmpty | backend/routes/files.js:27 | `Extname`: a name with no dot, or whose only dot is its first character, has no extension. With `ExtnameFound` this is `path.extname`'s rule for a single component. |
| FilesRoute.ExtnameFound | backend/routes/files.js:27 | `Extname`: a single component other than `..` whose last dot is not its first character has the extension that starts at that last dot. |
| FilesRoute.ExtnameOfStemAndSuffix | backend/routes/files.js:27 | `Extname`: a dot-free stem, a dot and a dot-free suffix give the dot and the suffix. |
| FilesRoute.FileType | backend/routes/files.js:80 | The file type has the extension's length. |
| FilesRoute.FileTypeOfStemAndSuffix | backend/routes/files.js:80 | `FileType`: such a name (`Report.PDF`) is recorded as the dot and the lower-cased suffix (`.pdf`). |
| FilesRoute.FileTypeExtractor | backend/routes/files.js:80 | The recorded type picks the same extractor as the extension it comes from. |
| FilesRoute.StoredNameMatchesFileType | backend/routes/files.js:26-30 | `StoredFilename`: the stored name is the uuid followed by the extension, which lower-cased is the recorded type. |
| FilesRoute.ExtractOrSentinel | backend/routes/files.js:84-90 | The stored text is the extracted text, or the sentinel on any failure. |
| FilesRoute.UnsupportedTypeStoresSentinel | backend/routes/files.js:84-90 | An extension with no extractor always stores the sentinel. |
| FilesRoute.PermittedMimeUnsupportedName | backend/routes/files.js:32-45 | A PDF MIME type on a name without an extension passes the filter and stores the sentinel. |
| FilesRoute.Upload | backend/routes/files.js:63-113 | The response, the `files` table and the disk are `UploadEffect` of the old store. Projects, conversations and messages are unchanged. |
| FilesRoute.Handler | backend/routes/files.js:70-113 | `HandlerEffect`: with the upload already on disk: an unknown project or a duplicate id removes it and answers 404 or 500 with no new row. Otherwise exactly one row pointing at the upload is appended, the upload stays, and the answer is 201 with that row. |
| FilesRoute.UploadGuards | backend/routes/files.js:63-69 | `UploadEffect`: no file gives 400 and a rejected type gives 500. Nothing is written in either case. |
| FilesRoute.UploadUnknownProject | backend/routes/files.js:72-76 | `UploadEffect`: an unknown project gives 404. |
| FilesRoute.UploadFailureCleansUp | backend/routes/files.js:72-113 | `UploadEffect`: any failure after the write removes the upload from disk and inserts no row. |
| FilesRoute.UploadSuccess | backend/routes/files.js:92-109 | `UploadEffect`: success gives 201. It appends exactly one row, with the file id, the project and the stored path, returns that row, and keeps the upload on disk. |
| FilesRoute.UploadStoresTypeAndText | backend/routes/files.js:80-103 | `UploadEffect`: a stored row has the original name, the lower-cased extension, and the sentinel whenever extraction fails. |
| FilesRoute.FindFile | backend/routes/files.js:132-133 | Finds a row with the id exactly when one exists. |
| FilesRoute.RemoveFile | backend/routes/files.js:141 | Exactly the rows with another id remain. |
| FilesRoute.RemoveFileAppend | backend/routes/files.js:141 | Removal keeps the remaining rows in order. |
| FilesRoute.Delete | backend/routes/files.js:129-146 | An unknown id gives 404 and nothing changes. Otherwise the file's path leaves the disk, its rows leave the table, and the response names the id. |
| CommandPaletteContext.Reduce | frontend/src/contexts/CommandPaletteContext.jsx:34-91 | Defined per action. Open sets `isOpen` and index 0. Close and Reset restore the initial state. Set query or results changes that field and resets the index. A select stores kind and record. Any other action changes nothing. Every other field is kept. |
| CommandPaletteContext.ReduceAllShort | frontend/src/contexts/CommandPaletteContext.jsx:97-98 | Dispatching zero, one or two actions is the reducer applied in order. |
| CommandPaletteContext.OpenCloseResetIdempotent | frontend/src/contexts/CommandPaletteContext.jsx:36-51 | Open, Close and Reset are idempotent. |
| CommandPaletteContext.QueryThenResults | frontend/src/contexts/CommandPaletteContext.jsx:53-65 | Setting a query and then its results stores both, puts the index at 0 and leaves every other field as it was. |
| CommandPaletteContext.SelectionChangesOnlyBySelectOrClear | frontend/src/contexts/CommandPaletteContext.jsx:43-86 | Only the select actions, Close and Reset change `selectedResult`. |
| CommandPaletteContext.SelectThenCloseLeavesNoSelection | frontend/src/contexts/CommandPaletteContext.jsx:43-83 | A select followed by Close leaves no selection. |
| CommandPaletteContext.SelectedIndexStaysZero | frontend/src/contexts/CommandPaletteContext.jsx:34-91 | From index 0, any sequence of actions keeps the index at 0. |
| CommandPaletteContext.CloseAfterAnything | frontend/src/contexts/CommandPaletteContext.jsx:43-51 | Any history followed by Close gives the initial state. |
| SearchEngine.Insert | frontend/src/services/searchEngine.js:70 | Inserting into a ranked list keeps it ranked and adds exactly that hit. |
| SearchEngine.Sort | frontend/src/services/searchEngine.js:70 | The result is ranked by score then position, and is a permutation of the input. |
| SearchEngine.Matches | frontend/src/services/searchEngine.js:70 | The hits are exactly the matching items from a position on, each with its score and its index. |
| SearchEngine.MatchesIncreasing | frontend/src/services/searchEngine.js:70 | The matches come in list order, each position once. |
| SearchEngine.FuseSearch | frontend/src/services/searchEngine.js:70 | Ranked by score, then by position. A permutation of the matches, so no position occurs twice. Every hit is an indexed item with its score. Every matching item `i` appears as the hit `(items[i], score, i)`. |
| SearchEngine.Engine.constructor | frontend/src/services/searchEngine.js:9-12 | Both indexes start absent. |
| SearchEngine.Engine.InitializeProjects | frontend/src/services/searchEngine.js:18-35 | A missing or empty list clears the project index. Any other list replaces it. The file index is untouched. |
| SearchEngine.Engine.InitializeFiles | frontend/src/services/searchEngine.js:41-58 | The same for the file index, leaving the project index untouched. |
| SearchEngine.Engine.SearchProjects | frontend/src/services/searchEngine.js:65-71 | Empty, short after trimming, or no index gives []. Otherwise the result is in ascending score, and each hit is an indexed project with its score for the trimmed query. |
| SearchEngine.Engine.SearchFiles | frontend/src/services/searchEngine.js:78-84 | The same for files. |
| SearchEngine.Engine.SearchAll | frontend/src/services/searchEngine.js:91-96 | The pair of the two searches for the same query. |
| SearchEngine.Engine.Clear | frontend/src/services/searchEngine.js:101-104 | Both indexes are absent afterwards. |
| SearchEngine.Engine.GetStatus | frontend/src/services/searchEngine.js:110-115 | Each flag is true exactly when its index exists. |
| SearchEngine.SearchProjectsComplete | frontend/src/services/searchEngine.js:65-71 | Every project that matches the trimmed query is found, at its position. |
| SearchEngine.SearchIgnoresPadding | frontend/src/services/searchEngine.js:66-70 | Whitespace around a query changes neither result group. |
| SearchEngine.PaddedLetterIsShort | frontend/src/services/searchEngine.js:66 | Whitespace plus one letter is not searchable. |
| SearchEngine.ReindexForgetsOldItems | frontend/src/services/searchEngine.js:24 | After re-indexing, an item not in the new list is never found. |
| CommandPalette.Tagged | frontend/src/components/CommandPalette.jsx:36-45 | Each hit becomes one entry with the group's tag, item and score, in order. |
| CommandPalette.Flatten | frontend/src/components/CommandPalette.jsx:34-48 | Projects come first and then files: project `i` is at `i` and file `i` is at `|projects| + i`. |
| CommandPalette.Choose | frontend/src/components/CommandPalette.jsx:106-112 | A project entry selects the project and a file entry selects the file. |
| CommandPalette.ChoiceIsClearedByClose | frontend/src/components/CommandPalette.jsx:104-115 | Choosing an entry and then closing leaves the context with no selection. |
| CommandPalette.Palette.constructor | frontend/src/components/CommandPalette.jsx:22-31 | Initial context, index 0, and the invariant holds. |
| CommandPalette.Palette.IndexData | frontend/src/components/CommandPalette.jsx:61-68 | Non-empty lists replace their index. An empty list keeps the previous one. |
| CommandPalette.Palette.Open | frontend/src/components/CommandPalette.jsx:51-58 | Dispatches Open. The palette is open and the index resets on becoming visible. |
| CommandPalette.Palette.Close | frontend/src/components/CommandPalette.jsx:87-90 | Dispatches Close. The context is initial and the flat list is empty. |
| CommandPalette.Palette.QueryChange | frontend/src/components/CommandPalette.jsx:71-82 | Dispatches the query, then the search results when the trimmed length is at least 2 and empty results otherwise. The index resets to 0. |
| CommandPalette.Palette.Show | frontend/src/components/CommandPalette.jsx:71-82 | The state is the reducer's after the query and then the results, visibility is kept, the first entry is highlighted, and the flat list matches the new results. |
| CommandPalette.Palette.KeyDown | frontend/src/components/CommandPalette.jsx:85-120 | Escape closes. The arrows move within bounds. Enter on a valid entry dispatches its selection then Close and leaves the index as it was. The invariant keeps the index within the list. |
| CommandPalette.Palette.Click | frontend/src/components/CommandPalette.jsx:133-140 | Dispatches the entry's selection, then Close. The index stays as it was. |
| SearchBar.Capped | frontend/src/components/SearchBar.jsx:24-25 | The first `min(n, 5)` hits. |
| SearchBar.Shown | frontend/src/components/SearchBar.jsx:20-26 | Each group is the first min(n, 5) of the engine's n hits for the query. |
| SearchBar.PaddedLetterOpensEmpty | frontend/src/components/SearchBar.jsx:20 | A space and a letter open the dropdown (untrimmed length 2) yet show no results (the engine trims). |
| SearchBar.Bar.constructor | frontend/src/components/SearchBar.jsx:11-14 | Empty query, no results, closed, index −1. |
| SearchBar.Bar.SetQuery | frontend/src/components/SearchBar.jsx:19-33 | An unchanged query runs no effect. An untrimmed length of at least 2 opens with the capped results and index −1. A shorter query closes with no results. |
| SearchBar.Bar.Focus | frontend/src/components/SearchBar.jsx:118 | Focusing reopens the dropdown when the query has at least 2 characters. |
| SearchBar.Bar.ClickOutside | frontend/src/components/SearchBar.jsx:49-58 | Closes the dropdown and keeps everything else. |
| SearchBar.Bar.ClearQuery | frontend/src/components/SearchBar.jsx:123-127 | Empty query, no results, closed, index −1. |
| SearchBar.Bar.Select | frontend/src/components/SearchBar.jsx:60-68 | Reports the choice, clears the query and closes. The highlighted index stays as it was. |
| SearchBar.Bar.KeyDown | frontend/src/components/SearchBar.jsx:70-101 | Closed and not Escape: nothing. The arrows move within −1..total−1. Enter on a highlighted entry reports it and clears, leaving the index as it was. Escape clears everything. |
| CommandPaletteShortcut.HandleKeyDown | frontend/src/hooks/useCommandPaletteShortcut.js:17-48 | Not Cmd/Ctrl+K: ignore. Open: close. Closed: open unless the target is input-like. |
| CommandPaletteShortcut.ShortcutToggles | frontend/src/hooks/useCommandPaletteShortcut.js:43-47 | A shortcut that acts flips visibility, and one that does not changes nothing. |
| CommandPaletteShortcut.ShortcutClosesFromAnywhere | frontend/src/hooks/useCommandPaletteShortcut.js:35-47 | An open palette closes to the initial state from any target. |
| CommandPaletteShortcut.AsWrittenNeverOpensFromPage | frontend/src/hooks/useCommandPaletteShortcut.js:27-37 | `IsInputLikeAsWritten`: with the test as written, a target whose `contentEditable` is `"inherit"` counts as input-like, so the shortcut never opens the palette there. |
| CommandPaletteShortcut.Decide | frontend/src/hooks/useCommandPaletteShortcut.js:17-48 | The listener with the intended test: it opens from any target that is neither a form field nor editable. |
| CommandPaletteShortcut.IntendedOpensFromPage | frontend/src/hooks/useCommandPaletteShortcut.js:17-48 | `IsInputLike`: with the intended test, the page body (and any non-editable, non-field element) opens the palette. |
| CommandPaletteShortcut.TestsAgreeOnExplicitValues | frontend/src/hooks/useCommandPaletteShortcut.js:28-31 | `IsInputLikeAsWritten` and `IsInputLike`: both tests agree on form fields and on `"true"`, `"false"` and `"plaintext-only"`. |
| ChatWindow.Without | frontend/src/components/ChatWindow.jsx:195 | Exactly the other ids remain. |
| ChatWindow.WithoutAppend | frontend/src/components/ChatWindow.jsx:195 | Removal distributes over concatenation. |
| ChatWindow.WithoutAbsent | frontend/src/components/ChatWindow.jsx:195 | Removing an absent id changes nothing. |
| ChatWindow.WithoutShorter | frontend/src/components/ChatWindow.jsx:195 | Removing a present id shortens the list. |
| ChatWindow.Toggle | frontend/src/components/ChatWindow.jsx:192-198 | A selected id is removed (every copy, others kept). An unselected id is appended. |
| ChatWindow.ToggleTwiceRestores | frontend/src/components/ChatWindow.jsx:192-198 | Toggling an unselected id twice restores the selection. |
| ChatWindow.SelectedFileIds | frontend/src/components/ChatWindow.jsx:75-77 | Exactly the ids of the selected files, none other. |
| ChatWindow.SelectedFileIdsKeepsFileOrder | frontend/src/components/ChatWindow.jsx:75-77 | The ids come in the files' order, not the order of selection. |
| ChatWindow.Chat.constructor | frontend/src/components/ChatWindow.jsx:6-10 | Empty state, with the Haiku OpenRouter id as the model. |
| ChatWindow.Chat.Type | frontend/src/components/ChatWindow.jsx:7 | Only the input text changes. |
| ChatWindow.Chat.ToggleFile | frontend/src/components/ChatWindow.jsx:192-198 | The selection becomes its toggle, and nothing else changes. |
| ChatWindow.Chat.Send | frontend/src/components/ChatWindow.jsx:68-113 | Blank input does nothing. Otherwise it posts the conversation, the text, the selected ids in file order and the model, then clears the input. It appends the user message and then one assistant message: the reply, or the fixed failure text. |
| ChatWindow.Chat.Post | frontend/src/components/ChatWindow.jsx:71-112 | For non-blank input: the request carries the conversation, its project, the typed text, the selected ids in file order and the model. The input is cleared, loading ends, and the list gains the user message and then the assistant message. Model and selection are kept. |
| ChatWindow.AssistantMessage | frontend/src/components/ChatWindow.jsx:96-109 | An assistant message at the completion time: the reply under the server's id, or the fixed failure text under the local id one past the clock. |
| App.RemoveById | frontend/src/App.jsx:52 | Exactly the projects with another id remain, and the list never grows. |
| App.RemoveByIdAppend | frontend/src/App.jsx:52 | Removal keeps the remaining projects in order. |
| App.RemoveByIdAbsent | frontend/src/App.jsx:52 | Deleting an unknown id changes nothing. |
| App.CreateThenDelete | frontend/src/App.jsx:38-58 | Creating a project and then deleting it restores the list. |
| App.Shell.constructor | frontend/src/App.jsx:13-16 | No projects, no selection, loading, form hidden. |
| App.Shell.FetchProjects | frontend/src/App.jsx:23-36 | Success stores the list and selects its first project if there is one. Failure keeps the list. Loading ends either way. |
| App.Shell.CreateProject | frontend/src/App.jsx:38-47 | Success prepends, selects and hides the form. Failure changes nothing. |
| App.Shell.DeleteProject | frontend/src/App.jsx:49-58 | Success removes the project by id and selects the first remaining project or none. No remaining project has the id. Failure changes nothing. |
| ProjectDashboard.ReplaceById | frontend/src/components/ProjectDashboard.jsx:61-63 | Same length. Each entry with the id becomes the update and the others are kept. |
| ProjectDashboard.ReplaceKeepsIds | frontend/src/components/ProjectDashboard.jsx:61-63 | The ids are unchanged. |
| ProjectDashboard.ReplaceIdempotent | frontend/src/components/ProjectDashboard.jsx:61-63 | Replacing twice is replacing once. |
| ProjectDashboard.ReplaceAbsent | frontend/src/components/ProjectDashboard.jsx:61-63 | An absent id changes nothing. |
| ProjectDashboard.Dashboard.constructor | frontend/src/components/ProjectDashboard.jsx:9-14 | Empty lists, no selection, loading, empty form. |
| ProjectDashboard.Dashboard.FetchData | frontend/src/components/ProjectDashboard.jsx:23-40 | Success stores both lists and selects the first conversation if there is one. Failure keeps the state. Loading ends. |
| ProjectDashboard.Dashboard.SetTitle | frontend/src/components/ProjectDashboard.jsx:14 | Only the title changes. |
| ProjectDashboard.Dashboard.CreateConversation | frontend/src/components/ProjectDashboard.jsx:42-57 | A blank title posts nothing and changes nothing. Otherwise it posts (project, title). Success prepends, selects, clears the title and hides the form. |
| ProjectDashboard.Dashboard.ConversationUpdate | frontend/src/components/ProjectDashboard.jsx:59-66 | The record replaces every entry with its id and becomes the selection. |

## Left out

- Network calls to OpenAI, OpenRouter, Ollama and the backend API: their outcomes are parameters (`HttpOutcome`, `Option<Reply>`, `Option<Record>`).
- The bodies of pdf-parse, ExcelJS and mammoth: what each library returns or throws is an input (`Parsers`). Reading the file from disk is not modelled.
- Fuse.js scoring: the matcher is an abstract `Scorer` with natural-number scores (lower is closer). The thresholds and key weights appear only as comments. The model keeps Fuse's ordering by score, then by position.
- `uuidv4`, `Date.now()` and `new Date().toISOString()`: parameters.
- `created_at` ordering: modelled as insertion order. SQLite's type coercion, its constraints other than the primary key, and the conversation/file cascade on project deletion are not modelled.
- `LlmService.SelectModel`: a falsy `userModel` (null, undefined, `""`) is modelled as the empty string.
- String semantics: strings are sequences of characters. Lengths are counted in characters, not UTF-16 code units. `toLowerCase` covers ASCII letters only. `JSON.stringify` of the referenced ids escapes quotes, backslashes and control characters (`ChatRoute.JsonEscape`), and `ChatRoute.JsonUnescape` reads them back as `JSON.parse` does. Where `JSON.parse` would reject a malformed escape, `JsonUnescape` keeps the backslash. Lone UTF-16 surrogates cannot occur in a sequence of characters, so their escape is not modelled. Structured message content is abstracted as a string.
- The upload directory's absolute prefix, `fs.existsSync` races, and multer's multipart parsing.
- The GET routes of `projects.js`, `files.js` and `chat.js`: read-only queries with no logic.
- The conversations and export routes, `exportService`, `HealthIndicator`, `api.js` and the purely visual components: these are not part of this model.
- React scheduling: each handler is one atomic step, and the awaited request's outcome is a parameter. `ChatWindow.Chat.Send` reports the intermediate message list as `pending`. Scroll and focus effects are not modelled.
- SearchBar's own re-index effects (`SearchBar.jsx:36-46`) make the same engine calls as `CommandPalette.Palette.IndexData`, which models them once.
- `contentEditable` is the DOM property's string value, given as an input. The browser's inheritance rules are not computed.
- `ChatRoute.ReferencedRows`, `ChatRoute.ReferencedRowsAppend`, `ChatRoute.FileContextOfTwo`: `SELECT * FROM files WHERE id IN (…)` has no `ORDER BY`, and SQLite leaves its row order unspecified (with an index on `id` it is often id order). The model fixes it as table order, so the order of blocks these members state is one possible order, not a promise of the code.

### Behaviour of the code worth noting

- Chat history: the code selects the conversation's *oldest* ten messages (`ORDER BY created_at ASC LIMIT 10`), not the most recent ten. So once ten messages exist the history stops changing (`ChatRoute.HistoryFrozenAfterTen`).
- File context: the rows of the `IN (…)` query are modelled in table order. The SQL has no `ORDER BY`, so the real order is unspecified. What does hold whatever the order is that the request's order and repetition of ids do not matter (`ChatRoute.FileContextIgnoresIdOrder`).
- Automatic selection: the hint `coding` looks up the unconfigured alias `kimi` and yields `undefined` (`LlmService.AutomaticSelection`).
- The chat window offers `ollama/llama2`, which matches none of the dispatch tests, so `chat` resolves to `undefined`. The handler then stores the user message and answers 500 (`LlmService.MenuOllamaIdIsNotDispatched`, `ChatRoute.SendPersistence`).
- Extraction is dispatched on the extension taken from the original name. The upload filter checks only the MIME type, so a permitted type with an unknown extension stores the failure sentinel (`FilesRoute.PermittedMimeUnsupportedName`).
- SearchBar opens on the untrimmed query length, but the engine searches the trimmed query, so a space and a letter open an empty dropdown (`SearchBar.PaddedLetterOpensEmpty`).
- Enter and click in the palette dispatch a selection and then Close, so the context's `selectedResult` is always cleared again (`CommandPalette.ChoiceIsClearedByClose`).

## Findings

| source | as written | input that shows it | evidently intended | confidence | as-written member | corrected member |
|---|---|---|---|---|---|---|
| frontend/src/hooks/useCommandPaletteShortcut.js:27-37 | A target counts as input-like when its `contentEditable` is any non-empty string other than `"false"`. The DOM reports `"inherit"` for every element without the attribute, such as the page body, so Cmd+K with the palette closed is ignored there. | Cmd+K on `<body>` (`contentEditable == "inherit"`) while the palette is closed | Only form fields and elements that are actually editable (`"true"`, `"plaintext-only"`) suppress opening, so Cmd+K opens the palette from the page | not executed | CommandPaletteShortcut.AsWrittenNeverOpensFromPage | CommandPaletteShortcut.IntendedOpensFromPage |
