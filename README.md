# web-developer in Dafny

This project models the core of *web-developer*, a browser workbench that
turns a chat prompt into a data visualisation. The user loads a CSV file and
types a request. The chat panel sends the recent conversation to a design
assistant backed by a hosted language model. The assistant answers with
HTML, CSS and JavaScript, which are spliced into a preview page together
with the loaded data.

The model covers these parts:

- **Messages, ChatLog** (`messages.dfy`, `chat_context.dfy`): the
  conversation log. Its merge-or-push rule folds a turn into the previous
  message when both have the same role. Change observers are notified
  synchronously.
- **DesignAssistantBot** (`design_assistant_bot.dfy`): the design assistant.
  - It keeps a five-message window.
  - It parses replies strictly on `description` and leniently on the code
    fields.
  - It retries, recursively, on parse failures and on `ValidationException`,
    adding corrective turns.
- **CodeAssistant** (`code_bot.dfy`): the older code assistant, with a
  ten-message context.
- **ChatPanel** (`chat.dfy`): the chat panel.
  - The outer attempt loop.
  - The data-schema summary.
  - The rule that decides which content blocks are shown.
- **Preview** (`preview.dfy`): the preview page template.
- **Csv** (`csv_parser.dfy`): the CSV reader. Each trimmed cell is read as a
  number, a boolean or a string.
- **SharedContext** (`shared_context.dfy`): the scanner that extracts
  declared names from generated code with two global regular expressions.
- **AppStore, DataStores, Styles, Resize** (`app_store.dfy`,
  `data_stores.dfy`, `css_manager.dfy`, `resize_handler.dfy`): the stores,
  the style-sheet registry and the editor/chat resize handle.
- **Js** (`js.dfy`): the JavaScript built-ins these rely on. They cover
  truthiness, property access and assignment, `String`, `slice`, `split`,
  `trim`, `join`, plus decimal rendering of counts.

The model's form follows the source's:

- Objects whose fields are updated in place are classes with `modifies`
  clauses. These are the stores, the log, the bots' contexts, the chat
  panel, the CSS manager and the resize handler.
- Loops are methods with invariants, each proved equal to a specification
  function. These are the CSV reader's two loops, the notification loop, the
  attempt loop, the retry recursion turned into a loop, and the `exec`
  loops.
- Pure helpers are functions with lemmas.

External effects become parameters:

- the model endpoint is a function from attempt number and message list to
  an outcome;
- `JSON.parse` is a `Decoder`, and `Number` on a cell a `NumberOf`;
- `JSON.stringify` and the text JavaScript gives a number are the two fields
  of the chat's `Formats`;
- what the chat hands to the store's `setCodeContent` and to the code
  editor's `updateCode` is recorded in the chat's `published` sequence.

The chat panel imports `dataStore` from `src/stores/AppStore.ts`, which
exports only `store`. The model reads that import as the application store,
whose `getData`, `setError` and `setGenerating` the panel calls. Neither that
store nor the one in `src/stores/data.stores.ts` defines `setCodeContent`;
the Findings section says what the code then does.

## Model

| member | source | states |
|---|---|---|
| Js.Get | src/code-bot.ts:118-127 | Reading a property throws a TypeError exactly on `null` and `undefined`. Otherwise it yields the own property, or `undefined` when that is absent. |
| Js.SetPropSpec | src/utils/csvParser.ts:25 | `obj[key] = v` keeps an existing key at its position with the new value, or appends a new key. Every other key keeps its value. Assigning `__proto__` creates no property. |
| Js.MissingPropUndefined | src/utils/csvParser.ts:25 | A key the object lacks reads as `undefined`. |
| Js.SliceFrom | src/chat-context.ts:66-68 | `slice(start)` yields a suffix. A negative start yields the last `-start` elements, clamped to the length. |
| Js.TrimSpec | src/utils/csvParser.ts:14 | `trim` leaves an infix of the text with only whitespace around it, which neither starts nor ends with whitespace. It leaves nothing exactly when the text is all whitespace. |
| Js.TrimStartSpec | src/utils/csvParser.ts:14 | Leading whitespace is exactly what is removed. |
| Js.TrimEndSpec | src/utils/csvParser.ts:14 | Trailing whitespace is exactly what is removed. |
| Js.SplitSeparatorFree | src/utils/csvParser.ts:3-4 | No part produced by `split` contains the separator. |
| Js.SplitJoin | src/utils/csvParser.ts:3-4 | Joining the parts of `split` with the separator gives back the original text. |
| Js.SplitFree | src/utils/csvParser.ts:3-4 | Text without the separator splits into itself alone. |
| Js.SplitAfterPart | src/utils/csvParser.ts:3-4 | A separator-free part followed by the separator splits off as the first part. |
| Js.SplitOfJoin | src/utils/csvParser.ts:3-4 | Splitting the join of separator-free parts gives the parts back. |
| Js.ToText | src/components/Chat/chat.ts:186-224 | `String(v)`: a string is itself, any object is "[object Object]", an empty array is "", a boolean is "true" or "false". |
| Js.ArrayTextSplits | src/components/Chat/chat.ts:186-224 | An array of comma-free strings renders as text that splits on "," back into those strings. |
| Js.NatToStringRoundTrip | src/components/Chat/chat.ts:145 | The rendered record count reads back as the count. |
| Js.NatToStringInjective | src/components/Chat/chat.ts:145 | Distinct counts render differently. |
| Messages.BlocksAppend | src/chat-context.ts:9 | Flattening a log into its content blocks distributes over concatenation. |
| ChatLog.Merge | src/chat-context.ts:22-60 | A same-role turn grows the last message's content; otherwise a new message is pushed. All earlier messages are unchanged, and alternation of roles is preserved. |
| ChatLog.MergeBlocks | src/chat-context.ts:22-60 | A merge adds exactly the new blocks at the end of the flattened log. |
| ChatLog.MergeTwice | src/chat-context.ts:22-60 | Two same-role adds in a row equal one add of both block lists. |
| ChatLog.TruncatedHistory | src/chat-context.ts:66-68 | `slice(-count)`: the last `count` messages for a positive count, the whole log for 0, and a shorter suffix for a negative count. |
| ChatLog.Notifications | src/chat-context.ts:18-20 | One delivery per callback, in registration order, each passed the same list. |
| ChatLog.ChatContext.constructor | src/chat-context.ts:9-12 | The log, the callbacks and the deliveries start empty. |
| ChatLog.ChatContext.OnMessagesChange | src/chat-context.ts:14-16 | Registers a callback at the end. |
| ChatLog.ChatContext.NotifyMessageChange | src/chat-context.ts:18-20 | The loop makes exactly the deliveries `Notifications` lists. |
| ChatLog.ChatContext.AddUserMessage | src/chat-context.ts:22-37 | The log becomes the merge of the prompt as a user turn, and observers are notified of the new log. |
| ChatLog.ChatContext.AddAssistantMessage | src/chat-context.ts:39-60 | The log becomes the merge of `[response, description]` as an assistant turn, and observers are notified. |
| ChatLog.ChatContext.GetMessages | src/chat-context.ts:62-64 | Returns the log. |
| ChatLog.ChatContext.GetTruncatedHistory | src/chat-context.ts:66-68 | Returns `TruncatedHistory` of the log and changes nothing. |
| ChatLog.ChatContext.ClearMessages | src/chat-context.ts:70-72 | Empties the log. |
| DesignAssistantBot.TruncateMessages | src/design-assistant-bot.ts:172-174 | The window is the last `min(n, 5)` messages. |
| DesignAssistantBot.AlternatingParity | src/design-assistant-bot.ts:21 | In an alternating log ending with a user turn, a turn is a user turn exactly when an even number of turns follow it. |
| DesignAssistantBot.WindowStartsWithUser | src/design-assistant-bot.ts:21 | The odd window of 5 starts with a user turn whenever the log has at least five turns, and otherwise exactly when the log does. |
| DesignAssistantBot.ParseDesignResponse | src/design-assistant-bot.ts:144-166 | Succeeds exactly when the text decodes to a non-null value with a truthy `description`. Missing code fields default to `""`, and every error carries the parse prefix. |
| DesignAssistantBot.Caught | src/design-assistant-bot.ts:106-138 | Only a ValidationException with budget left retries. It appends the placeholder only after a user turn, then the sequence-error turn. Anything else is rethrown unchanged. |
| DesignAssistantBot.Attempt | src/design-assistant-bot.ts:57-138 | A retry needs budget and extends the list by one or two turns ending with a corrective user turn, preserving alternation. A success appends the raw reply as an assistant turn. A failure leaves the list and carries the attempt's own error. |
| DesignAssistantBot.HandleReply | src/design-assistant-bot.ts:64-137 | The imperative body after the call equals `Attempt`. |
| DesignAssistantBot.ExecuteWithRetry | src/design-assistant-bot.ts:50-139 | The loop over the remaining budget returns the outcome, final list and requests of the recursive definition `Run`. |
| DesignAssistantBot.RunRequests | src/design-assistant-bot.ts:50-139 | Between 1 and `retryCount + 1` calls are made, the first on the given list. Each later request extends the previous one by a retry extension. |
| DesignAssistantBot.RunSucceeds | src/design-assistant-bot.ts:68-77 | On success, the final list is the last request plus the raw reply as an assistant turn, and the outcome is that reply parsed. |
| DesignAssistantBot.RunFails | src/design-assistant-bot.ts:79-137 | On failure, the final list is the last request and the error is the one the last attempt raised. |
| DesignAssistantBot.RunKeepsAlternation | src/design-assistant-bot.ts:114-134 | From an alternating list that ends with a user turn, every request alternates and ends with a user turn. |
| DesignAssistantBot.RunExtends | src/design-assistant-bot.ts:72-134 | Turns are only ever appended to the working list. |
| DesignAssistantBot.ThrownErrorRethrown | src/design-assistant-bot.ts:106-137 | A non-validation error, or any error with no budget left, ends the run after one call with that error. |
| DesignAssistantBot.EmptyReplyRethrown | src/design-assistant-bot.ts:64-137 | A reply without content crashes with a TypeError that is never retried. |
| DesignAssistantBot.ParseFailureRetried | src/design-assistant-bot.ts:86-101 | An unparsable reply with budget left appends the raw text and the parse-error turn, then retries with one retry fewer. |
| DesignAssistantBot.ValidationExceptionRetried | src/design-assistant-bot.ts:114-134 | A ValidationException on a non-empty list appends the placeholder only after a user turn, then the sequence-error turn, and retries. |
| DesignAssistantBot.GenerateWebDesign | src/design-assistant-bot.ts:42-45 | At most three calls, the first on the window; the caller's list is untouched. A success ends the working list with the parsed reply. |
| CodeAssistant.Capped | src/code-bot.ts:106-113 | The context keeps the last `min(n, 10)` messages. |
| CodeAssistant.CappedExtend | src/code-bot.ts:106-113 | Capping after every push equals capping the whole history once. |
| CodeAssistant.ExchangeEndsContext | src/code-bot.ts:65-94 | After an exchange the context ends with the user turn and then the assistant turn. |
| CodeAssistant.ParseAssistantResponse | src/code-bot.ts:118-133 | Succeeds exactly on decodable non-null JSON with truthy `code` and `description`. Otherwise it gives the prefixed JSON error, the TypeError on `null`, or the required-fields error. |
| CodeAssistant.Answer | src/code-bot.ts:80-100 | Model errors are rethrown as they are; a missing or empty response is invalid; otherwise the first block is parsed. |
| CodeAssistant.CodeBot.constructor | src/code-bot.ts:12-17 | The context starts empty. |
| CodeAssistant.CodeBot.AddToChatContext | src/code-bot.ts:106-113 | A push followed by the cap; the context is the capped history and ends with the message. |
| CodeAssistant.CodeBot.GenerateCode | src/code-bot.ts:59-101 | An empty prompt changes nothing. Otherwise the user turn is kept, and only a parsable reply adds the assistant turn. The result is `Answer` of the reply to the capped context. |
| CodeAssistant.GenerateCodeContext | src/code-bot.ts:59-101 | After a call the context ends with the prompt, followed by the reply when it parsed. |
| Csv.ClassifyMeaning | src/utils/csvParser.ts:14-25 | A cell reads as a number exactly when it is non-empty and numeric. It reads as a boolean when it spells true or false in any case, and otherwise as its own text; an empty cell stays `""`. |
| Csv.TrimAll | src/utils/csvParser.ts:4 | One header per column, each the trimmed column name. |
| Csv.Readings | src/utils/csvParser.ts:13-26 | One reading per header: column `j` reads as its trimmed cell classified, a missing cell as `""`. |
| Csv.ParseCsv | src/utils/csvParser.ts:2-32 | The method returns `Parse`, the records of the non-blank lines after the header. |
| Csv.ParseRows | src/utils/csvParser.ts:7-29 | The loop over lines builds the records up to each line. |
| Csv.ParseStep | src/utils/csvParser.ts:8-28 | A blank line is skipped; any other line adds its record. |
| Csv.ParseLine | src/utils/csvParser.ts:11-26 | The loop over columns builds the record `Row`. |
| Csv.ReadCell | src/utils/csvParser.ts:14-24 | The `if` chain computes `Classify`. |
| Csv.AssignKeys | src/utils/csvParser.ts:10-26 | A record's keys are exactly the header names other than `__proto__`. |
| Csv.AssignValue | src/utils/csvParser.ts:25 | A column's value survives unless a later column has the same name: the last duplicate wins. A `__proto__` column leaves `undefined`. |
| Csv.RowValue | src/utils/csvParser.ts:11-26 | In a row, the last column with a given name holds that column's reading; a `__proto__` column gives no property. |
| Csv.DataLines | src/utils/csvParser.ts:8 | The data lines are never blank. |
| Csv.RecordPerDataLine | src/utils/csvParser.ts:7-29 | One record per data line, in order. |
| Csv.ParseShape | src/utils/csvParser.ts:2-32 | One record per non-blank line after the first, each keyed by exactly the headers other than `__proto__`. |
| SharedContext.SpaceRunSpec | src/shared-context.ts:84 | `\s+` takes a maximal run of whitespace. |
| SharedContext.IdentRunSpec | src/shared-context.ts:84-85 | `[a-zA-Z0-9_$]*` takes a maximal run of identifier characters. |
| SharedContext.KeywordAtSpec | src/shared-context.ts:84-85 | The keyword alternation matches at a position exactly when one of its keywords occurs there. |
| SharedContext.MatchAt | src/shared-context.ts:84-85 | A match at `p` starts at `p` and ends within the text. |
| SharedContext.MatchAtKeyword | src/shared-context.ts:84-85 | A match is a keyword, then at least one whitespace character, then the name. |
| SharedContext.MatchAtName | src/shared-context.ts:84-85 | The captured name is an identifier ending the match, and no identifier character follows it. |
| SharedContext.NextMatch | src/shared-context.ts:89-94 | `exec` from `lastIndex` finds a match at or after it. |
| SharedContext.NextMatchSpec | src/shared-context.ts:89-94 | The match found is the leftmost; none is found only when no position matches. |
| SharedContext.ScanIdentifiers | src/shared-context.ts:89-94 | Every captured name is an identifier. |
| SharedContext.NoDeclarationKeywordAt | src/shared-context.ts:84 | No declaration keyword starts at a character other than `l`, `c` or `v`. |
| SharedContext.OutletDeclaresX | src/shared-context.ts:84 | With no word boundary, `outlet x` is read as declaring `x`. |
| SharedContext.Exec | src/shared-context.ts:89-94 | The loop over start positions returns `NextMatch`. |
| SharedContext.AddAllSpec | src/shared-context.ts:86-94 | Adding to a `Set` keeps no duplicates, keeps the existing order, and holds exactly the old and the new names. |
| SharedContext.AddAllConcat | src/shared-context.ts:86-94 | Adding two lists in turn equals adding their concatenation. |
| SharedContext.FirstIndex | src/shared-context.ts:96 | The first position of a name in a list. |
| SharedContext.AddAllOrder | src/shared-context.ts:96 | Names come out in the order of their first insertion. |
| SharedContext.DedupeSpec | src/shared-context.ts:86-96 | `Array.from(new Set(xs))` has no duplicates, holds the same names, and orders them by first occurrence. |
| SharedContext.AddMatches | src/shared-context.ts:89-94 | One `exec` loop adds the names of all its matches to the set. |
| SharedContext.ExtractVariableNames | src/shared-context.ts:83-97 | The result is the declared names, then the function names, each once at its first occurrence. |
| SharedContext.ExtractedNames | src/shared-context.ts:83-97 | The names are distinct identifiers, found by one of the two patterns, with the declared names first. |
| Preview.FullHtmlCode | src/components/Chat/chat.ts:186-224 | The page's length is the template's plus the parts'. The styles, markup, data and script each sit verbatim at offsets fixed by the template. |
| Preview.PageFrame | src/components/Chat/chat.ts:192-223 | Whatever the parts, the page opens with the template's head and closes with its end. |
| ChatPanel.DesignBlocks | src/components/Chat/chat.ts:93-96 | A design adds two blocks: its code as JSON text, then its description, a string description as itself. |
| ChatPanel.MergeEndsWith | src/chat-context.ts:22-60 | After a merge the log ends with a turn of the merged role whose last blocks are the merged ones. |
| ChatPanel.DesignerOf | src/components/Chat/chat.ts:86-89 | Each attempt's generator is the assistant's retrying run on the window. |
| ChatPanel.Chat.constructor | src/components/Chat/chat.ts:30-53 | The prompt is empty and enabled, nothing has been published, the "chat" styles are registered, and the panel's view update is appended to the log's callbacks. |
| ChatPanel.Chat.SetLoading | src/components/Chat/chat.ts:180-184 | The store's generating flag and the prompt's disabled state follow `loading`. |
| ChatPanel.Chat.GenerateCodeWithRetry | src/components/Chat/chat.ts:69-134 | A blank prompt or a generation under way changes nothing. Otherwise the log ends as the exchange and its closing turn say, a failure becomes the store's error, a success clears the prompt and is published, and loading ends. |
| ChatPanel.Chat.Generate | src/components/Chat/chat.ts:73-133 | The guarded body, with the same outcome. |
| ChatPanel.Chat.Converse | src/components/Chat/chat.ts:76-124 | Adds the data summary and the prompt, then runs the attempt loop. |
| ChatPanel.Chat.AddPrompt | src/components/Chat/chat.ts:77-82 | The summary is added when data is loaded, then the prompt, both as user blocks. |
| ChatPanel.Chat.AttemptLoop | src/components/Chat/chat.ts:84-124 | The `for` loop equals `Attempts` from attempt 0. |
| ChatPanel.Chat.ShowDesign | src/components/Chat/chat.ts:92-114 | Logs the code and description, publishes the code, the full page and the loaded records (or an empty list), and clears the prompt. |
| ChatPanel.Chat.ShowDesignAsWritten | src/components/Chat/chat.ts:92-104 | As written: logs the code and description, then meets the `setCodeContent` TypeError; nothing is published and the prompt is kept. |
| ChatPanel.Chat.TryAttempt | src/components/Chat/chat.ts:85-123 | One loop pass stops on code or on the last failure. Otherwise it logs the failure notice and goes on as `Attempts` does. |
| ChatPanel.WindowWithinBotWindow | src/components/Chat/chat.ts:86 | The chat's window of three fits inside the assistant's window of five. |
| ChatPanel.AttemptsCalls | src/components/Chat/chat.ts:84 | At most one generator call per remaining attempt, and at least one while any attempt remains. |
| ChatPanel.ConversationCalls | src/components/Chat/chat.ts:69-84 | One click makes at most `retries + 1` generator calls, and none when `retries` is negative. |
| ChatPanel.ClickCalls | src/components/Chat/chat.ts:69-84 | With the default single retry, a click makes one or two generator calls. |
| ChatPanel.CodeDesignFailsAsWritten | src/components/Chat/chat.ts:92-123 | When every attempt yields code, the intended loop stops at the first attempt with that design; as written, every attempt is spent and the loop fails with the `setCodeContent` TypeError. |
| ChatPanel.AsWrittenCalls | src/components/Chat/chat.ts:84-124 | As written, the loop makes at most one call per remaining attempt and at least one; a failure spends every attempt. |
| ChatPanel.AsWrittenExtendsLog | src/components/Chat/chat.ts:84-124 | As written, the loop only adds blocks at the end of the log. |
| ChatPanel.AsWrittenKeepsAlternation | src/components/Chat/chat.ts:84-124 | As written, the loop keeps roles alternating. |
| ChatPanel.AttemptsExtendLog | src/components/Chat/chat.ts:84-124 | The loop only adds blocks at the end of the log. |
| ChatPanel.AttemptsKeepAlternation | src/components/Chat/chat.ts:84-124 | The loop keeps roles alternating. |
| ChatPanel.GeneratedEndsLog | src/components/Chat/chat.ts:92-96 | A generated design has code, and the log ends with its code and description blocks. |
| ChatPanel.AllEmptyAddsNothing | src/components/Chat/chat.ts:84-124 | When every attempt returns no code, nothing is logged and no error is reported. |
| ChatPanel.FailureNoticed | src/components/Chat/chat.ts:116-122 | A failure before the last attempt leaves one retry notice and moves on. |
| ChatPanel.FieldTypes | src/components/Chat/chat.ts:141-143 | One `key: typeof value` entry per property, in property order. |
| ChatPanel.DataStructureDescription | src/components/Chat/chat.ts:136-146 | Empty exactly when no records are loaded; otherwise it starts with the structure lead. |
| ChatPanel.SummaryParts | src/components/Chat/chat.ts:136-146 | A summary is the lead, the first record's entries joined with ", ", the middle text, the record count and " records.", at fixed offsets. |
| ChatPanel.SummaryCountReadsBack | src/components/Chat/chat.ts:145 | The digits after a space just before " records." read back as the record count. |
| ChatPanel.DescriptionDeterminesCount | src/components/Chat/chat.ts:145 | Equal summaries of data sets with the same first record imply equal record counts. |
| ChatPanel.RenderedTurn | src/components/Chat/chat.ts:150-168 | A user turn shows all its blocks; an assistant turn shows only its non-empty second block. |
| ChatPanel.RenderedAppend | src/components/Chat/chat.ts:148-170 | Rendering distributes over concatenation of logs. |
| ChatPanel.MergedDescriptionHidden | src/components/Chat/chat.ts:160 | As written, a turn merged into an assistant message that already has a description is never shown. |
| ChatPanel.RetriedSuccessHidden | src/components/Chat/chat.ts:116-168 | A failed attempt followed by a success shows "Error" and never the design's description. |
| ChatPanel.RenderedTurnAll | src/components/Chat/chat.ts:159-167 | The intended rule shows one bubble per non-empty description. |
| ChatPanel.DescriptionsAppendPair | src/chat-context.ts:39-60 | Appending a response/description pair appends its description. |
| ChatPanel.DescriptionBubbles | src/components/Chat/chat.ts:162-166 | One assistant bubble per description, in order. |
| ChatPanel.DescriptionBubblesAppend | src/components/Chat/chat.ts:162-166 | Bubbles distribute over concatenation. |
| ChatPanel.AddAssistantShowsDescription | src/components/Chat/chat.ts:148-170 | Under the intended rule, adding an assistant turn shows its non-empty description after everything shown before, whether or not it was merged. |
| ChatPanel.MergedTurnShows | src/components/Chat/chat.ts:148-170 | Under the intended rule, a reply merged into the last assistant turn adds exactly its non-empty description to what is shown. |
| ChatPanel.NewTurnShows | src/components/Chat/chat.ts:148-170 | Under the intended rule, a reply that starts a new assistant turn adds exactly its non-empty description to what is shown. |
| ChatPanel.AddKeepsPairs | src/chat-context.ts:22-60 | Adds keep every assistant turn made of whole response/description pairs. |
| AppStore.Store.constructor | src/stores/AppStore.ts:8-21 | No data, the combined editor, empty code, not generating, and no error or toast. |
| AppStore.Store.SetData | src/stores/AppStore.ts:37-39 | Stores the data; `hasData` holds exactly for a non-empty array. |
| AppStore.Store.GetData | src/stores/AppStore.ts:41-43 | Returns the data. |
| AppStore.Store.UpdateCode | src/stores/AppStore.ts:45-57 | Only the named code field changes. |
| AppStore.Store.UpdateCombinedCode | src/stores/AppStore.ts:59-61 | Sets the combined code. |
| AppStore.Store.GetCodeContent | src/stores/AppStore.ts:63-70 | Returns the four code fields. |
| AppStore.Store.SetAllCode | src/stores/AppStore.ts:72-76 | Sets the three code fields. |
| AppStore.Store.SetActiveEditor | src/stores/AppStore.ts:78-80 | Sets the active editor. |
| AppStore.Store.SetError | src/stores/AppStore.ts:82-84 | Sets the error. |
| AppStore.Store.SetGenerating | src/stores/AppStore.ts:86-88 | Sets the generating flag. |
| AppStore.Store.ShowToast | src/stores/AppStore.ts:90-92 | Sets the toast. |
| AppStore.Store.Clear | src/stores/AppStore.ts:94-101 | Drops the data, the code and the error. |
| DataStores.DataStoreManager.constructor | src/stores/data.stores.ts:23 | Starts with no data. |
| DataStores.DataStoreManager.SetData | src/stores/data.stores.ts:29-31 | Stores the data; `hasData` holds exactly for a non-empty array. |
| DataStores.DataStoreManager.GetData | src/stores/data.stores.ts:33-35 | Returns the data. |
| DataStores.DataStoreManager.Clear | src/stores/data.stores.ts:37-39 | Drops the data. |
| DataStores.DataStoreManagerStatic.constructor | src/stores/data.stores.ts:10-14 | There is no instance yet. |
| DataStores.DataStoreManagerStatic.GetInstance | src/stores/data.stores.ts:16-21 | Creates the instance once and returns the same one afterwards. |
| DataStores.SharedInstance | src/stores/data.stores.ts:16-35 | Two `getInstance` calls share one store, so data set through one is read through the other. |
| Styles.StyleElement.constructor | src/utils/css-manager.ts:20-22 | A style element carries its component and text. |
| Styles.Without | src/utils/css-manager.ts:27-32 | Removing an element keeps exactly the other elements. |
| Styles.WithoutAt | src/utils/css-manager.ts:27-32 | In a head without repeats, removing the element at `k` leaves the elements before and after it, in document order. |
| Styles.WithoutDistinct | src/utils/css-manager.ts:27-32 | Removal keeps the head free of duplicates and removes exactly one element. |
| Styles.CSSManager.constructor | src/utils/css-manager.ts:4 | No style sheets. |
| Styles.CSSManager.AddStyles | src/utils/css-manager.ts:15-25 | A component already present changes nothing. Otherwise a fresh element is appended to the head and registered. |
| Styles.CSSManager.RemoveStyles | src/utils/css-manager.ts:27-32 | A component's element leaves the head and the map; an unknown component changes nothing. |
| Styles.CSSManagerStatic.constructor | src/utils/css-manager.ts:3-6 | There is no instance yet. |
| Styles.CSSManagerStatic.GetInstance | src/utils/css-manager.ts:8-13 | Creates the manager once and returns the same one afterwards. |
| Resize.ProposedHeight | src/components/ResizeHandler.ts:39-41 | The new height is the dragged height, raised to at least the editor's minimum. |
| Resize.ResizeHandler.constructor | src/components/ResizeHandler.ts:2-4 | Not dragging. |
| Resize.ResizeHandler.OnMouseDown | src/components/ResizeHandler.ts:29-35 | Starts a drag from the pointer position and the current height. |
| Resize.ResizeHandler.OnMouseMove | src/components/ResizeHandler.ts:37-51 | While dragging, the proposed height is applied only when it leaves the chat its minimum. Without a drag nothing changes. |
| Resize.ResizeHandler.OnMouseUp | src/components/ResizeHandler.ts:53-57 | Ends the drag. |
| Resize.SmallContainerNeverResizes | src/components/ResizeHandler.ts:44-50 | A container shorter than both minimums together, or none at all, never accepts a new height. |

## Left out

- Network and model calls are parameters.
  - The Bedrock service, the system prompts, the model id, the
    inference settings and the credentials are not part of this model.
  - Each call is a function from the attempt number and the message list
    to the reply's content blocks or a thrown error.
- `JSON.parse`, `JSON.stringify` and `Number` are parameters. Their own
  behaviour is not modelled:
  - number syntax;
  - `Infinity`;
  - `NaN`, which does not arise from decoded JSON.
- Property order of records follows insertion. JavaScript lists
  integer-like keys first; that ordering is not modelled.
- The DOM is not modelled: rendering, the message bubbles' timestamps,
  scrolling, the code editor and toasts. What the chat hands to the editor
  and to the store's code is recorded as `published`.
- Timing is not modelled: the one-second pause between chat attempts, the
  resize listeners' registration, and console logging.
- The chat log's observers are callback identities; what a callback does
  is not modelled. The deliveries made during a generation are not stated
  in `ChatPanel.Chat.GenerateCodeWithRetry`'s contract, whose frame
  permits them.
- In `src/shared-context.ts`, only `extractVariableNames` is modelled.
  - `evaluate`, `validateCode` and `updateContext` run generated code, so
    they are not part of this model.
  - The two regular expressions are modelled directly by a matcher
    specialised to their shape (keyword, whitespace, identifier), not by
    a general regex engine.
- `Csv.SpellsIgnoringCase` lower-cases ASCII letters only. That decides
  exactly the same cells as `toLowerCase` when compared with `"true"` and
  `"false"`.
- Heights in the resize handler are integers, as `offsetHeight` is.
- The model follows the code, not the stated design, in two places:
  - the code assistant keeps its own capped context and does not write to
    the shared chat log;
  - the chat log has no length cap and no rule that it start with a user
    turn.
- ChatPanel.Chat.ShowDesign: models the hand-off the code evidently
  intends. As written, `setCodeContent` does not exist and the step throws;
  `ChatPanel.Chat.ShowDesignAsWritten` and the Findings section cover that.
- ChatPanel.Chat.Generate: its success case rests on the intended
  `ShowDesign`; as written no click ever ends in a success.
- ChatPanel.Chat.GenerateCodeWithRetry: the same as `Generate`.
- ChatPanel.Chat.Converse: models the intended hand-off; as written, a
  pass that gets code logs the design and the loop goes on as
  `AttemptsAsWritten`.
- ChatPanel.Chat.AttemptLoop: proved equal to the intended `Attempts`; as
  written the loop runs as `AttemptsAsWritten`.
- ChatPanel.Chat.TryAttempt: a pass that gets code stops in the intended
  program; as written the `setCodeContent` TypeError is caught and the
  loop goes on.
- ChatPanel.GeneratedEndsLog: the same as `Generate`; as written a design with code is
  logged but the loop goes on as after a failure.
- ChatPanel.Chat.ShowDesign: the log keeps the text of a non-string
  description, not the value itself. The two differ on screen only for a
  truthy value whose text is empty, such as an empty array: the panel
  shows an empty bubble and the model shows none. A description is never
  falsy, since the assistant rejects replies without one.
- Js.ToText: a number's text is a parameter; number formatting is not
  modelled.
- Js.SetPropSpec: an object assigned to `__proto__` becomes the prototype,
  whose properties later reads would inherit. Only own properties are
  modelled; the CSV reader assigns only strings, numbers and booleans.

## Findings

| source | as written | input that shows it | evidently intended | confidence | as-written member | corrected member |
|---|---|---|---|---|---|---|
| src/components/Chat/chat.ts:160 | `updateChatUI` shows only the second content block of an assistant message. `addAssistantMessage` merges consecutive assistant turns into one message, so later descriptions land at positions 3, 5, … and are never shown. | Attempt 1 fails, logging `["Attempt 1 failed: …", "Error"]`; attempt 2 succeeds with description "A bar chart of sales". The panel shows the prompt and "Error", never the description. | Every non-empty description of an assistant message is shown, in order | not executed | ChatPanel.MergedDescriptionHidden, ChatPanel.RetriedSuccessHidden | ChatPanel.RenderedTurnAll, ChatPanel.AddAssistantShowsDescription |
| src/components/Chat/chat.ts:99 | A design with code is logged, then `setCodeContent` is called on a store that has no such method. The TypeError is caught as a failed attempt, so `updateCode` is never reached and the prompt is never cleared. | Default single retry, and both attempts return a design whose `html` is non-empty. The log gets the design, the notice "Attempt 1 failed: dataStore.setCodeContent is not a function. Retrying...", the design again, and "Error generating design: dataStore.setCodeContent is not a function"; the store's error is that message and nothing reaches the editor. | The design is handed to the store and the editor, the prompt is cleared and the loop stops | not executed | ChatPanel.CodeDesignFailsAsWritten, ChatPanel.Chat.ShowDesignAsWritten | ChatPanel.Chat.ShowDesign, ChatPanel.Chat.TryAttempt, ChatPanel.Chat.AttemptLoop, ChatPanel.Chat.Converse, ChatPanel.GeneratedEndsLog |
