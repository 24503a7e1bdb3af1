# cmd-k: a Dafny model of the extension's broker, chat turn and session logic

cmd-k is a browser extension that opens a chat side panel. It answers questions
about the open tabs through Echo-hosted language models. This project models
the logic behind that panel and proves properties of the model:

- **The background worker** (`background.dfy`, module `Background`).
  - It is the extension's credential broker. `chrome.storage.local` is a map
    over the five `echo_*` keys.
  - Each `onMessage` action is a method of `Broker` that updates that map.
    The actions are AUTHENTICATE, GET_USER, GET_TOKEN, REFRESH_TOKEN,
    CHECK_AUTH, SIGN_OUT and GET_TAB_CONTENT.
  - Each method is proved against a function of the old storage. The clock
    and every foreign outcome are inputs:
    - the `authenticate` and `refreshTokens` exchanges;
    - the active-tab query;
    - the script injection.
- **The page-text extractor** (`extraction.dfy`, module `Extraction`). This is
  the routine the worker injects into a tab. It picks the first qualifying
  content element. It then cleans the text: collapse whitespace runs, remove
  empty lines, trim, and truncate to 8000 characters plus `...`.
- **The side panel's conversation** (`chat_window.dfy`, module `ChatWindow`).
  - A context list, kept by an upsert on the tab id.
  - The send guard and trimming.
  - The history handed to the model.
  - The case-insensitive provider dispatch.
  - The streaming assembler. It appends a streaming assistant message, folds
    each delta into it and seals it. On error it seals every streaming
    message and appends an error message.
- **The authentication session the UI reads** (`echo_context.dfy`, module
  `EchoContext`).
  - Six state fields, updated by re-reading the broker's CHECK_AUTH answer,
    by signing in and out, and by fetching the balance.
  - A storage-change filter that decides when to re-read.
- **The prompt formatter for a tab's content** (`tab_content.dfy`).
- **The OpenAI client loader** (`use_echo_openai.dfy`).
  - Its abort-guarded steps are separate events, each reading its own
    controller's flag.
  - Its error classifier is a separate function.
- **The chat input box** (`chat_input.dfy`).
- **The older single-shot chat page** (`chat_page.dfy`).

Shared pieces:

- `wrappers.dfy`: `Option`, and `Settled` for the outcome of a promise.
- `text.dfy`: the JavaScript string primitives the code relies on.
  - `trim()` and the `\s` class share one whitespace set.
  - `toLowerCase()` on ASCII.
  - `includes()`.
- `echo_types.dfy`: the Echo user, balance and token records.
- `ai_messages.dfy`: the role/content messages sent to a model.

Every class method is specified by a function of its old state. The properties
the components promise are lemmas about those functions. Lemmas that cross
components check how the pieces meet:

- a sign-in stored by the broker makes the session signed in;
- text from the input box is accepted by the side panel unchanged;
- page text from the extractor is well spaced.

## Model

| member | source | states |
|---|---|---|
| `Text.TrimStart` | src/background.ts:187 | the result is a suffix of the input (`trimStart` keeps the tail) |
| `Text.TrimEnd` | src/background.ts:187 | the result is a prefix of the input |
| `Text.TrimStartDrops` | src/background.ts:187 | what the leading trim removes is whitespace, and the result does not start with whitespace |
| `Text.TrimEndDrops` | src/background.ts:187 | what the trailing trim removes is whitespace, and the result does not end with whitespace |
| `Text.TrimDrops` | src/components/chat/ChatInput.tsx:12 | `trim()` is empty exactly when the input is all whitespace (the falsy case of `!input.trim()`); otherwise it starts and ends with a non-space |
| `Text.ToLower` | src/components/chat/ChatWindow.tsx:120 | lowercasing keeps the length |
| `Text.ToLowerAt` | src/components/chat/ChatWindow.tsx:120 | lowercasing maps each character on its own, in place |
| `Text.ContainsAt` | src/hooks/useEchoOpenAi.ts:97-101 | `includes` holds whenever the pattern occurs at some index |
| `Text.ContainsOnlyAt` | src/hooks/useEchoOpenAi.ts:97-101 | `includes` holds only if the pattern occurs at some index, which it returns |
| `Extraction.FirstQualifying` | src/background.ts:162-171 | the index found is the first selector from `i` on whose element exists and has trimmed text longer than 100, or the end when none does |
| `Extraction.FirstQualifyingAt` | src/background.ts:165-170 | a qualifying selector with none qualifying before it is the one the loop settles on |
| `Extraction.CollapseSpaces` | src/background.ts:185 | `\s+ → ' '` keeps emptiness and the first character, a leading whitespace becoming a space |
| `Extraction.LastNewline` | src/background.ts:186 | the index returned holds a newline and none after it in the range does, or there is no newline in the range |
| `Extraction.ExtractContent` | src/background.ts:160-199 | the routine returns the cleaned text of the chosen element's clone (`innerText`, else `textContent`), `location.href` and `document.title` |
| `Extraction.ChosenElement` | src/background.ts:163-171 | no contract; characterised by `ExtractionProofs.ChosenElementIsFirstQualifying` |
| `Extraction.CloneText` | src/background.ts:181 | no contract; `innerText` of the cleaned clone, falling back to its `textContent` when empty, as `||` does |
| `Extraction.RemoveEmptyLines` | src/background.ts:186 | no contract; characterised by `ExtractionProofs.RemoveEmptyLinesWithoutNewline` and `ExtractionProofs.EmptyLinePassIsIdentity` |
| `Extraction.Truncate` | src/background.ts:190-192 | text of at most 8000 characters is kept whole; longer text becomes its first 8000 characters followed by `...` |
| `Extraction.CleanText` | src/background.ts:184-192 | no contract; characterised by `ExtractionProofs.CleanTextShape`, `CleanTextTruncation` and `CleanTextKeepsText` |
| `ExtractionProofs.TrimStartSpaces` | src/background.ts:185 | whitespace in front of a text starting with a visible character is exactly what the leading trim removes |
| `ExtractionProofs.TrimStartAppend` | src/background.ts:185 | the leading trim of a text with a visible character never reaches what follows it |
| `ExtractionProofs.CollapseAppend` | src/background.ts:185 | a text ending with a visible character collapses independently of what follows, since no run crosses its end |
| `ExtractionProofs.CollapseSplits` | src/background.ts:185 | a whitespace run between two words becomes exactly one space, with each side collapsed on its own |
| `ExtractionProofs.CollapseIsWellSpaced` | src/background.ts:185 | after the collapse every whitespace is a plain space and no two are adjacent |
| `ExtractionProofs.RemoveEmptyLinesWithoutNewline` | src/background.ts:186 | the empty-line replacement changes nothing in a text without newlines |
| `ExtractionProofs.EmptyLinePassIsIdentity` | src/background.ts:184-187 | `\n\s*\n` cannot match after `\s+` has become `' '`, so the second replacement is the identity |
| `ExtractionProofs.NonSpaceAppend` | src/background.ts:184-187 | the non-whitespace characters of a concatenation are those of its parts, in order |
| `ExtractionProofs.NonSpaceTrimStart` | src/background.ts:187 | the leading trim removes no visible character |
| `ExtractionProofs.CollapseKeepsText` | src/background.ts:185 | collapsing whitespace keeps every non-whitespace character, in order |
| `ExtractionProofs.CollapseWellSpaced` | src/background.ts:185 | a text that is already well spaced is left alone by the collapse |
| `ExtractionProofs.CollapseIdempotent` | src/background.ts:185 | collapsing twice is collapsing once |
| `ExtractionProofs.TrimIsSlice` | src/background.ts:187 | `trim()` returns a contiguous slice of its input |
| `ExtractionProofs.WellSpacedSlice` | src/background.ts:187-191 | every slice of a well-spaced text is well spaced |
| `ExtractionProofs.TrimWellSpaced` | src/background.ts:187 | trimming keeps a text well spaced |
| `ExtractionProofs.TruncateShape` | src/background.ts:190-192 | truncation keeps a trimmed well-spaced text trimmed and well spaced, at most 8003 characters |
| `ExtractionProofs.CleanTextShape` | src/background.ts:184-192 | the page text has no whitespace but single spaces, none at either end, and at most 8003 characters |
| `ExtractionProofs.CleanTextTruncation` | src/background.ts:189-192 | text of at most 8000 characters after trimming is kept whole; longer text becomes its first 8000 characters and `...` |
| `ExtractionProofs.CleanTextKeepsText` | src/background.ts:184-187 | short of truncation, the clean-up keeps every non-whitespace character, in order |
| `ExtractionProofs.NonSpaceTrim` | src/background.ts:187 | trimming removes no visible character |
| `ExtractionProofs.NonSpaceTrimEnd` | src/background.ts:187 | the trailing trim removes no visible character |
| `ExtractionProofs.NonSpaceAllSpace` | src/background.ts:187 | an all-whitespace text has no visible character |
| `ExtractionProofs.ChosenElementIsFirstQualifying` | src/background.ts:162-171 | the element read is that of the first of `article`, `main`, `[role="main"]`, `body` whose trimmed text is longer than 100, and `document.body` when none qualifies |
| `TabContentLib.FormatTabContentForPrompt` | src/lib/tabContent.ts:30-46 | the section is empty exactly when the content is null or empty |
| `TabContentLib.FormatLayout` | src/lib/tabContent.ts:35-45 | header, URL, title label, title, content label, content verbatim and footer follow one another, and the length is a constant plus the lengths of the three values |
| `TabContentLib.FormatHead` | src/lib/tabContent.ts:35-39 | the section opens with the header, the URL, the title label and the title |
| `TabContentLib.FormatTail` | src/lib/tabContent.ts:40-45 | the content label, the content and the footer close the section, and the length adds up |
| `TabContentLib.FixedLengthValue` | src/lib/tabContent.ts:35-45 | the template's fixed text is 193 characters |
| `TabContentLib.NullRendersAsText` | src/lib/tabContent.ts:38-39 | a null URL or a null title is rendered as the text `null` in its place |
| `Background.WithTokens` | src/background.ts:73-78 | the refresh write sets the four token keys from the response and keeps every other key |
| `Background.AfterAuthenticate` | src/background.ts:40-49 | an accepted sign-in writes the five keys from the response; anything else leaves storage unchanged |
| `Background.ServeToken` | src/background.ts:66-85 | no refresh happens iff the stored token and expiry are present and `now` is before the expiry. That token is then returned and storage is unchanged. Otherwise a successful refresh stores the new tokens and returns the new access token, and a failed one returns `null` with storage unchanged. `echo_user` is never touched |
| `Background.AuthStatus` | src/background.ts:123-133 | authenticated iff user, access token and expiry are present and `now` is before the expiry; user and token are reported only then |
| `Background.Cleared` | src/background.ts:137-143 | SIGN_OUT removes exactly the five keys, after which no user or token is stored |
| `Background.TabContentFor` | src/background.ts:147-217 | no contract; characterised by `BackgroundProofs.TabContentIsClean` and `BackgroundProofs.TabContentFallbacks` |
| `Background.Handle` | src/background.ts:35-220 | no contract; the specification of `Background.Broker.OnMessage`, characterised by the `BackgroundProofs` lemmas |
| `Background.Broker.constructor` | src/background.ts:35 | the worker starts from a well-typed storage |
| `Background.Broker.OnMessage` | src/background.ts:35-220 | each action's effect on storage and its reply are those of its case; an unknown action gets no reply; storage stays well typed |
| `Background.Broker.AuthenticateAction` | src/background.ts:39-52 | storage becomes AfterAuthenticate of the old storage, and the response is forwarded as it is |
| `Background.Broker.ServeTokenAction` | src/background.ts:59-116 | storage and the token sent are ServeToken of the old storage |
| `Background.Broker.CheckAuthAction` | src/background.ts:117-135 | the reply is AuthStatus of the storage, and storage is only read |
| `Background.Broker.SignOutAction` | src/background.ts:136-146 | storage becomes Cleared of the old storage, and the reply is `success: true` |
| `Background.Broker.GetTabContentAction` | src/background.ts:147-217 | the reply is the all-null record without a usable tab, the tab's URL and title when injection fails, and otherwise the extracted text with the page's URL and title (empty values fall back) |
| `BackgroundProofs.SignOutThenCheckAuth` | src/background.ts:136-145 | after SIGN_OUT, CHECK_AUTH answers false with no user and no token |
| `BackgroundProofs.SignInThenCheckAuth` | src/background.ts:40-49 | after an accepted sign-in with a non-empty unexpired token, CHECK_AUTH reports that user and that token |
| `BackgroundProofs.RefreshThenServedFromStore` | src/background.ts:67-79 | after a successful refresh, the next GET_TOKEN before the new expiry returns the same token from storage without refreshing |
| `BackgroundProofs.GetUserAfterSignInAndOut` | src/background.ts:54-58 | GET_USER reports the user an accepted sign-in stored, and `null` after SIGN_OUT |
| `BackgroundProofs.TokenActionsAgree` | src/background.ts:88-116 | REFRESH_TOKEN answers and stores exactly as GET_TOKEN |
| `BackgroundProofs.HandleKeepsWellTyped` | src/background.ts:35-220 | every action keeps each key holding what the broker writes under it |
| `BackgroundProofs.ReadOnlyActions` | src/background.ts:54-58 | GET_USER, CHECK_AUTH and GET_TAB_CONTENT leave storage unchanged, and only an unknown action goes unanswered |
| `BackgroundProofs.TabContentIsClean` | src/background.ts:202-207 | page text in the GET_TAB_CONTENT reply is non-empty, trimmed, well spaced and at most 8003 characters |
| `BackgroundProofs.TabContentFallbacks` | src/background.ts:151-153 | no active tab or no usable id gives all nulls; a failed injection gives a null content with the tab's own URL and title |
| `ChatWindow.FindTab` | src/components/chat/ChatWindow.tsx:54-56 | `findIndex` returns the first index holding the tab id, or -1 when none does |
| `ChatWindow.AddContext` | src/components/chat/ChatWindow.tsx:52-73 | an unseen tab is appended at the end, and the list grows by at most one |
| `ChatWindow.ProviderFor` | src/components/chat/ChatWindow.tsx:119-130 | no contract; characterised by `ChatWindowProofs.ProviderDispatch` |
| `ChatWindow.History` | src/components/chat/ChatWindow.tsx:113-116 | the history has one entry per message in order, role `user` iff `isUser`, content the text |
| `ChatWindow.AppendDelta` | src/components/chat/ChatWindow.tsx:172-178 | a delta keeps the number of messages |
| `ChatWindow.FoldDeltas` | src/components/chat/ChatWindow.tsx:171-179 | the streaming loop keeps the number of messages |
| `ChatWindow.SealStream` | src/components/chat/ChatWindow.tsx:182-186 | every message carrying the id stops streaming with its id, text, author and timestamp kept, and every other message is unchanged |
| `ChatWindow.SealAll` | src/components/chat/ChatWindow.tsx:191-195 | on error every message stops streaming with its id, text, author and timestamp kept, the list keeping its length and order |
| `ChatWindow.Reached` | src/components/chat/ChatWindow.tsx:106-187 | the `catch` runs exactly when the tab fetch failed, the provider has no client, or the call or the stream threw |
| `ChatWindow.Window.constructor` | src/components/chat/ChatWindow.tsx:34-41 | the panel starts with no messages, no contexts, both flags false and the default model |
| `ChatWindow.Window.OnAddContext` | src/components/chat/ChatWindow.tsx:48-74 | the context list becomes AddContext of the old list, and nothing else changes |
| `ChatWindow.Window.SelectModel` | src/components/chat/ChatWindow.tsx:39-41 | the selected model is replaced, and nothing else changes |
| `ChatWindow.Window.AssembleStream` | src/components/chat/ChatWindow.tsx:171-179 | after the loop the messages are the deltas folded in arrival order into the assistant message's id |
| `ChatWindow.Window.CallModel` | src/components/chat/ChatWindow.tsx:113-186 | the model is called with the history of the updated messages iff the selected provider has a client; the messages end as Reached describes |
| `ChatWindow.Window.ShowError` | src/components/chat/ChatWindow.tsx:190-203 | every streaming message is sealed, then the error message is appended |
| `ChatWindow.Window.RunTurn` | src/components/chat/ChatWindow.tsx:94-207 | the messages end as the turn's outcome dictates, the call carries the history with the user message, and both flags end false |
| `ChatWindow.Window.SendMessage` | src/components/chat/ChatWindow.tsx:91-208 | an all-whitespace text or a running generation changes nothing (`isFetchingContext` is not consulted); otherwise one turn runs with the trimmed text through the provider its tag selects |
| `ChatWindowProofs.AddContextSeen` | src/components/chat/ChatWindow.tsx:58-68 | a seen tab with the same URL leaves the list identical, and a new URL replaces that index only |
| `ChatWindowProofs.AddContextKeepsUnique` | src/components/chat/ChatWindow.tsx:52-73 | the reducer keeps at most one context per tab id |
| `ChatWindowProofs.SameTabTwice` | src/components/chat/ChatWindow.tsx:58-68 | two pushes of one tab with one URL give one entry |
| `ChatWindowProofs.ProviderDispatch` | src/components/chat/ChatWindow.tsx:119-130 | lowercased `anthropic` selects Anthropic, `gemini` selects Google, and everything else selects OpenAI |
| `ChatWindowProofs.ProviderTagsIgnoreCase` | src/components/chat/ChatWindow.tsx:120 | `OpenAI`, `Anthropic` and `Gemini` select their providers |
| `ChatWindowProofs.OpenAiTag` | src/components/chat/ChatWindow.tsx:121-122 | `OpenAI` selects OpenAI |
| `ChatWindowProofs.AnthropicTag` | src/components/chat/ChatWindow.tsx:123-124 | `Anthropic` selects Anthropic |
| `ChatWindowProofs.GeminiTag` | src/components/chat/ChatWindow.tsx:125-126 | `Gemini` selects Google |
| `ChatWindowProofs.GoogleTagFallsBack` | src/components/chat/ChatWindow.tsx:127-128 | the tag `google` is not recognised and falls back to OpenAI |
| `ChatWindowProofs.HistoryAppend` | src/components/chat/ChatWindow.tsx:113-116 | the history of a concatenation is the concatenation of the histories |
| `ChatWindowProofs.FoldDeltasAt` | src/components/chat/ChatWindow.tsx:171-179 | the deltas append their in-order concatenation to the messages carrying the id, and no other message changes |
| `ChatWindowProofs.WhileStreaming` | src/components/chat/ChatWindow.tsx:157-179 | while streaming, the assistant message is last and the only streaming one, and holds the deltas so far |
| `ChatWindowProofs.SealOnly` | src/components/chat/ChatWindow.tsx:182-186 | sealing an id that only the last message carries seals that message alone |
| `ChatWindowProofs.StreamOutcomeReached` | src/components/chat/ChatWindow.tsx:157-186 | a stream that was made leaves one assistant message with every delta, sealed exactly when the stream ended normally |
| `ChatWindowProofs.TurnSucceeds` | src/components/chat/ChatWindow.tsx:94-186 | a successful turn appends the user message and one sealed assistant message holding all deltas in order |
| `ChatWindowProofs.TurnFailsBeforeStream` | src/components/chat/ChatWindow.tsx:132-136 | a turn without tab contents, client or stream keeps the user message and appends the error message after it |
| `ChatWindowProofs.TurnFailsMidStream` | src/components/chat/ChatWindow.tsx:187-203 | a stream that throws keeps the partial text in the assistant message, now sealed, and appends the error message last |
| `ChatWindowProofs.TurnErrorComesLast` | src/components/chat/ChatWindow.tsx:187-203 | a failing turn ends with the error message, and no message is left streaming |
| `ChatWindowProofs.FailedShape` | src/components/chat/ChatWindow.tsx:190-203 | the error path seals everything and puts the error message last |
| `ChatWindowProofs.NoStreamingAfterTurn` | src/components/chat/ChatWindow.tsx:182-207 | if no message streams before a turn, none streams after it, whatever the outcome |
| `ChatWindowProofs.TurnCallHistory` | src/components/chat/ChatWindow.tsx:102-116 | the call carries the selected model id and the history of every earlier message followed by the trimmed user text |
| `ChatWindowProofs.HelloScenario` | src/components/chat/ChatWindow.tsx:91-186 | at any send time, `Hello` answered by `Hi` and ` there` gives the user's `Hello` followed by the assistant's `Hi there` |
| `EchoContext.CheckAuthStatus` | src/contexts/echo.tsx:11-25 | a channel error rejects with its message; otherwise the reply is taken over, a missing or empty token becoming null |
| `EchoContext.Updated` | src/contexts/echo.tsx:36-51 | a settled check copies authentication and user, copies a non-empty token and turns a missing or empty one into null, and clears the error; a failed one signs out and keeps the error; loading ends and the balance is kept |
| `EchoContext.SomeChanged` | src/contexts/echo.tsx:62 | `some` holds iff one of the keys is among the changed ones |
| `EchoContext.HasAuthChanges` | src/contexts/echo.tsx:61-62 | a change counts iff it touches `echo_user`, `echo_access_token` or `echo_access_token_expires_at` |
| `EchoContext.SignInError` | src/contexts/echo.tsx:96-99 | a failed sign-in records the channel's message, the reply's non-empty error, or `Authentication failed` |
| `EchoContext.SignedIn` | src/contexts/echo.tsx:76-107 | success re-reads the session with no error; any failure records the error and clears authentication, token, user and balance; loading ends |
| `EchoContext.SignedOut` | src/contexts/echo.tsx:109-131 | an acknowledged sign-out re-reads the session; a channel error is recorded and no auth field changes; loading ends |
| `EchoContext.WithBalance` | src/contexts/echo.tsx:135-148 | a returned balance is copied with currency `USD`, no balance gives null, a throw changes nothing, and no other field changes |
| `EchoContext.GetToken` | src/contexts/echo.tsx:160-176 | the reply's token, or null on a channel error |
| `EchoContext.EchoProvider.constructor` | src/contexts/echo.tsx:28-33 | the session starts signed out and loading |
| `EchoContext.EchoProvider.UpdateAuthState` | src/contexts/echo.tsx:36-51 | the state becomes Updated of the old state |
| `EchoContext.EchoProvider.HandleStorageChange` | src/contexts/echo.tsx:60-66 | the session is re-read iff the change touches an auth key, and is otherwise untouched |
| `EchoContext.EchoProvider.SignIn` | src/contexts/echo.tsx:76-107 | the state becomes SignedIn of the old state |
| `EchoContext.EchoProvider.SignOut` | src/contexts/echo.tsx:109-131 | the state becomes SignedOut of the old state |
| `EchoContext.EchoProvider.RefreshBalance` | src/contexts/echo.tsx:135-148 | the state becomes WithBalance of the old state |
| `EchoContextProofs.UpdatedFromBroker` | src/contexts/echo.tsx:36-42 | a session re-read from the broker is signed in only with the stored user and a non-empty stored token, and signed out with neither |
| `EchoContextProofs.SignOutEndsSession` | src/contexts/echo.tsx:109-125 | an acknowledged sign-out leaves no user, no token, no error and loading over |
| `EchoContextProofs.SignInStartsSession` | src/contexts/echo.tsx:92-94 | a sign-in the broker accepts, re-read before expiry, leaves the session signed in with the response's user and token |
| `EchoContextProofs.GetTokenThroughBroker` | src/contexts/echo.tsx:160-171 | through the broker, `getToken` returns a still-valid stored token as it is and null after a failed refresh |
| `EchoContextProofs.AuthChangeKeys` | src/contexts/echo.tsx:61-62 | the filter fires exactly for the user, access-token and expiry keys the broker writes |
| `EchoContextProofs.RefreshOnlyChangeIgnored` | src/contexts/echo.tsx:61-66 | a change to the refresh token and its expiry alone triggers no re-check |
| `EchoContextProofs.HandlersEndLoading` | src/contexts/echo.tsx:104-106 | sign-in and sign-out always end with loading over |
| `UseEchoOpenAi.Classify` | src/hooks/useEchoOpenAi.ts:93-107 | a message naming a missing module or containing `openai` gives the install message; anything else gives the generic prefix plus the message |
| `UseEchoOpenAi.AfterEffect` | src/hooks/useEchoOpenAi.ts:41-54 | disabled or signed out resets the hook; otherwise loading starts with no error and not ready |
| `UseEchoOpenAi.AfterToken` | src/hooks/useEchoOpenAi.ts:58-70 | the load goes on iff the token is present and the load is live; a missing token is recorded whether or not the load was aborted |
| `UseEchoOpenAi.AfterImport` | src/hooks/useEchoOpenAi.ts:73-117 | an aborted load changes nothing; a live one sets the client or records the classified error and clears the client, and loading ends |
| `UseEchoOpenAi.IsReady` | src/hooks/useEchoOpenAi.ts:132 | no contract; `isReady` holds when a client is set and no load is running, as used by `UseEchoOpenAiProofs.DisabledIsIdle`, `LiveLoadSucceeds` and `LiveLoadFails` |
| `UseEchoOpenAi.AbortController.constructor` | src/hooks/useEchoOpenAi.ts:50 | a new controller is not aborted |
| `UseEchoOpenAi.AbortController.Abort` | src/hooks/useEchoOpenAi.ts:38 | aborting sets the flag |
| `UseEchoOpenAi.Hook.constructor` | src/hooks/useEchoOpenAi.ts:28-33 | the hook starts idle with no controller |
| `UseEchoOpenAi.Hook.RunEffect` | src/hooks/useEchoOpenAi.ts:35-54 | the previous controller is aborted first; a started load gets a fresh, live controller; the state becomes AfterEffect of the old state |
| `UseEchoOpenAi.Hook.Cleanup` | src/hooks/useEchoOpenAi.ts:123-127 | the cleanup aborts the current controller |
| `UseEchoOpenAi.Hook.OnToken` | src/hooks/useEchoOpenAi.ts:58-70 | the state and whether the load goes on are AfterToken of the old state |
| `UseEchoOpenAi.Hook.OnImport` | src/hooks/useEchoOpenAi.ts:73-117 | the state becomes AfterImport of the old state |
| `UseEchoOpenAiProofs.DisabledIsIdle` | src/hooks/useEchoOpenAi.ts:41-46 | disabled or signed out, the hook has no client, no error, is not loading and not ready |
| `UseEchoOpenAiProofs.LiveLoadSucceeds` | src/hooks/useEchoOpenAi.ts:53-89 | a live load with a token that loads the package ends ready with that client and no error |
| `UseEchoOpenAiProofs.LiveLoadFails` | src/hooks/useEchoOpenAi.ts:90-116 | a live load that throws ends not ready, with no client and the classified error |
| `UseEchoOpenAiProofs.AbortedLoadLeavesNoTrace` | src/hooks/useEchoOpenAi.ts:67-116 | once aborted, a load with a token sets no client, records no error and leaves the loading flag as it is |
| `UseEchoOpenAiProofs.StaleMissingTokenOutlivesNewerLoad` | src/hooks/useEchoOpenAi.ts:61-65 | the missing-token branch precedes the abort check, so a stale load ends a newer load's loading state and its error survives that load's success |
| `UseEchoOpenAiProofs.ClassesDiffer` | src/hooks/useEchoOpenAi.ts:102-106 | the install message never equals a generic-prefix message |
| `UseEchoOpenAiProofs.ClassifyExactly` | src/hooks/useEchoOpenAi.ts:97-107 | the install message is given exactly for messages that look like a missing package, and the generic message exactly otherwise |
| `UseEchoOpenAiProofs.NonErrorValueMessage` | src/hooks/useEchoOpenAi.ts:93-94 | a thrown non-Error value is reported as `Failed to initialize OpenAI client: Failed to load OpenAI`, since `OpenAI` is not the lower-case `openai` |
| `UseEchoOpenAiProofs.MentionMeansMissingPackage` | src/hooks/useEchoOpenAi.ts:100 | any message mentioning `openai` anywhere is reported as a missing package |
| `ChatInput.InputBox.constructor` | src/components/chat/ChatInput.tsx:9 | the box starts empty |
| `ChatInput.InputBox.Change` | src/components/chat/ChatInput.tsx:35 | the box holds what was typed |
| `ChatInput.InputBox.SendMessage` | src/components/chat/ChatInput.tsx:11-50 | a rejected send calls nothing and keeps the input; an accepted one calls `onSend` once with the trimmed input and empties the box; `onSend` is called exactly when the Send button is enabled |
| `ChatInput.InputBox.KeyPress` | src/components/chat/ChatInput.tsx:17-22 | Enter without Shift is swallowed and sends; any other key does nothing |
| `ChatInputProofs.ButtonMatchesGuard` | src/components/chat/ChatInput.tsx:12-50 | the button is disabled exactly when a send would be refused, which is exactly when the box is disabled or holds only whitespace |
| `ChatInputProofs.TrimTrimmed` | src/components/chat/ChatInput.tsx:13 | trimming a trimmed text changes nothing |
| `ChatInputProofs.SentTextIsTrimmed` | src/components/chat/ChatInput.tsx:12-13 | the text sent is non-empty with no whitespace at either end |
| `ChatInputProofs.SentTextReachesWindow` | src/components/chat/ChatWindow.tsx:92-96 | text the box sends is accepted by the side panel when idle and becomes the user message unchanged |
| `ChatPage.PageSend` | src/pages/chat.tsx:23-43 | a send with no client, blank input or a running generation changes nothing. An accepted one appends the trimmed user message, clears the input and asks `gpt-4` with that message alone. Success appends the answer and ends generating; a throw leaves the page generating with no answer |
| `ChatPage.Page.constructor` | src/pages/chat.tsx:16-18 | the page starts empty and idle |
| `ChatPage.Page.Change` | src/pages/chat.tsx:108 | only the input changes |
| `ChatPage.Page.SendMessage` | src/pages/chat.tsx:23-43 | the state and the call made are PageSend of the old state |
| `ChatPage.Page.KeyPress` | src/pages/chat.tsx:45-50 | Enter without Shift is swallowed and sends; any other key changes nothing |
| `ChatPageProofs.OnlyLatestMessageSent` | src/pages/chat.tsx:38 | each call carries one user message, however long the conversation is |
| `ChatPageProofs.StuckAfterThrow` | src/pages/chat.tsx:36-41 | after a generation throws, the page stays generating and every later send is refused |
| `ChatPageProofs.ReplayWhileGenerating` | src/pages/chat.tsx:24 | while generating, any sequence of sends leaves the messages unchanged |
| `ChatPageProofs.ExchangeAppendsPair` | src/pages/chat.tsx:33-41 | a successful exchange appends the user message and then the answer, and leaves the page idle with an empty input |

## Left out

- Lengths and indices count Unicode code points. JavaScript's `length` and `substring` count UTF-16 code units, so text outside the Basic Multilingual Plane truncates at a different place.
- The install, side-panel and command listeners (src/background.ts:3-32): browser plumbing with no state of the model's.
- The `sendMessage`/`lastError` transport is not modelled. Every reply is an input, `Resolved` or `Rejected` with the channel's message. A callback invoked with no response object is not modelled.
- The `sidePanelPort` connect/disconnect lifecycle (src/components/chat/ChatWindow.tsx:45-84): only its ADD_CONTEXT pushes are modelled.
- The system prompt is not part of `ModelCall`. It holds the current date, `getContextFromTabs` and `formatMultipleTabContentsForSystemPrompt`. Those two helpers are imported by the side panel but are not part of this model; the tab fetch is an input that resolves or throws.
- The `authenticate` and `refreshTokens` exchanges, `streamText`/`generateText` and the Echo SDK are outside the model. Their outcomes are inputs; the streamed text is a finite sequence of deltas.
- The DOM is abstracted to what `querySelector` answers per selector, the body, and the clone's `innerText`/`textContent` after script, style and embedded elements are removed. Layout-dependent `innerText` is an input.
- Floating-point per-token costs and balance amounts are carried as reals and never computed with.
- Concurrency is not modelled: overlapping turns (the guard does not consult `isFetchingContext`), React state batching and stale closures. Each handler runs to completion on the state it started from. The loader's interleavings are the exception: its steps are separate events.
- The provider is computed from the selected model before the tab fetch rather than after it. This is the same provider, because the model cannot change during a turn that runs to completion.
- Message ids come from `Date.now()` and are not unique. The turn lemmas take an assistant id that no earlier message carries as a hypothesis. `NoStreamingAfterTurn` needs no such hypothesis.
- ChatWindowProofs.TurnSucceeds: stated for any non-streaming user message rather than the trimmed one, since its proof does not depend on the text.
- Background.Broker.OnMessage: assumes well-typed storage, meaning each key holds what the broker writes there; other extensions writing these keys is not modelled.
- A non-boolean `isAuthenticated` in the CHECK_AUTH reply (JavaScript's `&&` returns the last operand) is modelled as its truthiness.
- `undefined` and `null` are not told apart: an absent user or token is `None`.
- EchoContext.CheckAuthStatus: a reply token is dropped only when it is missing or empty; other falsy values cannot occur in a well-typed reply.
- EchoContext.SignedOut: the `'Sign out failed'` and `'An unknown error occurred'` fallbacks are not modelled. Every rejection in these handlers is an `Error` with a message, so the fallbacks are unreachable.
- EchoContext.GetToken: the promise never rejects, so a channel failure is its `null` result.
- The refresh token, client id and base URL sent with GET_TOKEN/REFRESH_TOKEN only reach the unseen exchange.
- REFRESH_TOKEN replies carry no `success` field, while src/hooks/useEchoClient.ts reads one. That file is not part of this model.
- `createPaymentLink` and `clearAuth` (src/contexts/echo.tsx:154-180) are stubs that change nothing.
- Rendering, auto-scroll and the textarea auto-resize are left out, as are the message list, context info, navbar, App and home components.
- The `useEchoClient`, `useEchoModels`, `useEchoModelProviders` and `useEcho` wrappers are left out; their results are inputs.
- `toLowerCase` is modelled on ASCII letters only. It is exact for the three tags it is compared against, but not for other non-ASCII tags.
- The loader's base URL is a parameter with the default `https://echo.router.merit.systems`; the `enabled` default of `true` is left to the caller.
- `console` logging is left out.
