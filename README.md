# person-s-chat: the response generator, the send state machine and the search filter

This project models, in Dafny, the three pieces of logic in the chat app
that sit under its React interface:

- **The response generator** (`src/services/ai.ts`). It holds a fixed table
  of per-personality configurations: each has a system prompt and a
  formatter that removes a leading "Name:" echo and then trims. It also holds
  a process-wide map from personality id to chat session. `generateResponse`
  has two guards: a missing API key, then an unknown personality. After them
  it gets or creates the chat for the id, stores it, sends the user's text,
  and formats the reply. It turns any failure into one of five fixed
  replies, picked by an ordered substring test. `clearChatHistory` deletes one
  entry of the map and `clearAllChatHistories` empties it.
- **The send state machine** (`handleSend` in `src/components/ChatWindow.tsx`).
  It has a guard on the input and the personality. Then it appends the user
  message, clears the input, raises the typing flag, awaits the generator,
  lowers the flag, and appends the AI reply (or, on rejection, a fixed
  apology).
- **The personality search** (`src/components/Sidebar.tsx`). It is a
  case-insensitive substring filter over the static catalog.

Files: `Strings.dfy` (JavaScript's `trim`, `toLowerCase`, `includes` and
prefix tests), `Catalog.dfy` (the personality record and the static catalog),
`Ai.dfy` (the generator and the session store), `ChatWindow.dfy` (the chat
view), `Sidebar.dfy` (the filter), `Wrappers.dfy` (an `Option` type).

The SDK (`startChat`, `sendMessage`) is outside the model. A chat session is
an object (`Ai.ChatSession`), so reusing a chat means the stored object is
the same one. The session records the opening history it was started with.
What `sendMessage` does is an input to the call (`Ai.SendOutcome`): it
resolves with the model's text, or it throws an `Error` with a message or
some other value. Each send is recorded in a ghost trace
(`SessionStore.sent`). That trace is how the contracts say which chat a
message went to, and that the guards stop before any send. The API key is an
input `hasKey`.

A few facts about the program shape the model:
- The chat view keeps its messages when the personality changes, because
  `App.tsx:15` renders `ChatWindow` without a key.
- The search has no category filter.
- `ChatWindow.tsx:48-59` has a rejection branch, modelled as
  `CompleteSend(Rejected)`. `HandleSend` never takes it: `GenerateResponse`
  always returns a string.

## Model

| member | source | states |
|---|---|---|
| `Strings.TrimStart` | src/services/ai.ts:36 | the result is a suffix of the input, everything dropped is white space, and it does not start with white space |
| `Strings.TrimEnd` | src/services/ai.ts:36 | the result is a prefix of the input, everything dropped is white space, and it does not end with white space |
| `Strings.Trim` | src/components/ChatWindow.tsx:25 | `trim()` is empty exactly when the input is all white space (the ECMAScript WhiteSpace and LineTerminator code points); a non-empty result has no white space at either end |
| `Strings.TrimFactor` | src/services/ai.ts:36 | `trim()` returns a factor of its input with only white space before and after it |
| `Strings.TrimUnique` | src/services/ai.ts:36 | any factor with only white space around it and none at its ends is what `trim()` returns |
| `Strings.TrimIdempotent` | src/services/ai.ts:36 | trimming twice is trimming once |
| `Strings.TrimLeadingSpace` | src/services/ai.ts:36 | a single space before an already trimmed string is removed |
| `Strings.LowerChar` | src/components/Sidebar.tsx:17 | `toLowerCase` on one character: upper-case ASCII letters move up by 32 code points, nothing else changes, and no upper-case letter is left |
| `Strings.Lower` | src/components/Sidebar.tsx:17-18 | `toLowerCase` keeps the length and lower-cases every character in place |
| `Strings.LowerIdempotent` | src/components/Sidebar.tsx:17-18 | lower-casing a lower-cased string changes nothing |
| `Strings.Contains` | src/components/Sidebar.tsx:17-18 | `String.prototype.includes` (also used at `ai.ts:111-120`): the empty needle is always included, and a needle longer than the text never is |
| `Strings.ContainsIffOccurs` | src/components/Sidebar.tsx:17-18 | `includes` holds exactly when the needle occurs at some index (both directions) |
| `Strings.OccursContained` | src/components/Sidebar.tsx:17-18 | an occurrence of the needle at any index makes `includes` hold |
| `Strings.ContainedOccurs` | src/components/Sidebar.tsx:17-18 | when `includes` holds, the returned index is an occurrence of the needle |
| `Strings.MissingCharNotContained` | src/services/ai.ts:111-120 | a text lacking some character of the needle does not include it |
| `Ai.StripEcho` | src/services/ai.ts:36 | `replace(/^(...)/, '')` only removes a prefix: the result is a suffix of the text |
| `Ai.StripEchoFirstMatch` | src/services/ai.ts:36 | the alternatives are tried in order and the first one the text starts with is removed, once |
| `Ai.StripEchoNoMatch` | src/services/ai.ts:36 | a text that starts with no alternative is left unchanged |
| `Ai.ApplyFormat` | src/services/ai.ts:107 | with no formatter the raw text is returned; with one, the result is no longer than the text and already trimmed: trimming it again changes nothing |
| `Ai.FormatReply` | src/services/ai.ts:107 | formatting never lengthens a configured personality's reply |
| `Ai.EchoNamesDiverge` | src/services/ai.ts:36-58 | every configured personality has a formatter whose two names differ within their common length, so neither is a prefix of the other |
| `Ai.EchoStripped` | src/services/ai.ts:36-58 | a reply starting with `Einstein:` or `Albert Einstein:` (likewise the Shakespeare and Curie names) loses that name and is trimmed |
| `Ai.EchoStrippedOnce` | src/services/ai.ts:36-58 | at most one leading name is removed: a doubled name keeps its second copy |
| `Ai.NoEchoOnlyTrimmed` | src/services/ai.ts:36-58 | a reply starting with neither name is only trimmed |
| `Ai.EinsteinExample` | src/services/ai.ts:36 | `"Einstein: Relativity is fascinating, mein Freund."` is formatted to `"Relativity is fascinating, mein Freund."` |
| `Ai.ErrorReply` | src/services/ai.ts:108-125 | first-match classification, stated both ways for each reply: `API key` gives the invalid-key reply; otherwise `network` gives the network reply; then `rate limit`; then `content filtered`; anything else, and any thrown value that is not an `Error`, gives the generic apology |
| `Ai.RateLimitExample` | src/services/ai.ts:117-119 | an error message `429: rate limit reached` gets the rate-limit reply |
| `Ai.Reply` | src/services/ai.ts:62-126 | never throws: without a key the result is the configuration-error string; with a key and an unknown id it is the not-found string; otherwise a resolved send gives the formatted model text (`FormatReply`) and a thrown value gives its classification (`ErrorReply`) |
| `Ai.GuardsIgnoreOutcome` | src/services/ai.ts:63-70 | when a guard returns, the SDK's behaviour cannot change the reply |
| `Ai.PrototypeNamePassesGuard` | src/services/ai.ts:67-68 | the guard as written lets `"constructor"` through although it has no configuration |
| `Ai.LookupMissesAsWritten` | src/services/ai.ts:67-68 | `!personalityConfigs[personalityId]` as JavaScript evaluates it: it only holds for ids without a configuration, and never for a name inherited from `Object.prototype` |
| `Ai.OpeningHistory` | src/services/ai.ts:86-97 | a new chat starts with the prompt as the user's turn, followed by a model turn |
| `Ai.ChatSession.constructor` | src/services/ai.ts:86 | the chat keeps the history it was started with |
| `Ai.SessionStore.constructor` | src/services/ai.ts:15 | the session map starts empty |
| `Ai.SessionStore.GenerateResponse` | src/services/ai.ts:62-126 | returns `Ai.Reply`; the guards leave the map and the send trace untouched; otherwise the id has a chat afterwards, an existing chat is reused and the map unchanged, a new chat is fresh and the only new key, and the message is sent to that chat, so a failed send still leaves the session stored |
| `Ai.SessionStore.ClearChatHistory` | src/services/ai.ts:129-131 | removes exactly that key and keeps every other entry |
| `Ai.SessionStore.ClearAllChatHistories` | src/services/ai.ts:134-136 | leaves the map empty |
| `Ai.SendTwice` | src/services/ai.ts:74-99 | two calls for the same configured id send both messages to one chat and add at most that one key |
| `ChatWindow.ChatView.constructor` | src/components/ChatWindow.tsx:11-13 | empty input, no messages, not typing |
| `ChatWindow.ChatView.SetInput` | src/components/ChatWindow.tsx:152 | typing replaces the input and nothing else |
| `ChatWindow.ChatView.BeginSend` | src/components/ChatWindow.tsx:25-39 | a request is made exactly when the trimmed input is non-empty and a personality is selected; otherwise nothing changes; on a send the untrimmed input is appended as a user message, the input becomes empty, typing is on, and the request carries the personality's id and the text read before clearing |
| `ChatWindow.ChatView.CompleteSend` | src/components/ChatWindow.tsx:40-59 | typing is off and exactly one AI message is appended: the resolved reply (`:42`), or the fixed apology on rejection (`:55`); the input is untouched |
| `ChatWindow.HandleSend` | src/components/ChatWindow.tsx:24-61 | a blank input or no personality changes nothing; a send that stops at a guard leaves the session map and the send trace as they were; otherwise the list gains the user's message and then the generator's reply, the map gains at most that personality's chat (an existing one is reused, a new one is fresh), and the original text is sent to that chat |
| `Sidebar.Filter` | src/components/Sidebar.tsx:15-19 | sound (every result matches and comes from the catalog), complete (every matching catalog entry is in the result), and no longer than the catalog |
| `Sidebar.Matches` | src/components/Sidebar.tsx:16-18 | the filter callback: the lower-cased name or description includes the lower-cased query, so the empty query matches every entry |
| `Sidebar.FilterIsSubsequence` | src/components/Sidebar.tsx:15 | the result keeps catalog order: it is a subsequence of the catalog |
| `Sidebar.FilterKeepsEveryMatch` | src/components/Sidebar.tsx:15-19 | every matching entry appears in the result as often as in the catalog, and no other entry appears at all |
| `Sidebar.EmptyQueryKeepsAll` | src/components/Sidebar.tsx:15-19 | the empty query returns the whole catalog unchanged |
| `Sidebar.QueryCaseIgnored` | src/components/Sidebar.tsx:17-18 | lower-casing the query first gives the same result |

## Left out

- The generative-model SDK (`GoogleGenerativeAI`, `getGenerativeModel`, `startChat` and `sendMessage`). It is a foreign library that makes a network call. A chat is an object holding its opening history, and what sending does is a parameter. `getGenerativeModel` and `startChat` are taken not to throw.
- The sampling parameters (`temperature`, `topK`, `topP`, `maxOutputTokens`). They are passed to the SDK untouched.
- Reading the environment and `console.error`. The key is the input `hasKey`.
- Rendering, `scrollToBottom`, `useEffect`, the dark-mode toggle, `App.tsx` and `Layout.tsx`.
- Message ids, timestamps and the catalog's `lastMessageTime`. They come from the wall clock.
- Overlapping sends. This covers the stale `messages` snapshot of `ChatWindow.tsx:34` against the functional update of `:47`. The model runs one send at a time, and the button's `disabled` flag is only a UI guard.
- Strings.LowerChar: lower-cases the ASCII letters `A`-`Z` only, whereas JavaScript also maps other upper-case letters (for example U+212A KELVIN SIGN to `k`).
- Strings.Lower: models `toLowerCase` on ASCII letters only; other letters stay as they are, whereas JavaScript also folds non-ASCII letters.
- What happens after the guard when a prototype name gets through (see Findings). The model's table is a plain map of its three own keys.

## Findings

| source | as written | input that shows it | evidently intended | confidence | as-written member | corrected member |
|---|---|---|---|---|---|---|
| src/services/ai.ts:67-70 | `personalityConfigs[personalityId]` also reads properties inherited from `Object.prototype`, so `!config` is false for those names | `personalityId = "constructor"` (also `toString`, `__proto__`, …) passes the not-found guard | every id without its own configuration returns `'Personality configuration not found.'` | high for the lookup semantics; not executed | `Ai.PrototypeNamePassesGuard` | `Ai.Reply` |
