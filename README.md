# Chat front-end core: session store, history view, chat list, HTTP rules

This project models, in Dafny, the stateful core of a Next.js chat front-end
for a chatbot that answers questions from several sources:

- **Session store** (`AuthProvider`): the logged-in `user` and bearer `token`, an
  `isLoading` flag, and the `token` / `user` entries of the browser's
  `localStorage` behind them. Mount-time hydration, `login`, `logout`, and the
  `useAuth` guard.
- **History view** (`useHistory`): a list of conversation summaries with
  `total`, `hasMore`, `page`, `searchQuery`, `loading`, `error` and
  `isSearching`. It supports page loads of 20 (page 0 replaces the list, a later
  page appends), keyword search (which suspends pagination), `loadMore`, local
  delete, clear-all, and `refresh`.
- **Chat list** (`useChat`): the welcome message, `sendMessage` (trim and guard,
  the user's message, a loading placeholder, then the answer or an error message
  in place of the placeholder), and `clearChat`.
- **HTTP client rules** (`api.ts`): `getErrorMessage`'s priority chain, the
  request interceptor that attaches `Authorization: Bearer <token>`, and the
  response interceptor that clears the stored session on 401.
- **Small helpers**: `truncateText` and the history card's `getSourceColor`
  badge rule and delete-dialog flags.

Every state container is a class with the source's own state variables. Each
asynchronous callback is split in two. A `Begin…` method does what the callback
does before its `await` and returns the request it would send (or `None` when it
sends nothing). A `Complete…` method takes that request and the remote outcome,
`Success(body)` or `Failure(error)`, and applies what follows the `await`. Each
method's `ensures` ties the new state to a pure step function of the old state
(`Snapshot() == LoadCompleted(old(Snapshot()), …)`). The lemmas about those step
functions state what the source promises, one call or several calls at a time.

Files: `wrappers.dfy` (Option, Result), `text.dfy` (JavaScript `trim`,
`includes`, truthiness), `storage.dfy` (`localStorage`), `api.dfy`, `auth.dfy`,
`history.dfy`, `chat.dfy`, `history_card.dfy`, `utils.dfy`.

Inputs that are not state are parameters:
- The logged-in user is passed to each history and chat operation.
- Server responses are passed to the `Complete…` steps.
- `Date.now()` readings are passed as stamps.
- `JSON.parse` / `JSON.stringify` form an abstract `JsonCodec`. Its `parse` either
  throws or yields a value, and the JSON literal `null` yields no user.
- The current page path is passed to the response interceptor.

## Behaviour of the code a reader might not expect

Some of what the code does departs from what it evidently intends or from what
its names suggest. The model follows the code in each case:

- Hydration with a stored user entry that does not parse removes both entries. But
  the token it has already put into state stays there, so the user and the token
  are not cleared together, although the catch block's comment
  (src/contexts/AuthContext.tsx:60) says it clears everything (see Findings).
- `search` with a blank query falls back to loading page 0 and does *not* clear
  `searchQuery` (`History.BlankSearchLoadsFirstPage`). It does not behave like
  `clearSearch`.
- A successful delete decrements `total` by one even when no listed entry had the
  id (`History.DeleteOutcome`). The list drops every entry with that id. With
  unique ids this means one entry or none (`History.UniqueOccursOnce`). Nothing
  in the code keeps ids unique.
- `clearAllHistory` resolves to `true`, not to the server's `deleted_count`. It
  leaves `searchQuery` as it was.
- `loadHistory(n)` for `n > 0` is not refused while a load is in flight. Only
  `loadMore` checks `loading`.
- `truncateText` can make a text longer: for `maxLength >= 0`, a text one
  character over the limit grows by two. So for `maxLength >= 0` the result's
  length is `maxLength + 3` whenever the text is longer than `maxLength`, and not
  `min(length, maxLength + 3)`. A negative `maxLength` cuts at 0, because
  `substring` treats a negative end as 0, so every text becomes `...`
  (`truncateText("ab", -5)` has length 3).

## Model

| member | source | states |
|---|---|---|
| `Text.Trim` | src/hooks/useChat.ts:45-51 | `content.trim()` is the slice of the input between its leading and trailing whitespace: everything outside the slice is whitespace, and the slice is empty or starts and ends with a non-whitespace character |
| `Text.BlankIffAllWhitespace` | src/hooks/useHistory.ts:64 | `!s.trim()` holds exactly when every character of `s` is whitespace |
| `Text.ContainsIffOccurs` | src/components/history/HistoryCard.tsx:41-42 | `includes` is true exactly when the word occurs at some index |
| `Utils.TruncateText` | src/lib/utils.ts:70-75 | a text within `maxLength` comes back unchanged; a longer one becomes its first `maxLength` characters (none if negative) plus `...`; with `maxLength >= 0` the result has at most `maxLength + 3` characters; the first `min(length, maxLength)` characters always match |
| `Api.FirstTruthyIsFirst` | src/lib/api.ts:128-133 | a chain of JavaScript `or`s ending in a fallback yields the first truthy candidate in order, or the fallback only when none is truthy |
| `Api.GetErrorMessage` | src/lib/api.ts:123-141 | for a client error: the first non-empty of body `error`, body `message`, the error's message, then `'Erro ao conectar com o servidor'`, so never empty; a plain `Error` gives its message; anything else gives `'Erro desconhecido'` |
| `Api.Authorized` | src/lib/api.ts:45-49 | with a non-empty stored token the `Authorization` header is `Bearer <token>` and every other header is kept; with none the headers are unchanged |
| `Api.AuthorizedCarriesToken` | src/lib/api.ts:48 | the header written carries exactly the stored token after the `Bearer ` prefix |
| `Api.RequestInterceptor` | src/lib/api.ts:42-61 | the interceptor changes the configuration's headers as `Authorized` says and returns the same configuration |
| `Api.AfterRejection` | src/lib/api.ts:84-88 | a 401 removes the `token` and `user` entries and keeps every other entry; any other rejection leaves storage unchanged |
| `Api.ResponseErrorInterceptor` | src/lib/api.ts:72-111 | storage changes as `AfterRejection` says; a redirect to `/login` is requested exactly on a 401 when the path does not contain `/login`; the promise rejects with the original error |
| `Api.RejectionStopsBearer` | src/lib/api.ts:84-88 | after a 401, later requests carry no `Authorization` header from storage |
| `Auth.AuthProvider.constructor` | src/contexts/AuthContext.tsx:42-44 | a new provider has no user, no token and is loading |
| `Auth.AuthProvider.Hydrate` | src/contexts/AuthContext.tsx:50-68 | the mount effect changes state and storage as `HydrateStep` says |
| `Auth.HydrateWithoutStoredSession` | src/contexts/AuthContext.tsx:55 | with either entry missing or empty, user, token and storage are untouched and loading ends |
| `Auth.HydrateRestores` | src/contexts/AuthContext.tsx:55-58 | with both entries stored and a parsable user, token and user are taken from storage and storage is unchanged |
| `Auth.HydrateCorruptUser` | src/contexts/AuthContext.tsx:57-64 | a user entry that makes `JSON.parse` throw removes both entries and leaves the user as it was, but the token has already been set from storage |
| `Auth.HydrateEndsLoading` | src/contexts/AuthContext.tsx:67 | after hydration `isLoading` is false on every branch, and storage is either unchanged or missing exactly the two entries |
| `Auth.AuthProvider.Login` | src/contexts/AuthContext.tsx:74-81 | `login` changes state and storage as `LoginStep` says |
| `Auth.LoginWritesBothEntries` | src/contexts/AuthContext.tsx:74-81 | `login` sets user and token, writes `token` and the serialised `user` and keeps every other key |
| `Auth.AuthProvider.Logout` | src/contexts/AuthContext.tsx:87-92 | `logout` changes state and storage as `LogoutStep` says |
| `Auth.LogoutIdempotent` | src/contexts/AuthContext.tsx:87-92 | `logout` clears user and token and removes both entries; a second `logout` changes nothing |
| `Auth.LoginLogoutRoundTrip` | src/contexts/AuthContext.tsx:74-92 | from a logged-out state with no stored session, `login` then `logout` restores state and storage exactly |
| `Auth.LoginSurvivesReload` | src/contexts/AuthContext.tsx:50-81 | given a codec whose `parse` undoes `stringify`, a fresh provider hydrating from what `login` stored gets the same user and token |
| `Auth.LoginLogoutPaired` | src/contexts/AuthContext.tsx:74-92 | `login` and `logout` set or clear the user and the token together |
| `Auth.HydrateUnpairsOnCorruptUser` | src/contexts/AuthContext.tsx:57-64 | with a stored token `abc` and a user entry `{` that does not parse, hydration ends with a token and no user |
| `Auth.HydrateFailSafePaired` | src/contexts/AuthContext.tsx:59-64 | the fail-safe hydration keeps user and token paired, ends loading, and agrees with the code whenever the stored user entry parses to a user or no session is stored |
| `Auth.UseAuth` | src/contexts/AuthContext.tsx:114-122 | `useAuth` yields the provider when there is one and fails with `'useAuth deve ser usado dentro de AuthProvider'` when there is none |
| `History.HistoryView.constructor` | src/hooks/useHistory.ts:15-27 | the initial view is empty, loading, with no error, page 0, no more pages, total 0 and no query |
| `History.LoadRequestShape` | src/hooks/useHistory.ts:32-40 | with no user no page is requested and the state is unchanged; with one, the request is for that user, with limit 20 and offset `pageNum * 20` |
| `History.HistoryView.BeginLoad` | src/hooks/useHistory.ts:32-40 | `loadHistory` up to the request: returns that request and sets loading and clears the error only when it sends one |
| `History.HistoryView.CompleteLoad` | src/hooks/useHistory.ts:40-57 | `loadHistory` after the response changes the view as `LoadCompleted` says |
| `History.LoadSuccess` | src/hooks/useHistory.ts:42-50 | page 0 replaces the list; a later page appends after the existing entries in order; total, hasMore and page come from the response; the query is untouched; loading ends |
| `History.LoadFailure` | src/hooks/useHistory.ts:52-57 | a failed load keeps list, total, hasMore and page; the error is the server's `error` field or `'Erro ao carregar histórico'`; loading ends |
| `History.HistoryView.Search` | src/hooks/useHistory.ts:63-73 | `search` up to the request: falls back to the page-0 load for a blank query or no user, else marks searching and loading |
| `History.HistoryView.CompleteSearch` | src/hooks/useHistory.ts:74-87 | `search` after the response changes the view as `SearchCompleted` says |
| `History.SearchSuccess` | src/hooks/useHistory.ts:74-79 | a successful non-blank search, which asks for up to 50 results, shows exactly the results with the server's total, no more pages, the query stored and the page unchanged |
| `History.BlankSearchLoadsFirstPage` | src/hooks/useHistory.ts:64-67 | a blank query issues the page-0 load and keeps the stored query |
| `History.SearchStoresNonBlankQuery` | src/hooks/useHistory.ts:63-96 | the stored query is always empty or non-blank: only a search for a non-blank query stores one |
| `History.OtherTransitionsKeepQuery` | src/hooks/useHistory.ts:110-159 | starting any request, a `refresh` repeating the stored search, a delete and a clear-all also keep the stored query empty or non-blank |
| `History.HistoryView.ClearSearch` | src/hooks/useHistory.ts:93-96 | `clearSearch` empties the query and then starts the page-0 load |
| `History.SearchThenClearSearch` | src/hooks/useHistory.ts:63-96 | a search followed by `clearSearch` ends in the same view as a page-0 load with the query emptied |
| `History.HistoryView.LoadMore` | src/hooks/useHistory.ts:101-105 | `loadMore` issues what `LoadMoreRequest` gives for the current view, and does nothing otherwise |
| `History.LoadMoreGuard` | src/hooks/useHistory.ts:101-105 | the next page `page + 1` is requested exactly when the view is idle, has more pages, has no query and there is a user |
| `History.ThreePages` | src/hooks/useHistory.ts:32-105 | pages of 20, 20 and 7 with has-more true, true, false: `loadMore` asks for offsets 20 and 40, and the view ends with the 47 entries in order, no more pages and no further request |
| `History.HistoryView.Refresh` | src/hooks/useHistory.ts:153-159 | `refresh` starts what `RefreshRequest` gives for the current view |
| `History.RefreshDispatch` | src/hooks/useHistory.ts:153-159 | with a stored query `refresh` repeats it as a search, otherwise it reloads page 0 |
| `History.HistoryView.BeginDelete` | src/hooks/useHistory.ts:110-114 | `deleteConversation` sends a delete for the user and id, or nothing without a user, and changes no state first |
| `History.HistoryView.CompleteDelete` | src/hooks/useHistory.ts:114-125 | after the response the view changes as `DeleteCompleted` says, and the callback resolves to whether the delete succeeded |
| `History.RemoveId` | src/hooks/useHistory.ts:117 | the filtered list keeps exactly the entries whose id differs |
| `History.RemoveIdAppend` | src/hooks/useHistory.ts:117 | the filter works entry by entry: filtering a concatenation concatenates the filtered parts, so the server's order is kept |
| `History.RemoveAbsentId` | src/hooks/useHistory.ts:117 | filtering out an id no entry has leaves the list exactly as it was |
| `History.RemoveIdCount` | src/hooks/useHistory.ts:117 | the filter drops exactly the occurrences of the id and keeps unique ids unique |
| `History.UniqueOccursOnce` | src/hooks/useHistory.ts:117 | when ids are unique, an id occurs once if it is listed and never otherwise |
| `History.DeleteOutcome` | src/hooks/useHistory.ts:114-125 | success removes every entry with the id and decrements total by exactly one, and leaves the list exactly as it was when no entry had the id; failure keeps list and total and records an error; pagination and query are untouched |
| `History.HistoryView.BeginClearAll` | src/hooks/useHistory.ts:131-135 | `clearAllHistory` sends a clear for the user, or nothing without one |
| `History.HistoryView.CompleteClearAll` | src/hooks/useHistory.ts:135-147 | after the response the view changes as `ClearAllCompleted` says, and the callback resolves to whether it succeeded |
| `History.ClearAllOutcome` | src/hooks/useHistory.ts:135-147 | success empties the list and sets total 0, no more pages and page 0; failure keeps the list; the query is kept either way |
| `Chat.ChatSession.constructor` | src/hooks/useChat.ts:30-39 | the list starts as exactly one bot message with id `welcome`, and nothing is pending |
| `Chat.SendGuard` | src/hooks/useChat.ts:45-51 | nothing is sent exactly when the trimmed content is empty or a request is pending; otherwise the question is the trimmed, non-empty content |
| `Chat.ChatSession.BeginSend` | src/hooks/useChat.ts:44-67 | `sendMessage` up to the request: a no-op when guarded, else the user's message and a placeholder are appended and loading begins |
| `Chat.SendStartedShape` | src/hooks/useChat.ts:48-67 | while pending, the list is the previous list, the user's message with the trimmed content, then a loading placeholder |
| `Chat.ChatSession.CompleteSend` | src/hooks/useChat.ts:69-113 | after the outcome the placeholder is filtered out, the reply is appended, and loading ends whatever the outcome |
| `Chat.WithoutId` | src/hooks/useChat.ts:77 | the filter keeps exactly the messages whose id differs |
| `Chat.ExchangeAppendsQuestionAndReply` | src/hooks/useChat.ts:55-110 | a whole exchange leaves the previous list, the user's message and the reply, with the placeholder gone |
| `Chat.ReplyShape` | src/hooks/useChat.ts:80-108 | a success appends a bot message with the answer, its source and its time; a failure appends a bot message flagged as an error whose text is the error's message |
| `Chat.ClientFailureShowsNormalisedMessage` | src/services/bot.service.ts:27-35 | a failed request, rethrown by the bot client as an `Error`, shows `getErrorMessage`'s result, which is never empty |
| `Chat.CompletedHasNoPlaceholders` | src/hooks/useChat.ts:77-110 | once the request settles no loading placeholder remains |
| `Chat.ChatSession.ClearChat` | src/hooks/useChat.ts:119-128 | `clearChat` replaces the whole list with a single welcome message |
| `HistoryCard.GetSourceColor` | src/components/history/HistoryCard.tsx:39-44 | a source mentioning `google` is `default`, and this is checked first; an absent or empty source, or one mentioning `wolfram` but not `google`, is `secondary`; any other is `outline`; the name is always one of the three |
| `HistoryCard.DeleteDialog.constructor` | src/components/history/HistoryCard.tsx:24-25 | the dialog starts closed and not deleting |
| `HistoryCard.DeleteDialog.OpenDialog` | src/components/history/HistoryCard.tsx:70 | the trash button opens the dialog |
| `HistoryCard.DeleteDialog.ClickCancel` | src/components/history/HistoryCard.tsx:121-127 | cancel closes the dialog unless a delete is running |
| `HistoryCard.DeleteDialog.Dismiss` | src/components/history/HistoryCard.tsx:105 | Escape or an overlay click closes the dialog even while a delete is running, and leaves `deleting` as it was |
| `HistoryCard.DeleteDialog.ClickDelete` | src/components/history/HistoryCard.tsx:27-29 | confirming in the open dialog while idle marks the card deleting and asks to delete its conversation; otherwise nothing happens |
| `HistoryCard.DeleteDialog.FinishDelete` | src/components/history/HistoryCard.tsx:29-36 | the dialog closes only when the delete succeeded, and deleting is false afterwards either way |

## Findings

| source | as written | input that shows it | evidently intended | confidence | as-written member | corrected member |
|---|---|---|---|---|---|---|
| src/contexts/AuthContext.tsx:57-64 | the token is put into state before the user entry is parsed; when parsing throws, the catch block removes both entries but leaves that token in state, with no user | storage `{token: "abc", user: "{"}` at mount: the provider ends with token `abc` and user `null` | the catch block means to clear everything and fall back to logged out, so user and token are set or cleared together; `Auth.HydrateFailSafePaired` proves this for the corrected step | medium; not executed | `Auth.HydrateUnpairsOnCorruptUser` | `Auth.HydrateFailSafeStep` |

`Auth.AuthProvider.Hydrate` keeps the behaviour as written, because it models the
source. `Auth.LoginSurvivesReload` shows that on the path `login` produces, the
corrected step does exactly what the code does.

## Left out

- The HTTP services (history, bot and auth services) are not modelled. Their
  results are the `Success` / `Failure` inputs of the `Complete…` steps. The one
  behaviour of the bot client the chat list depends on, rethrowing every failure
  as an `Error` carrying `getErrorMessage`'s text, is stated as a lemma.
- Overlapping asynchronous calls are not modelled: each operation is its begin
  step followed by its complete step, with nothing in between. So the race
  between two in-flight searches, where the last to complete wins, is not captured.
- The redirect to `/login` is an output flag, not a navigation. The
  `typeof window` check is taken as always true (browser). Console logging is
  dropped.
- `JSON.parse` and `JSON.stringify` are abstract. A JSON value that is neither a
  user nor `null` (a number, say) is not distinguished from a user.
- The body fields `error` and `message` are modelled as optional strings. A
  non-string value in those fields is not modelled.
- Chat messages carry no `timestamp` field. Their ids carry the `Date.now()` stamp
  given as a parameter.
- The response success interceptor and the request error interceptor pass their
  argument through unchanged, and are not modelled.
- The mount effect of the history hook, `loadHistory(0)`, is the caller's first
  `BeginLoad(user, 0)` after construction. It is not a separate member.
- The user in the history view is a parameter of each operation, in place of the
  hook's store lookup, whose import does not resolve.
- Page numbers are natural numbers; a negative `pageNum` is not modelled.
- Storage failures are not modelled: `localStorage` always succeeds.
- `debounce`, `sleep`, `copyToClipboard`, `formatDate`, `formatProcessingTime`,
  `cn`, the pages and the presentational components are out of scope. They are
  timers, browser APIs, locale or floating-point formatting, CSS class merging,
  or layout.
- Utils.TruncateText: lengths and the cut point are counted in Unicode code
  points, not in the UTF-16 code units of JavaScript's `length` and `substring`.
  A text with characters outside the Basic Multilingual Plane (an emoji, say) is
  therefore measured and cut at a different place. The source can also split a
  surrogate pair, which the model's strings cannot represent. The lengths stated
  for `truncateText` in this file are in code points too. `trim` and `includes`
  are unaffected: every character `trim` removes lies in the Basic Multilingual
  Plane, and substring matching on well-formed UTF-16 agrees with matching on
  code points.
- `Text.IsWhitespace` lists the ECMAScript white-space and line-terminator code
  points directly. It is not derived from the Unicode database.
