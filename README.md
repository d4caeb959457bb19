# ProfitPulse core, modelled in Dafny

ProfitPulse is a React trading dashboard; this project models its logic, not
its views. The centre is `WebSocketService`:

- its connection lifecycle: socket `readyState`, the `isConnecting` flag and the heartbeat;
- the subscription registry, a map from message type to an ordered set of callbacks, with its unsubscribe closures;
- the bounded exponential-backoff reconnect counter;
- the fan-out of inbound messages to listeners.

Around it the project models the small sequential pieces of the application:

- the notification and authentication reducers;
- the session-gated token store;
- the mock login and signup rules;
- the generic hooks (pagination, sorting, form validation, the async status machine, keyboard shortcuts, toggles);
- the watchlist's add, remove, filter, sort and CSV export;
- the dashboard's live price merge and best performer;
- the notification filters;
- the FAQ search and expand set;
- the login form's validation and its e-mail pattern;
- the onboarding tour;
- the role-filtered sidebar;
- the route guards;
- the error boundary with its last-ten error log.

Classes with `modifies` clauses model the objects and hooks that change state
step by step. Datatypes, functions and lemmas model the reducers and other
expression code. Every class method is specified by its new state, or by a
function of the old state whose properties are proved as lemmas.

Modules, one per source file, plus shared helpers:

| module | models |
|---|---|
| `WebSocket` | `src/services/websocket.ts` |
| `NotificationContext` | `src/contexts/NotificationContext.tsx` |
| `AuthContext` | `src/contexts/AuthContext.tsx` |
| `Hooks` | `src/hooks/index.ts` |
| `Watchlist` | `src/pages/Watchlist.tsx` |
| `Dashboard` | `src/pages/Dashboard.tsx` |
| `NotificationsPage` | `src/pages/Notifications.tsx` |
| `Help` | `src/pages/Help.tsx` |
| `Login` | `src/pages/Login.tsx` |
| `Onboarding` | `src/components/OnboardingModal.tsx` |
| `Sidebar` | `src/components/Sidebar.tsx` |
| `App` | `src/App.tsx` |
| `ErrorBoundary` | `src/components/ErrorBoundary.tsx` |
| `Types` | the shapes of `src/types/index.ts` |
| `Wrappers`, `Strings`, `Lists`, `Sorting` | `Option`/`Result`; JavaScript string, array `filter` and array sort behaviour |

How the environment enters the model:

- Inputs that come from the environment are parameters:
  - the current time as an ISO string or milliseconds;
  - a confirmation dialog's answer;
  - whether a socket or storage call throws;
  - formatter functions such as `toFixed(2)`.
- Effects on the environment are returned values:
  - a scheduled reconnect delay;
  - the frames handed to the socket;
  - a navigation target;
  - an `onError` call.
- `localStorage` and `sessionStorage` are maps from keys to stored values.

Two deliberate points of the model:

- JavaScript's `Array.prototype.sort` is stable. A descending sort negates the comparator, so rows with equal keys keep their input order in both directions. The descending order is therefore not the reverse of the ascending one, and the model says so.
- `hasRole` appears twice. `AuthContext.RoleGranted` is its logic over an optional user. `AuthContext.AuthProvider.HasRole` applies it to the provider's state.

## Model

| member | source | states |
|---|---|---|
| WebSocket.Without | src/services/websocket.ts:138 | `Set.delete`: exactly the other callbacks stay, order and no-duplicates kept, an absent callback changes nothing |
| WebSocket.Subscribed | src/services/websocket.ts:127-133 | after `subscribe(t, cb)`, `cb` is listed under `t`; other types untouched; an existing entry is not duplicated, a new one is appended last; the registry invariant (no empty sets, no duplicates) is kept |
| WebSocket.Unsubscribed | src/services/websocket.ts:135-143 | the unsubscriber removes `cb` from `t` only, deletes the key exactly when its set had only `cb`, and changes nothing when `cb` was not listed |
| WebSocket.UnsubscribeTwice | src/services/websocket.ts:135-143 | a second call of an unsubscriber changes nothing |
| WebSocket.SubscribeTwice | src/services/websocket.ts:128-132 | subscribing the same callback twice equals subscribing once; the set grows by at most one |
| WebSocket.SubscribeThenUnsubscribe | src/services/websocket.ts:127-144 | subscribing a callback not yet listed and calling its unsubscriber restores the registry exactly |
| WebSocket.WithoutAppended | src/services/websocket.ts:132-138 | deleting the callback just appended to a set without it gives the set back |
| WebSocket.Replay | src/services/websocket.ts:127-144 | any run of subscribe/unsubscribe calls keeps the registry invariant |
| WebSocket.StepKeeps | src/services/websocket.ts:127-144 | a call about another type or callback leaves a pair's registration as it was |
| WebSocket.ReplayRegistered | src/services/websocket.ts:127-144 | after a run of calls a pair is registered exactly as the last call about it says |
| WebSocket.LastCallSaysMeans | src/services/websocket.ts:127-144 | "the last call says registered" holds iff there was a subscribe of the pair with no unsubscribe after it, or none at all and it was registered before |
| WebSocket.Pow2 | src/services/websocket.ts:216 | `Math.pow(2, n)` is at least one |
| WebSocket.BackoffDelay | src/services/websocket.ts:216 | the first retry waits 1000 ms and each later one waits twice the one before |
| WebSocket.Schedule | src/services/websocket.ts:209-226 | the delays of `n` successive reconnect schedulings, one per scheduling |
| WebSocket.BackoffSequence | src/services/websocket.ts:209-226 | from a fresh counter the delays are 1000, 2000, 4000, 8000, 16000 ms, then none |
| WebSocket.ScheduleSnoc | src/services/websocket.ts:209-226 | `n + 1` schedulings are `n` schedulings and then the one the counter reached gives |
| WebSocket.ScheduleShape | src/services/websocket.ts:209-226 | the `i`-th scheduling gives `1000·2^(attempts+i)` while under the maximum of five, and nothing once it is reached |
| WebSocket.StatusName | src/services/websocket.ts:174-188 | the status is one of the four names |
| WebSocket.StatusNameInjective | src/services/websocket.ts:177-187 | distinct ready states give distinct names |
| WebSocket.WebSocketService.constructor | src/services/websocket.ts:5-16 | no socket, zero attempts, no listeners, not connecting, no heartbeat |
| WebSocket.WebSocketService.Connect | src/services/websocket.ts:21-87 | open: resolves and creates nothing; connecting: waits, creates nothing; a throwing constructor rejects and clears `isConnecting`; otherwise one new socket in CONNECTING with `isConnecting` set |
| WebSocket.WebSocketService.OnOpen | src/services/websocket.ts:48-54 | the socket is OPEN, `isConnecting` cleared, attempts reset to 0, heartbeat started |
| WebSocket.WebSocketService.OnClose | src/services/websocket.ts:65-74 | heartbeat stopped, `isConnecting` cleared; code 1000 never reconnects; any other code schedules the backoff delay while attempts are under five, and nothing after |
| WebSocket.WebSocketService.OnError | src/services/websocket.ts:76-80 | `isConnecting` cleared, nothing else changes |
| WebSocket.WebSocketService.OnMessage | src/services/websocket.ts:56-63 | a malformed frame calls no listener; a parsed one is dispatched as `HandleMessage` does |
| WebSocket.WebSocketService.Disconnect | src/services/websocket.ts:92-98 | a present socket is asked to close with code 1000 and "Deliberate disconnect", the socket is forgotten, the heartbeat stopped |
| WebSocket.WebSocketService.Send | src/services/websocket.ts:103-122 | true iff the socket is OPEN and the write does not throw; exactly then one frame with the given type, payload and time stamp is handed over |
| WebSocket.WebSocketService.Subscribe | src/services/websocket.ts:127-144 | the registry becomes `Subscribed(old, type, cb)`; the returned closure remembers type and callback |
| WebSocket.WebSocketService.Unsubscribe | src/services/websocket.ts:135-143 | the registry becomes `Unsubscribed(old, type, cb)` |
| WebSocket.WebSocketService.SubscribeToPriceUpdates | src/services/websocket.ts:149-155 | `subscribe_prices` with the symbols is sent (when open), then `price_update` is subscribed |
| WebSocket.WebSocketService.SubscribeToTradeUpdates | src/services/websocket.ts:160-162 | subscribes the callback to `trade_update` |
| WebSocket.WebSocketService.SubscribeToPortfolioUpdates | src/services/websocket.ts:167-169 | subscribes the callback to `portfolio_update` |
| WebSocket.WebSocketService.GetConnectionStatus | src/services/websocket.ts:174-188 | `closed` iff there is no socket or it is CLOSED; otherwise the ready state's name |
| WebSocket.WebSocketService.HandleMessage | src/services/websocket.ts:193-204 | exactly the listeners of the message's type are called, in insertion order, each with the payload; a throwing one does not stop the rest; an unknown type calls none |
| WebSocket.WebSocketService.ScheduleReconnect | src/services/websocket.ts:209-226 | under five attempts: one more attempt and delay `1000·2^(attempts−1)`; at five: nothing; the counter never exceeds five |
| WebSocket.WebSocketService.StopHeartbeat | src/services/websocket.ts:242-247 | the heartbeat flag is cleared |
| WebSocket.WebSocketService.HeartbeatTick | src/services/websocket.ts:231-237 | a `ping` with the current milliseconds is sent iff the heartbeat runs, the socket is open and the write does not throw |
| WebSocket.WebSocketService.IsOpen | src/services/websocket.ts:233 | true iff there is a socket whose status name is "open" |
| WebSocket.ConnectWhileOpen | src/services/websocket.ts:23-26 | `connect` while open creates no socket and leaves the connection alone |
| WebSocket.DisconnectThenClose | src/services/websocket.ts:65-98 | after `disconnect` the status is `closed`, and a close event with code 1000 never reconnects |
| WebSocket.DisconnectWhileConnecting | src/services/websocket.ts:65-98 | as written: `disconnect` during CONNECTING sends the close request, and the close event with code 1006 counts an attempt and schedules the next backoff delay |
| WebSocket.WebSocketService.OnCloseOf | src/services/websocket.ts:65-74 | corrected close handler: for the socket the service holds it behaves as `onclose`; for a socket it has let go of it changes nothing but a pending connect no held socket owns, and never reconnects |
| WebSocket.DisconnectThenAnyClose | src/services/websocket.ts:65-98 | with the corrected handler, after `disconnect` no close event, whatever its code, reconnects or counts an attempt; the status is `closed` and nothing is pending |
| WebSocket.CloseRepeatedly | src/services/websocket.ts:209-226 | abnormal closes in a row produce exactly the backoff schedule, and the counter stays at most five |
| NotificationContext.MarkRead | src/contexts/NotificationContext.tsx:28-33 | length and order kept; `read` set exactly on the items with the id, every other field and item unchanged |
| NotificationContext.MarkAllRead | src/contexts/NotificationContext.tsx:34-35 | every item read, nothing else changed |
| NotificationContext.RemoveId | src/contexts/NotificationContext.tsx:36-37 | exactly the items with another id stay, in order; an absent id leaves the list as it was |
| NotificationContext.UnreadCount | src/contexts/NotificationContext.tsx:156 | the number of unread items, never more than the length |
| NotificationContext.NewNotification | src/contexts/NotificationContext.tsx:122-128 | an unread record with the fresh id and time stamp and the caller's fields |
| NotificationContext.SchedulesAutoRemove | src/contexts/NotificationContext.tsx:133-137 | the five-minute removal is scheduled iff the kind is `info` |
| NotificationContext.AddPrepends | src/contexts/NotificationContext.tsx:26-27 | adding puts the item first and the old list unchanged after it |
| NotificationContext.MarkAsReadIdempotent | src/contexts/NotificationContext.tsx:28-33 | marking an id read twice is marking it once |
| NotificationContext.MarkAllClearsUnread | src/contexts/NotificationContext.tsx:34-35 | after marking all read the unread count is 0 |
| NotificationContext.NoUnreadIffAllRead | src/contexts/NotificationContext.tsx:156 | the unread count is 0 iff every item is read |
| NotificationContext.UnreadPlusRead | src/contexts/NotificationContext.tsx:156 | unread and read items add up to the length |
| NotificationContext.AddRaisesUnread | src/contexts/NotificationContext.tsx:122-130 | adding a built notification raises the unread count by exactly one |
| NotificationContext.MarkAsReadLowersUnread | src/contexts/NotificationContext.tsx:28-33 | marking read never raises the count, and lowers it when an unread item has the id |
| NotificationContext.AutoRemoveRestores | src/contexts/NotificationContext.tsx:133-137 | removing the id just added, when no other item has it, restores the list |
| NotificationContext.OtherActions | src/contexts/NotificationContext.tsx:38-44 | clear gives `[]`, load gives its payload, an unknown action leaves the state |
| NotificationContext.Reduce | src/contexts/NotificationContext.tsx:24-44 | add puts the item first with the old list after it; the two mark actions keep the length and every id in place, mark-all leaving every item read; remove keeps exactly the items of other ids; clear gives `[]`; load gives its payload; an unknown action leaves the state |
| AuthContext.Merge | src/contexts/AuthContext.tsx:58-62 | `{ ...user, ...patch }`: each field the patch carries wins, the others are the user's |
| AuthContext.MergeEmpty | src/contexts/AuthContext.tsx:259 | an empty patch leaves the user as it was |
| AuthContext.Reduce | src/contexts/AuthContext.tsx:27-70 | `LOGIN_SUCCESS` signs in with the user and token; `LOGIN_ERROR` and `LOGOUT` sign out; `LOGIN_START`, `SET_LOADING`, `CLEAR_ERROR` and unknown actions leave user, token and authentication alone; `UPDATE_USER` touches only the user, and never creates one |
| AuthContext.ReducePreservesConsistent | src/contexts/AuthContext.tsx:27-70 | every action keeps "authenticated iff a user iff a token" |
| AuthContext.ReachableConsistent | src/contexts/AuthContext.tsx:27-70 | any run of actions from a consistent state stays consistent |
| AuthContext.InitialConsistent | src/contexts/AuthContext.tsx:73-79 | every state reached from `initialState` is consistent |
| AuthContext.ReducerActions | src/contexts/AuthContext.tsx:29-69 | `LOGIN_START` sets loading and clears the error only; `LOGIN_ERROR` and `LOGOUT` sign out and stop loading, with and without the message; `UPDATE_USER` leaves a missing user missing; unknown actions change nothing |
| AuthContext.RoleGrantedFacts | src/contexts/AuthContext.tsx:265-273 | no user has no role; an admin has every role; anyone else only their own; admin is granted only to admins |
| AuthContext.RoleGranted | src/contexts/AuthContext.tsx:265-273 | granted only to a user; an admin holds every role, anyone holds their own; admin only to admins |
| AuthContext.TokenStorage.constructor | src/contexts/AuthContext.tsx:82 | the store starts with the given entries |
| AuthContext.TokenStorage.SetToken | src/contexts/AuthContext.tsx:83-92 | writes `auth_token` and sets `auth_session` to `active` |
| AuthContext.TokenStorage.GetToken | src/contexts/AuthContext.tsx:94-104 | the stored token, only while the session marker reads `active`; otherwise none |
| AuthContext.TokenStorage.RemoveToken | src/contexts/AuthContext.tsx:106-115 | erases `auth_token`, `auth_session` and `user_data`; no token and no user are read back |
| AuthContext.TokenStorage.SetUserData | src/contexts/AuthContext.tsx:117-123 | writes `user_data`, which then reads back as that user |
| AuthContext.TokenStorage.GetUserData | src/contexts/AuthContext.tsx:125-133 | the stored user, none when the entry is missing or not a user record |
| AuthContext.MockLogin | src/contexts/AuthContext.tsx:160-201 | fails with "Invalid credentials" iff the email or password is empty; else the user has the email, the username before the first `@`, role admin iff the email contains `admin` (else trader), and the token is `mock_token_` + the milliseconds |
| AuthContext.MockSignup | src/contexts/AuthContext.tsx:204-250 | "Passwords do not match" before "You must accept the terms of service"; success iff both pass, with a trader that is not verified |
| AuthContext.AuthProvider.constructor | src/contexts/AuthContext.tsx:137-138 | the reducer starts at `initialState` |
| AuthContext.AuthProvider.Initialize | src/contexts/AuthContext.tsx:141-157 | a stored non-empty token together with a stored user logs in; otherwise nothing changes |
| AuthContext.AuthProvider.Login | src/contexts/AuthContext.tsx:160-202 | true iff the email and password are non-empty; success writes exactly `auth_token` and `user_data` in local storage and `auth_session = active` in session storage, keeps every other entry, and dispatches `LOGIN_SUCCESS`; failure dispatches `LOGIN_ERROR` and leaves both stores as they were |
| AuthContext.AuthProvider.Signup | src/contexts/AuthContext.tsx:204-250 | true iff the passwords match and the terms are accepted; success writes exactly the token, the user and the session marker and keeps every other entry; failure leaves both stores as they were |
| AuthContext.AuthProvider.Logout | src/contexts/AuthContext.tsx:252-255 | exactly `auth_token` and `user_data` leave local storage and `auth_session` leaves session storage, every other entry kept; the state is the `LOGOUT` reduction |
| AuthContext.AuthProvider.UpdateUser | src/contexts/AuthContext.tsx:257-263 | session storage is never touched; with a user, only `user_data` is rewritten, with the merged record, and the patch dispatched; without one nothing changes |
| AuthContext.AuthProvider.HasRole | src/contexts/AuthContext.tsx:265-273 | false with no user; true for every role when the user is an admin; otherwise exact role equality |
| AuthContext.AuthProvider.RefreshToken | src/contexts/AuthContext.tsx:275-294 | true iff a non-empty token is readable; then only `auth_token` (to `refreshed_token_` + milliseconds) and the session marker are written, and the stored user is kept; otherwise both stores are untouched |
| Hooks.TotalPages | src/hooks/index.ts:374 | `ceil(n / k)`: the fewest pages of `k` that hold `n` items; zero iff no items |
| Hooks.ClampPage | src/hooks/index.ts:379-382 | `max(1, min(page, total))`: at least 1, at most the total when there are pages, the page itself when in range |
| Hooks.CurrentData | src/hooks/index.ts:375-377 | the slice of page `p`, at most `k` items, empty past the end |
| Hooks.PageSlice | src/hooks/index.ts:375-377 | page `p` is the data between `(p − 1)·k` and `p·k`, both clamped to the length |
| Hooks.PagesUpToPrefix | src/hooks/index.ts:374-377 | the first `c` pages in order are the first `c·k` items |
| Hooks.PagesCoverData | src/hooks/index.ts:374-377 | all pages in order are exactly the data |
| Hooks.Pagination.constructor | src/hooks/index.ts:368-372 | the first page |
| Hooks.Pagination.HasNextPage | src/hooks/index.ts:394 | iff the page is below the total |
| Hooks.Pagination.HasPrevPage | src/hooks/index.ts:395 | iff the page is above 1 |
| Hooks.Pagination.GoToPage | src/hooks/index.ts:379-382 | the page becomes the clamped target |
| Hooks.Pagination.NextPage | src/hooks/index.ts:384 | clamped page + 1; exactly one more when there is a next page |
| Hooks.Pagination.PrevPage | src/hooks/index.ts:385 | clamped page − 1; exactly one less when there is a previous page |
| Hooks.Pagination.FirstPage | src/hooks/index.ts:386 | page 1 |
| Hooks.Pagination.LastPage | src/hooks/index.ts:387 | the last page, or 1 when there are no items |
| Hooks.SortState.constructor | src/hooks/index.ts:412-413 | the default key and order |
| Hooks.SortState.SortedData | src/hooks/index.ts:415-425 | a permutation of the data; unchanged without a key; with one, sorted in the chosen direction and stable |
| Hooks.SortState.HandleSort | src/hooks/index.ts:427-434 | the current key flips the order; another key is taken with ascending order |
| Hooks.HandleSortTwice | src/hooks/index.ts:427-434 | two clicks on the current key restore the order; on a new key they end descending |
| Strings.Trim | src/pages/Watchlist.tsx:66 | `trim()`: an infix of the input with only white space cut off before and after it, neither starting nor ending with white space |
| Strings.TrimPadded | src/pages/Watchlist.tsx:66 | white space on both sides of a word with non-space ends is removed exactly |
| Strings.Truthy | src/hooks/index.ts:336-344 | `error \|\| undefined`, and a JSX `&&` guard on text: keeps only a present, non-empty string |
| Hooks.ValidateField | src/hooks/index.ts:309-312 | a field without a rule has no error |
| Hooks.CollectErrors | src/hooks/index.ts:314-328 | the new errors hold exactly the fields whose rule fails, with the message; the result is true iff every rule passes |
| Hooks.RecordFieldError | src/hooks/index.ts:336-344 | the key is written, with the message or with no value; the other keys are unchanged |
| Hooks.IsValidAsWritten | src/hooks/index.ts:361 | `Object.keys(errors).length === 0`: holds exactly for the empty map, so a key holding `undefined` already fails it |
| Hooks.NoErrors | src/hooks/index.ts:361 | the intended test: implied by the written one, and it holds only when no key carries a message |
| Hooks.BlurOfValidFieldAsWritten | src/hooks/index.ts:340-361 | blurring a field that passes leaves no message, yet `isValid` as written is false |
| Hooks.RecordFieldErrorKeepsValid | src/hooks/index.ts:340-345 | with the intended test a passing field keeps the form valid, a failing one makes it invalid |
| Hooks.ValidateFormAgrees | src/hooks/index.ts:314-361 | after `validateForm` the intended and the written test agree |
| Hooks.FormValidation.constructor | src/hooks/index.ts:305-307 | the initial values, no errors, nothing touched; the key order it is given lists each rule's key exactly once, as `Object.keys(validationRules)` does |
| Hooks.FormValidation.IsValid | src/hooks/index.ts:361 | `isValid` with the intended test: true for empty errors, and true only when no field carries a message |
| Hooks.FormValidation.ValidateForm | src/hooks/index.ts:314-328 | the errors are exactly the fields of the rules whose rule fails, with the message; the result is true iff every rule passes, iff the form is valid |
| Hooks.FormValidation.HandleChange | src/hooks/index.ts:330-338 | the value is set; a touched field has its error re-recorded, an untouched one keeps the errors |
| Hooks.FormValidation.HandleBlur | src/hooks/index.ts:340-345 | the field is touched and its error recorded |
| Hooks.FormValidation.ResetForm | src/hooks/index.ts:347-351 | the initial values, no errors, nothing touched; valid |
| Hooks.AsyncTask.constructor | src/hooks/index.ts:109-111 | idle, no data, no error |
| Hooks.AsyncTask.Execute | src/hooks/index.ts:113-117 | pending, data and error cleared; only `isLoading` holds |
| Hooks.AsyncTask.Settle | src/hooks/index.ts:118-127 | success with the data or error with the error, the outcome returned (rethrown) as given |
| Hooks.AsyncFlags | src/hooks/index.ts:141-143 | the three flags exclude each other; none holds exactly when idle |
| Hooks.AsyncTask.IsLoading | src/hooks/index.ts:141 | loading iff the task has started and has neither succeeded nor failed |
| Hooks.AsyncTask.IsError | src/hooks/index.ts:142 | an error iff the task has started, is no longer pending and has not succeeded |
| Hooks.AsyncTask.IsSuccess | src/hooks/index.ts:143 | a success iff the task has started, is no longer pending and has not failed |
| Hooks.KeyMatchesCase | src/hooks/index.ts:276-284 | the shortcut fires for its key in either case with no modifiers, and not with an unrequested Ctrl |
| Hooks.KeyMatches | src/hooks/index.ts:276-284 | a match needs keys of equal length and each modifier down exactly when its option is `true` (absent means up); the exact key with those modifiers matches |
| Hooks.Toggle.constructor | src/hooks/index.ts:93-94 | the initial value |
| Hooks.Toggle.Toggle | src/hooks/index.ts:96 | negates the value |
| Hooks.Toggle.SetToggle | src/hooks/index.ts:97 | sets the value |
| Hooks.ToggleTwice | src/hooks/index.ts:96 | toggling twice restores the value |
| Sorting.Flip | src/hooks/index.ts:429 | the other direction |
| Sorting.Compare | src/hooks/index.ts:415-425 | returns -1, 0 or 1; 0 exactly for equal values; negative iff the first is smaller, ascending, or larger, descending |
| Sorting.CompareFacts | src/hooks/index.ts:415-425 | the comparator is antisymmetric, total and transitive; 0 only for equal values; negative iff less, ascending, or greater, descending |
| Sorting.SortBy | src/hooks/index.ts:415-425 | the sort returns a permutation, sorted by the comparator, with equal keys in input order |
| Watchlist.MockTableKeys | src/pages/Watchlist.tsx:54-63 | a check of the transcribed data: the symbol table and the list of its symbols agree |
| Watchlist.NormalizeSymbol | src/pages/Watchlist.tsx:66 | the upper-cased infix of the input left after removing white space only from both ends; no lower-case letter, no longer than the input |
| Watchlist.NormalizePadded | src/pages/Watchlist.tsx:66 | a word with non-space ends, padded with any white space, normalises to exactly the word upper-cased |
| Watchlist.AddPaddedSymbol | src/pages/Watchlist.tsx:65-95 | typing " aapl " into an empty list adds AAPL with the Apple quote, and the AAPL chip disappears |
| Watchlist.AddsAapl | src/pages/Watchlist.tsx:65-95 | any input that normalises to AAPL is added to an empty list with the Apple quote |
| Watchlist.NormalizesToAapl | src/pages/Watchlist.tsx:66 | " aapl " normalises to "AAPL" |
| Watchlist.TrimsToAapl | src/pages/Watchlist.tsx:66 | " aapl " trims to "aapl" |
| Watchlist.UpperAapl | src/pages/Watchlist.tsx:66 | "aapl" upper-cases to "AAPL" |
| Watchlist.TryAdd | src/pages/Watchlist.tsx:65-95 | against the page's symbol table: blank input, a symbol already listed and an unknown symbol are rejected in that order with their messages; otherwise the table's item with the time stamp is produced and announced |
| Watchlist.HasSymbol | src/pages/Watchlist.tsx:73 | `some` by its recursion: false on the empty list, else the head matches or the tail has the symbol |
| Watchlist.AddedNotice | src/pages/Watchlist.tsx:94 | a success toast whose message begins with the symbol |
| Watchlist.AddKeepsUnique | src/pages/Watchlist.tsx:73-88 | an accepted add keeps the symbols unique |
| Watchlist.AppendFreshKeepsUnique | src/pages/Watchlist.tsx:73-88 | appending a symbol not yet listed keeps the symbols unique |
| Watchlist.RemoveSymbol | src/pages/Watchlist.tsx:97-101 | exactly the other items stay, in order; the symbol is gone; an absent symbol changes nothing |
| Watchlist.AvailableSymbols | src/pages/Watchlist.tsx:262-264 | the table's symbols not yet listed, in table order |
| Watchlist.AddRemovesChip | src/pages/Watchlist.tsx:262-264 | an accepted add takes exactly its symbol out of the chips |
| Watchlist.FilteredAndSorted | src/pages/Watchlist.tsx:113-126 | exactly the items whose lower-cased symbol or name contains the lower-cased query, as a permutation of the filter, sorted and stable |
| Watchlist.Matches | src/pages/Watchlist.tsx:113-117 | the empty query matches every item; a query equal to the symbol or the name up to case matches it |
| Watchlist.EmptyQueryShowsAll | src/pages/Watchlist.tsx:114-118 | an empty query shows every item |
| Watchlist.Cells | src/pages/Watchlist.tsx:150-158 | one cell per header |
| Watchlist.QuoteCell | src/pages/Watchlist.tsx:166 | quoted iff it contains a comma, inner quotes not doubled |
| Watchlist.Lines | src/pages/Watchlist.tsx:163-168 | one line per item, in list order |
| Watchlist.ExportCsv | src/pages/Watchlist.tsx:149-170 | an empty list exports no text; otherwise the text starts with the header line joined by `,` followed by a line feed |
| Watchlist.WatchlistPage.Displayed | src/pages/Watchlist.tsx:113-126 | exactly the listed items matching the search, sorted by the current field and direction |
| Watchlist.WatchlistPage.Chips | src/pages/Watchlist.tsx:262-264 | exactly the table's symbols not yet on the list |
| Watchlist.WatchlistPage.Export | src/pages/Watchlist.tsx:149-170 | nothing for an empty list; otherwise the header line, then a line feed |
| Watchlist.ReadField | src/pages/Watchlist.tsx:149-170 | the independent reader of the export's records that `CsvRoundTrip` reads back with: a quoted field holds no quote; a plain field runs up to the first comma, loses nothing and leaves the rest at that comma; every call consumes input |
| Watchlist.ReadQuotedCell | src/pages/Watchlist.tsx:166 | a cell written by the export reads back as itself when it holds no quote |
| Watchlist.RecordRoundTrip | src/pages/Watchlist.tsx:164-167 | a line reads back as its cells when no cell holds a quote or line break |
| Watchlist.SplitJoined | src/pages/Watchlist.tsx:161-169 | joining lines without breaks by `\n` and splitting gives them back |
| Watchlist.ReadLinesOf | src/pages/Watchlist.tsx:161-168 | non-empty rows of cells without quotes read back from their lines, in order |
| Watchlist.CsvRoundTrip | src/pages/Watchlist.tsx:149-170 | for a non-empty list with plain cells the export reads back as the header row and one row of cells per item, in order |
| Watchlist.EmptyExport | src/pages/Watchlist.tsx:160-169 | an empty list exports an empty text: there are no headers |
| Watchlist.QuotedCellLost | src/pages/Watchlist.tsx:166 | a cell with a quote and a comma does not read back as itself |
| Watchlist.WatchlistPage.constructor | src/pages/Watchlist.tsx:8-63 | the initial page state over the mock symbol table |
| Watchlist.WatchlistPage.AddToWatchlist | src/pages/Watchlist.tsx:65-95 | a rejection leaves the list and form; an acceptance appends the item at the end, clears the input and closes the form; symbols stay unique |
| Watchlist.WatchlistPage.RemoveFromWatchlist | src/pages/Watchlist.tsx:97-102 | unconfirmed changes nothing; confirmed removes the symbol's items and announces it |
| Watchlist.WatchlistPage.HandleSort | src/pages/Watchlist.tsx:104-111 | the current field flips the direction; another field is taken ascending |
| Watchlist.WatchlistPage.ChooseChip | src/pages/Watchlist.tsx:268 | the chip's symbol becomes the input |
| Watchlist.WatchlistPage.TypeSymbol | src/pages/Watchlist.tsx:242 | the input is upper-cased as typed |
| Watchlist.WatchlistPage.CancelAdd | src/pages/Watchlist.tsx:249-250 | the form closes and the input clears |
| Dashboard.MergeUpdate | src/pages/Dashboard.tsx:32-35 | the update is stored under its symbol; every other symbol's entry is unchanged |
| Dashboard.MergeAll | src/pages/Dashboard.tsx:31-36 | after a stream of updates the map holds the old symbols and every streamed one, each entry either a streamed update or its old value |
| Dashboard.MergeAllSnoc | src/pages/Dashboard.tsx:32-35 | merging a run of updates is merging them one after the other |
| Dashboard.MergeAllKeepsLatest | src/pages/Dashboard.tsx:32-35 | after a run each symbol holds its latest update, or its old entry when it had none |
| Dashboard.Fold | src/pages/Dashboard.tsx:127-129 | the `reduce` result is one of the positions with a change percent at least every position's |
| Dashboard.BestPerformer | src/pages/Dashboard.tsx:127-134 | defined iff there are positions; a position whose change percent is the greatest |
| Dashboard.FoldIndex | src/pages/Dashboard.tsx:128 | the fold returns its seed when nothing beats it, else the first position that beats everything before it |
| Dashboard.FoldEarliest | src/pages/Dashboard.tsx:128 | the strict comparison keeps the earliest of equal bests |
| Dashboard.BestIsEarliest | src/pages/Dashboard.tsx:127-134 | the best performer is the first position with the greatest change percent |
| Dashboard.DemoBestPerformer | src/pages/Dashboard.tsx:127-134 | a check of the transcribed data: on the demo portfolio the best performer is TSLA at 2.28 % |
| Dashboard.OrElse | src/pages/Dashboard.tsx:153-155 | `x \|\| fallback` on numbers: the fallback exactly when `x` is 0 |
| Dashboard.DisplayRow | src/pages/Dashboard.tsx:151-166 | the live indicator iff an update exists; each shown figure is the update's when non-zero, else the position's; value = price × quantity |
| Dashboard.Rows | src/pages/Dashboard.tsx:151 | one row per position, in order |
| Dashboard.RowShowsFreshUpdate | src/pages/Dashboard.tsx:151-166 | after an update for the row's symbol with a non-zero price the row is live and shows that price |
| Dashboard.OtherUpdateKeepsRow | src/pages/Dashboard.tsx:151-166 | an update for another symbol leaves the row as it was |
| Dashboard.FormatPercent | src/pages/Dashboard.tsx:64-66 | `+` before non-negative values only, `%` last |
| Dashboard.PlusIffNonNegative | src/pages/Dashboard.tsx:64-66 | the text starts with `+` iff the value is non-negative |
| Dashboard.Symbols | src/pages/Dashboard.tsx:30 | the positions' symbols, in order |
| Dashboard.DemoSymbols | src/pages/Dashboard.tsx:17-30 | a check of the transcribed data: the demo subscription covers AAPL, GOOGL, MSFT and TSLA |
| Dashboard.SubscribePortfolio | src/pages/Dashboard.tsx:28-39 | the portfolio's symbols are requested and `price_update` subscribed; the cleanup is that unsubscriber |
| Dashboard.MountThenUnmount | src/pages/Dashboard.tsx:28-39 | after mount and cleanup the listener is gone and no other type's listeners changed |
| NotificationsPage.Visible | src/pages/Notifications.tsx:18-26 | exactly the items both filters keep, in order |
| NotificationsPage.AllShowsEverything | src/pages/Notifications.tsx:19-23 | both filters on "all" show the whole list in order |
| NotificationsPage.VisibleIsBothFilters | src/pages/Notifications.tsx:18-26 | the one-pass filter is the read filter followed by the type filter |
| NotificationsPage.Keeps | src/pages/Notifications.tsx:19-26 | "all"/"all" keeps everything; a kept item is unread under "unread", read under "read" and of the chosen type; an item passing both filters is kept |
| NotificationsPage.FiltersKeepExactly | src/pages/Notifications.tsx:19-23 | a type keeps exactly that type; unread and read exactly those |
| NotificationsPage.StatusViewsPartition | src/pages/Notifications.tsx:20-21 | the unread and read views add up to the list |
| NotificationsPage.ReadOptionCount | src/pages/Notifications.tsx:139 | the read count is at most the length |
| NotificationsPage.OptionCountsSum | src/pages/Notifications.tsx:138-139 | the two option counts sum to the total; the unread one is the unread view's size |
| NotificationsPage.HandleClick | src/pages/Notifications.tsx:74-82 | marks read iff unread; navigates iff the action URL is a non-empty string |
| NotificationsPage.Dispatch | src/pages/Notifications.tsx:74-88 | no action leaves the list; marking keeps its length and ids; marking all leaves every item read |
| NotificationsPage.ClickTouchesOnlyItsId | src/pages/Notifications.tsx:74-77 | a click changes nothing for a read item and only the items with its id otherwise |
| NotificationsPage.HandleMarkAllAsRead | src/pages/Notifications.tsx:84-116 | acts iff there are unread items and the dialog is confirmed |
| NotificationsPage.HandleClearAll | src/pages/Notifications.tsx:90-124 | acts iff the list is non-empty and the dialog is confirmed |
| NotificationsPage.MarkAllEmptiesUnreadView | src/pages/Notifications.tsx:84-105 | after a confirmed "Mark All Read" nothing is unread and the button is no longer offered |
| Help.FirstIndex | src/pages/Help.tsx:102 | the first position of a value |
| Help.Distinct | src/pages/Help.tsx:102 | `Array.from(new Set(s))`: the same values, each once |
| Help.FirstIndexPrefix | src/pages/Help.tsx:102 | a value's first position does not move when the list grows |
| Help.DistinctInFirstOccurrenceOrder | src/pages/Help.tsx:102 | the distinct values come in order of first occurrence |
| Help.CategoryOf | src/pages/Help.tsx:102 | the items' categories, in order |
| Help.CategoriesFacts | src/pages/Help.tsx:102 | `categories` holds each category of the data once, in order of first occurrence |
| Help.Categories | src/pages/Help.tsx:102 | exactly the categories that occur in the data, each once |
| Help.Filtered | src/pages/Help.tsx:104-109 | exactly the items whose question or answer contains the query ignoring case, in the selected category or any under "all", in order |
| Help.MatchesCategory | src/pages/Help.tsx:107 | "all" admits every item; any other selection admits exactly the items of that category |
| Help.MatchesSearch | src/pages/Help.tsx:104-108 | the empty query matches every FAQ; a query equal to the question or the answer up to case matches it |
| Help.EmptySearchShowsAll | src/pages/Help.tsx:104-109 | an empty query under "all" keeps every item |
| Help.EmptySearchLength | src/pages/Help.tsx:104-109 | an empty search under "all" drops no entry |
| Help.FaqCount | src/pages/Help.tsx:10-95 | a check of the transcribed data: it holds 14 entries, all shown initially |
| Help.SectionItems | src/pages/Help.tsx:192 | exactly the filtered items of one category |
| Help.ShowsSection | src/pages/Help.tsx:191-196 | a category's section is drawn iff some filtered item has that category and the selector is "all" or that category |
| Help.SectionsShowFiltered | src/pages/Help.tsx:191-196 | every filtered item appears in its category's section, which is drawn, and in no other |
| Help.OnlySelectedSection | src/pages/Help.tsx:194 | with a category selected no other section is drawn |
| Help.EmptyStateIffNoSection | src/pages/Help.tsx:177-196 | the "No results" state shows iff no section would be drawn |
| Help.Toggled | src/pages/Help.tsx:111-119 | the id is flipped, every other id kept |
| Help.ToggleTwice | src/pages/Help.tsx:111-119 | two toggles restore the set |
| Help.Ids | src/pages/Help.tsx:122 | the set of the items' ids |
| Help.HelpPage.constructor | src/pages/Help.tsx:10-100 | the FAQ data, no query, category "all", nothing expanded |
| Help.HelpPage.ToggleExpanded | src/pages/Help.tsx:111-119 | the expanded set becomes the toggled one |
| Help.HelpPage.ExpandAll | src/pages/Help.tsx:121-123 | exactly the shown items' ids are expanded |
| Help.HelpPage.Shown | src/pages/Help.tsx:104-109 | exactly the page's entries that match the current query and category, in order |
| Help.HelpPage.IsExpanded | src/pages/Help.tsx:205-224 | an answer is open iff a click on its question would close it |
| Help.HelpPage.CollapseAll | src/pages/Help.tsx:125-127 | nothing is expanded |
| Help.ExpandAllOpensShown | src/pages/Help.tsx:121-123 | every shown item's id is expanded after "Expand all" |
| Login.IsEmailMatchesPattern | src/pages/Login.tsx:21 | the scan accepts exactly the strings the pattern `^[^\s@]+@[^\s@]+\.[^\s@]+$` matches |
| Login.IsEmail | src/pages/Login.tsx:21 | an accepted string is at least five characters, starts with neither `@` nor white space, and has its first `@` as its only one; `IsEmailMatchesPattern` proves the scan equal to the pattern |
| Login.PatternConditions | src/pages/Login.tsx:21 | accepted iff a single `@` that is not first, no white space, and a `.` in the domain that is neither its first nor its last character |
| Login.EmailError | src/pages/Login.tsx:19-23 | "Email is required" when empty; "Please enter a valid email address" when the pattern fails; none iff it passes |
| Login.PasswordError | src/pages/Login.tsx:25-29 | "Password is required" when empty; "Password must be at least 6 characters" below six; none iff at least six |
| Login.LoginPage.constructor | src/pages/Login.tsx:8-13 | empty fields, no errors |
| Login.LoginPage.ValidateForm | src/pages/Login.tsx:16-33 | each field's message recorded independently, no other key; valid iff no message, iff both rules pass |
| Login.LoginPage.HandleSubmit | src/pages/Login.tsx:35-44 | an invalid form stops before `login`, changing neither state nor storage; a valid one logs in and goes to `/dashboard` |
| Login.LoginPage.HandleInputChange | src/pages/Login.tsx:46-57 | the field takes its value; its shown message, and only that, is blanked |
| Login.LoginPage.FillDemo | src/pages/Login.tsx:65-71 | the address and `demo123`; "remember me" kept |
| Login.EditLeavesOthers | src/pages/Login.tsx:53-56 | editing never shows a message and leaves the other messages |
| Login.DemoAccountsValid | src/pages/Login.tsx:59-71 | every demo fill passes validation |
| Login.ValidFormLogsIn | src/pages/Login.tsx:35-44 | a form that passes validation is accepted by the mock login |
| Onboarding.StepCountIsSeven | src/components/OnboardingModal.tsx:14-60 | a check of the transcribed data: the tour has seven steps |
| Onboarding.OnboardingModal.constructor | src/components/OnboardingModal.tsx:68 | the first step |
| Onboarding.OnboardingModal.PrimaryLabel | src/components/OnboardingModal.tsx:207-221 | "Get Started" iff on the last step, "Next" otherwise |
| Onboarding.OnboardingModal.IsLastStep | src/components/OnboardingModal.tsx:126 | on a valid step, true iff no step follows the current one; the last step is the "complete" step |
| Onboarding.OnboardingModal.ShowsPrevious | src/components/OnboardingModal.tsx:191 | the Previous button is drawn iff the tour is past its first step |
| Onboarding.OnboardingModal.Progress | src/components/OnboardingModal.tsx:154-159 | "`n` of 7" with `n` the step + 1; the bar is full iff on the last step |
| Onboarding.OnboardingModal.HandleNext | src/components/OnboardingModal.tsx:105-109 | one step on only before the last; the step stays in range |
| Onboarding.OnboardingModal.HandlePrevious | src/components/OnboardingModal.tsx:111-115 | one step back only after the first; the step stays in range |
| Onboarding.OnboardingModal.GoToStep | src/components/OnboardingModal.tsx:227-231 | a dot sets its step |
| Onboarding.OnboardingModal.HandleSkip | src/components/OnboardingModal.tsx:117-123 | skipping and finishing close the tour |
| Onboarding.Navigate | src/components/OnboardingModal.tsx:105-115 | any run of Next, Previous and dot presses keeps the step in range |
| Onboarding.NextTimes | src/components/OnboardingModal.tsx:105-109 | `n` presses of Next move `n` steps on, stopping at the last |
| Onboarding.OnboardingState.constructor | src/components/OnboardingModal.tsx:469-473 | the stored completion flag, false when absent; the tour hidden |
| Onboarding.OnboardingState.AutoShowFires | src/components/OnboardingModal.tsx:476-484 | the tour opens iff signed in, with a user, and not completed; else nothing changes |
| Onboarding.SchedulesAutoShow | src/components/OnboardingModal.tsx:476-485 | the automatic opening is scheduled only for a signed-in user with a user record, never once the tour is completed, and always otherwise |
| Onboarding.OnboardingState.StartOnboarding | src/components/OnboardingModal.tsx:487-489 | the tour opens |
| Onboarding.OnboardingState.CompleteOnboarding | src/components/OnboardingModal.tsx:491-494 | the tour closes and is marked completed |
| Onboarding.OnboardingState.ResetOnboarding | src/components/OnboardingModal.tsx:496-498 | the completion flag clears |
| Onboarding.CompleteStopsAutoShow | src/components/OnboardingModal.tsx:476-494 | once completed the timer no longer opens the tour |
| Sidebar.FilterByRole | src/components/Sidebar.tsx:181-186 | exactly the ungated items and those whose role `hasRole` grants, in order |
| Sidebar.AdminSeesAll | src/components/Sidebar.tsx:181-186 | an admin sees every item |
| Sidebar.NoUserSeesUngated | src/components/Sidebar.tsx:181-186 | without a user only the ungated items remain |
| Sidebar.NonAdminSeesOwnRole | src/components/Sidebar.tsx:181-186 | anyone else sees the ungated items and those of their own role |
| Sidebar.Section | src/components/Sidebar.tsx:181-197 | a section is drawn iff some item is permitted, with the filtered items |
| Sidebar.SupportSectionAlwaysDrawn | src/components/Sidebar.tsx:22-197 | the support section is always drawn; its API link iff admin |
| Sidebar.AtMostOneActive | src/components/Sidebar.tsx:188 | with distinct paths at most one link is active |
| Sidebar.IsActive | src/components/Sidebar.tsx:188 | a link is active iff its path has the location's length and agrees with it character by character |
| Sidebar.DemoPathsDistinct | src/components/Sidebar.tsx:22-172 | a check of the transcribed data: each section's paths are distinct |
| Sidebar.HandleKeyDown | src/components/Sidebar.tsx:174-179 | acts iff Enter or Space |
| App.ProtectedRoute | src/App.tsx:139-168 | loading first; signed out redirects to `/login`; a role `hasRole` refuses gives Access Denied; else the page |
| App.PublicRoute | src/App.tsx:171-188 | loading first; signed in redirects to `/dashboard`; else the page |
| App.GuardOf | src/App.tsx:199-354 | the route table: public, trader, admin, signed-in and open pages; any other path redirects to `/dashboard` |
| App.Visit | src/App.tsx:199-354 | open pages always render; unknown paths go to `/dashboard`; every guarded page shows the loading view while loading; "Access Denied" only on trader or admin pages for a signed-in user; a guarded page renders only for a signed-in user who is not loading |
| App.AdminReachesAll | src/App.tsx:199-350 | a signed-in admin reaches every guarded and open page |
| App.SignedOutVisits | src/App.tsx:199-350 | signed out: every guarded page redirects to `/login`, open and public pages show |
| App.GuestDenied | src/App.tsx:199-350 | a guest is denied the trader and admin pages |
| App.SidebarMatchesRoutes | src/App.tsx:199-350 | each sidebar link needs the role its route needs; it is shown iff the page would not deny access |
| App.ParseHighContrast | src/App.tsx:37-38 | on iff the stored text is exactly `true` |
| App.PreferenceRoundTrip | src/App.tsx:37-51 | a stored flag reads back as itself |
| App.AppLayout.constructor | src/App.tsx:32-33 | sidebar closed, high contrast off |
| App.AppLayout.LoadPreference | src/App.tsx:36-39 | the flag is on iff the stored entry is `true` |
| App.AppLayout.StorePreference | src/App.tsx:50-52 | the flag is written back under its key |
| App.AppLayout.ToggleSidebar | src/App.tsx:54 | the sidebar flag is negated |
| App.AppLayout.CloseSidebar | src/App.tsx:55 | the sidebar closes |
| App.AppLayout.ToggleHighContrast | src/App.tsx:50-56 | the flag is negated and stored |
| App.ShowBool | src/App.tsx:51 | `"true"` exactly for true, `"false"` otherwise |
| App.ToggleThenReload | src/App.tsx:37-56 | a toggled preference survives a reload |
| ErrorBoundary.DerivedStateFromError | src/components/ErrorBoundary.tsx:22-29 | the error flag set, the error kept, no component stack |
| ErrorBoundary.Render | src/components/ErrorBoundary.tsx:93-98 | the fallback iff an error and a fallback; the error page iff an error without one; the children iff no error |
| ErrorBoundary.DebugDetails | src/components/ErrorBoundary.tsx:119-141 | the development block iff in development with an error: its message, and each stack iff known and non-empty |
| ErrorBoundary.Prior | src/components/ErrorBoundary.tsx:67 | a missing log reads as `[]`, an unreadable one as nothing, a stored one as its reports |
| ErrorBoundary.KeepLast | src/components/ErrorBoundary.tsx:71-73 | `splice(0, length − 10)`: the last `n` elements, or all when fewer |
| ErrorBoundary.KeepLastIdempotent | src/components/ErrorBoundary.tsx:71-73 | trimming twice is trimming once |
| ErrorBoundary.KeepLastAppend | src/components/ErrorBoundary.tsx:68-73 | trimming before an append keeps what trimming after it would |
| ErrorBoundary.AppendedLog | src/components/ErrorBoundary.tsx:67-75 | after one write the log holds `min(old + 1, 10)` reports, the new one last, after the newest nine of the old |
| ErrorBoundary.Report | src/components/ErrorBoundary.tsx:53-60 | the report carries the error's message and stack, the component stack, and the time, address and agent given |
| ErrorBoundary.History | src/components/ErrorBoundary.tsx:66-75 | the last ten of all reports, the newest last |
| ErrorBoundary.HistoryStep | src/components/ErrorBoundary.tsx:66-75 | one more report moves the history on by that report |
| ErrorBoundary.ReportsOf | src/components/ErrorBoundary.tsx:53-60 | one report per caught error, in order, each built from its error |
| ErrorBoundary.LogAfterStep | src/components/ErrorBoundary.tsx:66-75 | after successful writes the store is readable, and one more write moves it on by that report |
| ErrorBoundary.Boundary.constructor | src/components/ErrorBoundary.tsx:16-20 | the initial state |
| ErrorBoundary.Boundary.LogErrorToService | src/components/ErrorBoundary.tsx:51-79 | a readable log becomes the last ten of the old log and the new report; an unreadable log or a failing write leaves the store untouched |
| ErrorBoundary.Boundary.ComponentDidCatch | src/components/ErrorBoundary.tsx:31-49 | the error and component stack recorded; `onError` called with both iff given; the error logged |
| ErrorBoundary.Boundary.Catch | src/components/ErrorBoundary.tsx:22-49 | an error thrown below the boundary leaves it showing the error with its component stack, and logs it |
| ErrorBoundary.Boundary.HandleRetry | src/components/ErrorBoundary.tsx:81-87 | exactly the initial state |
| ErrorBoundary.CatchThenRetry | src/components/ErrorBoundary.tsx:81-98 | after an error the children are not shown; after "Try Again" they are |
| ErrorBoundary.LogAll | src/components/ErrorBoundary.tsx:66-75 | logging the reports of a run of errors one by one into an empty store leaves exactly the last ten, in order |

## Left out

- Real socket I/O and JSON framing are not modelled. `new WebSocket`, `ws.send` and `JSON.parse`/`stringify` in `websocket.ts` are replaced by an outbox of frames and by inbound frames that come already parsed, with a malformed case that is dropped.
- Timers are not modelled: the 30 s heartbeat interval, the reconnect timeout, the 100 ms `checkConnection` polling and the 1 s status polling of `useWebSocket`. A method returns the delay it would schedule, and a flag records a running heartbeat. The waiting branch of `connect` is the outcome `Waiting`.
- WebSocket.WebSocketService.Disconnect: does not cancel a reconnect that is already scheduled, because the source never stores that timer's handle. The model makes no claim that it does.
- Listener callbacks are opaque identities. They are assumed not to change the registry during dispatch, because `Set.forEach` iterates the live set and the model does not capture that.
- Open, error and message events from a socket the service no longer holds are not told apart: each applies to the current socket. Only close events are, through the corrected `OnCloseOf`; the as-written `OnClose` also applies to the current socket.
- Random and simulated data are left out, because they depend on `Math.random` and the clock:
  - `mockPriceUpdates`;
  - the watchlist's price tick;
  - the notification market-alert generator;
  - the welcome notification.
  The five-minute auto-remove of `info` notifications appears only as the decision `SchedulesAutoRemove` and the lemma `AutoRemoveRestores`.
- Browser storage is not modelled as text:
  - `localStorage` and `sessionStorage` are maps of stored values;
  - no storage call throwing is modelled, except where a source branch depends on it (the error log's parse and write);
  - `NotificationStorage` save and load, `useLocalStorage` and `useSessionStorage` are not part of this model;
  - the watchlist page's load of `user_watchlist` on mount and its save on every change (src/pages/Watchlist.tsx:17-28) are left out: the page starts from an empty list, and `Watchlist.WatchlistPage.Valid` (unique symbols) assumes that a restored list is one the page itself wrote.
- The DOM and navigation hooks are left out, because they are browser I/O:
  - `useWindowSize`, `useMediaQuery`, `useClickOutside`, `useDebounce` and `usePrevious`;
  - the onboarding highlight effect;
  - the watchlist's `Blob` download;
  - `window.location` and `window.history`.
  Where a navigation target matters it is returned.
- `useFetch` is left out: it is network code, and its `refetch` refers to a function out of its scope.
- Formatting is opaque, given as function parameters or strings: `Intl.NumberFormat`, `toFixed`, `toLocaleString`, `toLocaleDateString`, ISO time stamps, and ids built from `Date.now`/`Math.random`. No property depends on rounding. Prices are `real`.
- Promises and async delays are not modelled. `connect`, `login`, `signup` and `refreshToken` are reduced to their synchronous outcome. The intermediate `LOGIN_START` state of a login is visible only inside `AuthProvider.Login`'s contract.
- Case mapping is ASCII only. `toLowerCase`/`toUpperCase` map `A`–`Z` and `a`–`z`; Unicode case mapping is not modelled.
- Strings are sequences of characters. JavaScript's UTF-16 code units are not modelled, so lengths and comparisons of non-BMP text may differ.
- Hooks.Pagination: assumes `itemsPerPage` is a positive integer. A zero or negative page size would give `Infinity`/`NaN` page counts in JavaScript.
- Hooks.KeyMatchesCase: states the case-insensitive match for ASCII keys only, because case mapping is ASCII only.
- Watchlist.QuoteCell: models the export as written. Inner quotes are not doubled, so the output is only a partial form of section 2 of RFC 4180. The CSV round trip is proved for cells without quotes or line breaks, and `QuotedCellLost` shows a cell that does not survive.
- Hooks.SortState.SortedData: the descending order is not stated as the reverse of the ascending one, because the source negates the comparator of a stable sort and equal keys keep their input order in both directions.
- Help.CategoriesFacts: the concrete category list of the FAQ data is not spelled out. The general first-occurrence property is proved instead.
- The search debounce is not modelled. Watchlist's query is taken as the already-debounced value. Help filters on the raw query, as the source does.
- Login: the "remember me" flag is stored but has no effect, because the mock `login` ignores it.
- The route table's page components, `withAuth`, `withErrorBoundary` and `useErrorHandler` are left out; they are rendering or logging only.
- Header, MaintenanceBanner and the placeholder pages are view code and are not part of this model.
- ErrorBoundary:
  - "Reload Page" and "Go Back" are browser navigation and are left out;
  - a falsy `fallback` counts as absent;
  - the error log's JSON text is not modelled: a slot is missing, unreadable or a list of reports, and an empty stored string counts as missing.
- AuthContext.TokenStorage.GetUserData: stored user data is assumed to be a user record. `getUserData` would `JSON.parse` any non-empty text, so other valid JSON such as `{}` would come back as a "user". The model reads every plain text entry as no user.
- App.GuardOf: path normalisation is not modelled. React Router matches paths without regard to case and ignores a trailing slash, so `/Trading` and `/trading/` reach the trader guard. The model sends them to the `/dashboard` redirect.
- The transcribed-data lemmas (`Onboarding.StepCountIsSeven`, `Watchlist.MockTableKeys`, `Dashboard.DemoSymbols`, `Dashboard.DemoBestPerformer`, `Help.FaqCount`, `Sidebar.DemoPathsDistinct`) check the constants of the model only. The properties are stated by the all-inputs lemmas beside them.
- CSS and the `style jsx` blocks are left out.

## Findings

| source | as written | input that shows it | evidently intended | confidence | as-written member | corrected member |
|---|---|---|---|---|---|---|
| src/hooks/index.ts:340-361 | `handleBlur` and a touched `handleChange` write `[name]: error \|\| undefined`, so a passing field leaves its key with value `undefined`. `isValid` counts keys, so it turns false. | blur of a field whose rule returns `null`, starting from no errors: `errors == { name: undefined }`, and `isValid` is false | `isValid` holds when no field has an error message | not executed | Hooks.BlurOfValidFieldAsWritten | Hooks.RecordFieldErrorKeepsValid |
| src/services/websocket.ts:65-98 | `disconnect` calls `ws.close(1000, …)` and drops the socket, but the socket's `onclose` handler stays attached and reconnects on any code other than 1000. On a socket still CONNECTING, the browser fails the connection and the close event carries 1006 (section 7.1.7 of RFC 6455). | `connect()`, then `disconnect()` before the open event; the close event has code 1006, so one attempt is counted and a reconnect is scheduled after the backoff delay | a deliberate `disconnect` never leads to a reconnect | not executed | WebSocket.DisconnectWhileConnecting | WebSocket.DisconnectThenAnyClose |
