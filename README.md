# depa_finder listing pipeline, modelled in Dafny

This project models the listing supply-and-consumption pipeline of the depa_finder
frontend. The pipeline is the part of the app that decides which rental listings a
user sees and what happens after each swipe:

- **Buffer manager** (`useListings` hook, `use_listings.dfy`, module `UseListings`).
  A fetched catalog is split into a displayed window of at most `BatchSize` = 5
  listings and a reserve pool. The window is refilled from the pool, or by a new
  fetch when the pool is empty. Consumed listings are filtered out of the window.
  The hook's state is the class `ListingBuffer`, with fields `displayed`, `pool`,
  `loading`, `error` and `initialized`. The network request is an abstract
  `FetchOutcome`: a transport failure, or a response with a status and a body.
  The body is a payload whose `data` field may be missing, or a body that does not
  parse. A fetch is split into two steps: `StartFetch` (raises `loading`) and a
  later `CompleteFetch(outcome)`. The auto-refill effect is the explicit step
  `AutoRefill`.
- **Deck** (`SwipeDeck` component, `swipe_deck.dfy`, module `SwipeDeck`). The
  visible stack is the reverse of the window. A committed left or right swipe
  records a feedback banner (direction, message from a fixed table, listing) and
  forwards the swipe to `onSwipe`. Up and down swipes are rejected. `Render`
  applies the screen precedence: loading, then error, then empty, then the deck.
- **Consumption coordinator and session store** (`App` component, `app.dfy`,
  module `App`). `HandleSwipe` always consumes the listing's id. A right swipe
  appends the listing to `likes` unless its id is already liked. The user record is
  mirrored into local storage, which is modelled as the object `BrowserStorage`
  holding a `map<string, StoredValue>`. On startup it is restored from there.
- `listing.dfy` (module `Listing`) holds the listing record and the facts about ids
  that the rest uses: `IdsOf`, which is the app's `likedIds`, `UniqueIds` and
  `Occurrences`. `wrappers.dfy` holds `Option` and `Result`.
- `scenarios.dfy` (module `Scenarios`) holds client methods. They show what a caller
  can conclude from the contracts alone. For eight listings with distinct ids, the
  first fetch shows five and keeps three in reserve. Three right swipes and two left
  swipes empty the window and like the first three listings. The refill then shows
  the other three. Once window and pool are both empty, the refill issues a fetch,
  and it does not fire again while that fetch is pending. Other methods cover a
  status 500 answer and its error screen, a rejected up swipe, a session that
  survives a restart and ends at logout, and a corrupt stored record.
  `EmptyCatalogRefetches` shows the repeated fetch described below. An empty
  catalog leaves the buffer initialized, idle and with an empty window, and so
  does a failing fetch after it. After each of these the refill issues another
  fetch, with no bound.

Where the design description and the code differ, the model follows the code:

- `consumeListing` removes every window entry with the id, not just one. With
  distinct ids this is exactly one entry (`ConsumeRemovesExactlyOne`).
- A failed fetch also lowers `loading` (the `finally` block).
- The design asks for the auto-refill to fire once per depletion. In the code it
  fires whenever its guard `initialized && !loading && displayed.length === 0`
  holds on a re-run of the effect, and `loading` going back to false re-runs it.
  So after a failed or empty fetch on an initialized buffer with an empty window
  it fires again and issues another fetch, without bound. `AutoRefill` fires
  exactly when the guard holds, as the code does.
- Error messages are checked for truthiness, not presence: `Render` shows the error
  screen only for a non-empty message. `FetchResult` never yields an empty one.

## Model

| member | source | states |
|---|---|---|
| `Listing.IdsOf` | frontend/src/App.jsx:16 | the liked-id set holds exactly the ids of the entries of the list, so membership is tested by id |
| `Listing.UniqueIdsConcat` | frontend/src/hooks/useListings.js:22-25 | a concatenation is duplicate-free iff both parts are and they share no id (the window and the pool of one payload) |
| `Listing.OccurrencesOfUnique` | frontend/src/App.jsx:46-47 | in a duplicate-free likes list an id occurs exactly once when present and never otherwise |
| `UseListings.SplitBatch` | frontend/src/hooks/useListings.js:4-23 | the batch has min(N, 5) entries, the remainder max(0, N - 5), and batch ++ remainder is the payload, in order |
| `UseListings.SplitBatchKeepsIdsApart` | frontend/src/hooks/useListings.js:22-25 | a duplicate-free payload gives a duplicate-free window and pool that share no id |
| `UseListings.RemoveId` | frontend/src/hooks/useListings.js:49 | the `filter(item => item.id !== id)` of the window; the result is never longer (order, multiplicities and membership are the lemmas below) |
| `UseListings.RemoveIdIsSubsequence` | frontend/src/hooks/useListings.js:49 | the filter keeps the relative order of the surviving entries |
| `UseListings.RemoveIdCounts` | frontend/src/hooks/useListings.js:49 | every entry with the id is dropped and every other entry keeps its multiplicity |
| `UseListings.RemoveIdMembers` | frontend/src/hooks/useListings.js:49 | a listing survives the filter iff it was in the window and its id differs |
| `UseListings.RemoveAbsentId` | frontend/src/hooks/useListings.js:49 | filtering out an id no entry carries leaves the window unchanged |
| `UseListings.RemoveIdOfUnique` | frontend/src/hooks/useListings.js:49 | with distinct ids, filtering out the id of entry i removes exactly entry i |
| `UseListings.RemoveIdKeepsUnique` | frontend/src/hooks/useListings.js:49 | the filter keeps a window duplicate-free |
| `UseListings.Consumed` | frontend/src/hooks/useListings.js:47-50 | a falsy id is a no-op; otherwise the id is gone, the other ids stay, and the window never grows |
| `UseListings.ConsumedKeepsOrderAndIds` | frontend/src/hooks/useListings.js:47-50 | consuming keeps the window's order and keeps the window and pool free of shared or repeated ids |
| `UseListings.ConsumeRemovesExactlyOne` | frontend/src/hooks/useListings.js:47-50 | with ids apart, consuming the id of entry i removes exactly that entry |
| `UseListings.ErrorText` | frontend/src/hooks/useListings.js:29 | the stored error message is never empty and is the thrown message when that one is non-empty |
| `UseListings.DecimalString` | frontend/src/hooks/useListings.js:18 | the status code is rendered as a non-empty string of decimal digits that denotes exactly that number, with no leading zero |
| `UseListings.IsOkStatus` | frontend/src/hooks/useListings.js:17 | `response.ok`: the status is in 200-299 |
| `UseListings.FetchResult` | frontend/src/hooks/useListings.js:16-29 | data is delivered iff the request succeeded with a 2xx status and a parsed payload; a payload without `data` delivers the empty list; a non-2xx status gives "API error: <status>"; every failure has a non-empty message |
| `UseListings.ListingBuffer.constructor` | frontend/src/hooks/useListings.js:7-11 | the initial state: empty window and pool, loading, no error, not initialized |
| `UseListings.ListingBuffer.StartFetch` | frontend/src/hooks/useListings.js:13-14 | starting a fetch raises `loading` and changes nothing else |
| `UseListings.ListingBuffer.CompleteFetch` | frontend/src/hooks/useListings.js:20-32 | success sets window and pool to the split payload, initialized, no error; failure sets the error and leaves window, pool and initialized unchanged; loading ends on both paths; the window stays within 5 |
| `UseListings.ListingBuffer.LoadMoreFromPool` | frontend/src/hooks/useListings.js:35-45 | a non-empty pool moves its first min(5, size) entries into the window with nothing lost (old pool == window ++ new pool); an empty pool is kept and a fetch is started instead |
| `UseListings.ListingBuffer.ConsumeListing` | frontend/src/hooks/useListings.js:47-50 | the window becomes the consumed window; pool and flags are untouched; ids stay apart |
| `UseListings.ListingBuffer.AutoRefill` | frontend/src/hooks/useListings.js:56-64 | fires iff initialized, not loading and the window is empty; then refills from the pool (non-empty window) or starts a fetch; otherwise changes nothing; the window stays within 5 |
| `SwipeDeck.SwipeMessage` | frontend/src/components/SwipeDeck.jsx:5-8 | the message table has a non-empty entry exactly for left and right |
| `SwipeDeck.Stack` | frontend/src/components/SwipeDeck.jsx:18 | the stack has the window's length and stack[i] == listings[n-1-i] |
| `SwipeDeck.StackInvolution` | frontend/src/components/SwipeDeck.jsx:18 | reversing the stack gives back the window |
| `SwipeDeck.StackSameListings` | frontend/src/components/SwipeDeck.jsx:18 | the stack holds the same listings as the window, with the same multiplicities |
| `SwipeDeck.IsTruthy` | frontend/src/components/SwipeDeck.jsx:39 | `if (error)`: the error is present and non-empty |
| `SwipeDeck.Render` | frontend/src/components/SwipeDeck.jsx:35-57 | loading wins; else a truthy error shows that error; else an empty stack shows the empty screen; else the deck shows the reversed window and the current banner |
| `SwipeDeck.Deck.constructor` | frontend/src/components/SwipeDeck.jsx:17 | no feedback banner at first |
| `SwipeDeck.Deck.HandleSwipe` | frontend/src/components/SwipeDeck.jsx:26-33 | the banner becomes {direction, table message, listing}, replacing any earlier one, and (direction, listing) is forwarded exactly once when `onSwipe` is present |
| `SwipeDeck.Deck.CardSwiped` | frontend/src/components/SwipeDeck.jsx:65-66 | up and down swipes forward nothing and leave the banner; left and right go through `HandleSwipe` with a non-empty message |
| `SwipeDeck.Deck.ExpireFeedback` | frontend/src/components/SwipeDeck.jsx:20-24 | the banner timer clears the banner |
| `App.RestoredUser` | frontend/src/App.jsx:18-26 | a session is restored iff the key holds a readable record, and then it is that record; absent or unreadable means no session |
| `App.Persisted` | frontend/src/App.jsx:29-40 | after persisting u, a restore yields u; persisting none removes the key; other keys are untouched |
| `App.PersistedOverrides` | frontend/src/App.jsx:29-40 | persisting twice is the same as persisting the second value |
| `App.AddLike` | frontend/src/App.jsx:46-47 | only a right swipe on a new id appends, at the end; an already-liked id or another direction leaves likes unchanged; the id set grows by the id; duplicate-freedom is kept |
| `App.AppendNewId` | frontend/src/App.jsx:47 | appending an entry with a new id adds exactly that id and keeps the list duplicate-free |
| `App.LikeTwiceKeepsOne` | frontend/src/App.jsx:46-47 | right-swiping a second listing with a liked id changes nothing, and the id occurs exactly once |
| `App.SwipesKeepLikesUnique` | frontend/src/App.jsx:42-48 | any run of swipes keeps likes duplicate-free and keeps the earlier entries as a prefix |
| `App.AppState.constructor` | frontend/src/App.jsx:13-15 | first render: no user, no likes, the hook's initial state |
| `App.AppState.RestoreSession` | frontend/src/App.jsx:18-26 | a readable stored record becomes the user; otherwise the user is left as it was, with no error |
| `App.AppState.PersistUser` | frontend/src/App.jsx:29-40 | the user is set to the argument; storage becomes the persisted storage, or stays unchanged when storage throws |
| `App.AppState.Logout` | frontend/src/App.jsx:51 | the user becomes none; storage becomes the persisted storage for none (only the user key removed, every other key kept), or stays unchanged when storage throws; a later restore yields no session |
| `App.AppState.HandleSwipe` | frontend/src/App.jsx:42-49 | a missing listing changes nothing; otherwise the window loses the listing's id whatever the direction and likes becomes `AddLike`; pool and flags are untouched; duplicate-free likes are kept |
| `App.AppState.SwipeCard` | frontend/src/App.jsx:77-83 | a card swipe reaches `handleSwipe` through `onSwipe` for left and right only; up and down change neither likes, window nor banner |
| `App.AppState.DeckView` | frontend/src/App.jsx:77-83 | the deck column renders the hook's window, flags and the deck banner, with `Render`'s precedence |

## Left out

- The HTTP request and JSON decoding (frontend/src/hooks/useListings.js:16-20) are an abstract `FetchOutcome` input. A body that is not JSON, or a payload whose `data` access throws, is `Unparsable(reason)`.
- Overlapping fetches and their last-write-wins race are not modelled. Steps run one at a time, and a `CompleteFetch` is not tied to a particular `StartFetch`.
- React's scheduling of state updates and effects is not modelled. The mount effect (frontend/src/hooks/useListings.js:52-54) is a call of `StartFetch` after the constructor. The auto-refill effect is `AutoRefill`, which the environment calls.
- `App.AppState.HandleSwipe` checks the current `likes`. In the code, `likedIds` comes from the last render while `setLikes` appends to `prev`. Two right swipes on the same id with no re-render between them would append it twice. The model assumes a render between swipes.
- The retry and reload buttons call `refetch`, which is `StartFetch` followed later by `CompleteFetch`. They have no member of their own.
- The 3000 ms banner timer and its cancellation are the abstract step `ExpireFeedback`.
- The gesture library's drag physics and 140 px threshold are not modelled. Only the up/down rejection is (`CardSwiped`).
- Falsy ids: null, undefined, 0 and "" are all represented by the empty string.
- `App.AddLike`: because the falsy ids are merged, a second listing with a different falsy id counts as already liked. A JavaScript `Set` keeps null, undefined, 0 and "" apart, so the code would append that listing.
- `App.RestoredUser`: JSON that parses to a truthy value but is not a user record (`{}`, `42`, `"x"`) is not modelled. The code accepts any such value as the user and then shows the deck. The model has only readable user records and unreadable entries.
- `localStorage` and `JSON.stringify`/`JSON.parse` are an abstract `map<string, StoredValue>`. Serializing and then parsing a user gives it back. A stored empty string, a stored `null`, and a `getItem` that throws are all `Unreadable`, because each leads to no session. A throwing `setItem` or `removeItem` is the `storageThrows` parameter of `PersistUser`.
- The presence of the `onSwipe` prop is the `hasOnSwipe` parameter. Calls of it are returned as a sequence of `SwipeEvent`.
- The login widget and JWT decoding (frontend/src/components/LoginGate.jsx) are not modelled. A successful login is a `PersistUser` with that user.
- Presentational markup is not modelled: the header user chip, the likes panel, the login-gate switch and `ListingCard` with its price formatting.
- The placeholder app in apps/web is not part of this model.
