# estante-2 friendship read-model, mention list, auth store and routes in Dafny

This project models four parts of the estante-2 web client and proves properties about them.

- **Friends hook** (`src/hooks/useDenormalizedFriends.ts`). It holds the signed-in user's friends, received requests and sent requests.
  - It loads the full friend list in batches of 100 edges, at most 20 batches per load. Each batch drops the ids already accumulated.
  - It keeps the result for five minutes in a module-level cache keyed `userId + "_" + type`.
  - It loads one more page on demand and refreshes everything.
  - It performs the friendship actions (send, accept, reject, remove, cancel one, cancel all). Each action resolves the edge id in its own collection.
  - It derives sorted views, counts and a relation status.
- **Mention suggestions** (`src/components/ui/rich-text-editor.tsx`).
  - The suggestion filter over the mock users.
  - The `MentionList` popup class with its selection index.
  - The character-limit gate of the editor.
- **Auth store** (`src/stores/authStore.ts`). A five-field store whose setters merge partial states shallowly.
- **Routes** (`src/router/paths.ts`). The static paths, the two route patterns and the builders that fill them.

Modules:

- Wrappers: `Option`, `Min`, `Take` (JavaScript `slice(0, n)`).
- JsString: the string built-ins the code relies on:
  - `toLowerCase` on ASCII and Latin-1 letters;
  - `includes`;
  - `trim` with the ECMAScript whitespace set;
  - `<` on strings, which is lexicographic by code unit.
- `Paths` and `AuthStore`: routes and the auth store.
- RichTextEditor: the editor pieces listed above.
- Friendship:
  - the friendship edge entity;
  - the sort comparators;
  - a stable insertion sort, standing in for `Array.prototype.sort`;
  - the `find`/`some` lookups and the status classifier.
- BatchLoader: the loop of `loadAllFriends`.
  - The remote store is an oracle `store: nat -> Response`, where `store(k)` is the answer to the k-th page request of one load.
  - `Run` is the loop's specification.
  - `LoadBatches` is the loop itself, proved equal to `Run`.
- FriendsCache: cache key, validity and the `Cache` object.
- FriendsHook:
  - Each hook operation is a function from the hook state plus cache entries before the call to the state after it (`LoadAll`, `LoadMore`, `Refresh`, `Perform`).
  - Lemmas state the properties of those functions.
  - The `Hook` class carries the state and cache. Its methods are proved equal to the functions.

Modelling choices:

- Dates are integer milliseconds. The clock (`Date.now()`) is a parameter of each operation that reads it.
- Remote answers are parameters:
  - a page oracle for full loads;
  - one `Response` for `loadMoreFriends`;
  - an `Option` of both request lists for `refreshData`;
  - `ok` for whether a remote write succeeded.
- Every page request is appended to `fetchLog` and every remote write to `calls`. This lets "no fetch" and "exactly one call" be stated.
- `user?.uid` is falsy for the empty string as well as for a missing user. `SignedIn` models both.
- The hook's React state cells are gathered in the one record field `Hook.state`. Each `setX` call becomes a record update.

Two behaviours of the code worth stating, because a reader might expect otherwise:

- A failed page request inside `loadAllFriends` keeps none of the pages read so far in that call. The accumulator `allFriendsData` is a local (src/hooks/useDenormalizedFriends.ts:201), and the `catch` and `finally` blocks (lines 249-255) write only the error and the loading flag. Nothing stores the partial list.
- `cancelAllSentRequests` without a signed-in user shows the "nothing to cancel" notice (lines 516-517), which the model calls `NothingToCancel`. The sibling actions show "must be logged in" instead (for example lines 411-412), which the model calls `NotSignedIn`.

## Model

| member | source | states |
|---|---|---|
| FriendsCache.CacheKey | src/hooks/useDenormalizedFriends.ts:40 | the key is the user id, one underscore, then the type, at the stated positions |
| FriendsCache.CacheKeyInjective | src/hooks/useDenormalizedFriends.ts:40 | for a fixed type, equal keys mean equal user ids |
| FriendsCache.CacheKeyCollision | src/hooks/useDenormalizedFriends.ts:40 | across types the key is ambiguous: ("a_b","c") and ("a","b_c") collide |
| FriendsCache.IsCacheValid | src/hooks/useDenormalizedFriends.ts:42-44 | definition: an entry is fresh while strictly less than five minutes have passed since its timestamp |
| FriendsCache.ValidityIsStrict | src/hooks/useDenormalizedFriends.ts:38-44 | an entry is valid after 299999 ms and invalid after exactly 300000 ms |
| FriendsCache.ExpiryIsFinal | src/hooks/useDenormalizedFriends.ts:42-44 | once expired, an entry stays expired as the clock advances |
| FriendsCache.Lookup | src/hooks/useDenormalizedFriends.ts:182 | an entry is served iff the key is present and its timestamp is still valid, and then it is that entry |
| FriendsCache.StoredEntryServed | src/hooks/useDenormalizedFriends.ts:243-247 | an entry just written is served until five minutes pass |
| FriendsCache.DeletedKeyMissed | src/hooks/useDenormalizedFriends.ts:383 | a deleted key is never served |
| FriendsCache.Cache.constructor | src/hooks/useDenormalizedFriends.ts:37 | the cache starts empty |
| FriendsCache.Cache.Put | src/hooks/useDenormalizedFriends.ts:243-247 | writes exactly one key |
| FriendsCache.Cache.Delete | src/hooks/useDenormalizedFriends.ts:383 | removes exactly one key |
| BatchLoader.IdsMeaning | src/hooks/useDenormalizedFriends.ts:214 | an id is in the id set iff some edge carries it |
| BatchLoader.IdsAppend | src/hooks/useDenormalizedFriends.ts:214-217 | the ids of a concatenation are the union of the ids |
| BatchLoader.Survivors | src/hooks/useDenormalizedFriends.ts:215 | an edge survives iff it is on the page and its id was not seen; distinct page ids stay distinct |
| BatchLoader.SurvivorsAppend | src/hooks/useDenormalizedFriends.ts:215 | filtering a concatenation filters each part in turn, so survivors keep the page's order and its repeats |
| BatchLoader.SurvivorsOne | src/hooks/useDenormalizedFriends.ts:215 | a single edge survives exactly when its id was not seen |
| BatchLoader.SurvivorsIds | src/hooks/useDenormalizedFriends.ts:215 | the survivors carry exactly the page's ids minus the seen ones |
| BatchLoader.SurvivorsEmpty | src/hooks/useDenormalizedFriends.ts:334-355 | a page whose ids were all seen has no survivors |
| BatchLoader.AppendSurvivorsIds | src/hooks/useDenormalizedFriends.ts:214-217 | appending the survivors adds exactly the page's ids |
| BatchLoader.AppendSurvivorsDistinct | src/hooks/useDenormalizedFriends.ts:214-217 | appending survivors of a page with distinct ids keeps ids distinct |
| BatchLoader.Absorb | src/hooks/useDenormalizedFriends.ts:212-226 | one pass: the count and request log grow by one; for a non-empty page the accumulator becomes the old one followed by the page's survivors against the old ids, the cursor becomes the page's, and the loop goes on iff the store has more and something was added; an empty page stops the loop and keeps accumulator and cursor |
| BatchLoader.Run | src/hooks/useDenormalizedFriends.ts:201-232 | definition: the loop as a recursive function of its state, stopping when there is no more, after 20 batches, or on a failed request |
| BatchLoader.RunFetched | src/hooks/useDenormalizedFriends.ts:207-226 | a running loop answered with a page continues from the absorbed state |
| BatchLoader.RunCompletedStep | src/hooks/useDenormalizedFriends.ts:207-226 | a completed loop that was still running got a page, and its result is the result from the absorbed state |
| BatchLoader.RunFailed | src/hooks/useDenormalizedFriends.ts:249-252 | a failed request aborts the load with the log so far plus that request |
| BatchLoader.LoadBatches | src/hooks/useDenormalizedFriends.ts:201-232 | the imperative loop computes exactly the outcome `Run` specifies |
| BatchLoader.RunBounded | src/hooks/useDenormalizedFriends.ts:204-210 | at most 20 requests; the log only grows; a completed loop stopped because there was no more or the cap was hit; the next request is for 100 edges after the current cursor |
| BatchLoader.FirstRequest | src/hooks/useDenormalizedFriends.ts:203-210 | a load always requests at least once, first from the starting cursor |
| BatchLoader.RunExtends | src/hooks/useDenormalizedFriends.ts:217 | the final accumulator starts with the initial one |
| BatchLoader.RunIds | src/hooks/useDenormalizedFriends.ts:212-217 | the final ids are the starting ids plus those of every page answered |
| BatchLoader.PageIdsFirst | src/hooks/useDenormalizedFriends.ts:212-217 | helper for RunIds: the pages' ids unfold at the first answered page |
| BatchLoader.PageItems | src/hooks/useDenormalizedFriends.ts:210 | definition: the edges of the k-th answer, none for a failed one |
| BatchLoader.NewEdges | src/hooks/useDenormalizedFriends.ts:212-217 | definition: page by page in request order, each page's survivors against the seen ids, which grow by every page's ids, so an edge is dropped when already seen or on an earlier page |
| BatchLoader.AbsorbAppends | src/hooks/useDenormalizedFriends.ts:212-217 | helper for RunAppends: absorbing one page moves that page's survivors from the pending pages onto the list |
| BatchLoader.RunAppends | src/hooks/useDenormalizedFriends.ts:207-226 | a completed loop's list is the starting list followed, page by page in request order, by each page's edges whose id is neither in the starting list nor on an earlier page; within a page the edges keep their order |
| BatchLoader.RunDistinct | src/hooks/useDenormalizedFriends.ts:214-217 | if every page has distinct ids, the result has distinct ids |
| BatchLoader.DuplicateWithinPageKept | src/hooks/useDenormalizedFriends.ts:214-217 | a single page repeating an id is kept whole, so the result may repeat ids |
| BatchLoader.EmptyPageStops | src/hooks/useDenormalizedFriends.ts:222-226 | an empty page ends the loop with `hasMore` false and the cursor unchanged |
| BatchLoader.EndlessStoreHitsCap | src/hooks/useDenormalizedFriends.ts:205-207 | a store that always has more and always brings a new id is asked exactly 20 times, and the loop ends with `hasMore` true |
| BatchLoader.PageIdsExtend | src/hooks/useDenormalizedFriends.ts:212-217 | helper for EndlessStoreHitsCap: the pages' ids grow by one page's ids per request |
| BatchLoader.EndlessStoreFromStart | src/hooks/useDenormalizedFriends.ts:201-207 | from the start, such a store makes the load stop at the cap with more to load |
| FriendsHook.LoadAll | src/hooks/useDenormalizedFriends.ts:176-256 | definition: the hook state and cache after `loadAllFriends(refresh)`, from the guard, the cache hit, the refresh reset, the loop's outcome and the catch |
| FriendsHook.LoadMore | src/hooks/useDenormalizedFriends.ts:316-366 | definition: the state and cache after `loadMoreFriends` for one store answer |
| FriendsHook.Refresh | src/hooks/useDenormalizedFriends.ts:373-403 | definition: the state and cache after `refreshData`, given the reloaded request lists or their failure |
| FriendsHook.Perform | src/hooks/useDenormalizedFriends.ts:410-562 | definition: the state, cache and notice after one friendship action, given whether the remote write succeeded |
| FriendsHook.Resolve | src/hooks/useDenormalizedFriends.ts:429-562 | definition: the shared shape of accept, reject, remove and cancel-one, which is user check, `find` in the action's collection, then one write |
| FriendsHook.FriendsView | src/hooks/useDenormalizedFriends.ts:136-147 | definition: the sorted fuzzy hits while searching, else all friends sorted by the chosen field and direction |
| FriendsHook.RequestOrder | src/hooks/useDenormalizedFriends.ts:149-169 | definition: the request views' newest-created-first order |
| FriendsHook.LoadAllNeedsUser | src/hooks/useDenormalizedFriends.ts:177 | without a signed-in user the full load changes nothing |
| FriendsHook.CacheHitFetchesNothing | src/hooks/useDenormalizedFriends.ts:182-188 | a fresh entry without refresh: no fetch and an untouched cache; the list is the entry's data, `friends` its first 50, and loading ends |
| FriendsHook.LoadAllBounded | src/hooks/useDenormalizedFriends.ts:197-255 | loading ends false; at most 20 requests are appended; without a cache hit the first resumes from the saved cursor, or from the start on refresh |
| FriendsHook.LoadAllCompletes | src/hooks/useDenormalizedFriends.ts:201-247 | completion sets list, first 50, cursor and `hasMore` from the loop; the cache gets exactly that list and cursor, other keys unchanged; the list's ids are those of the pages read, and the list itself is, page by page in request order, each page's edges not on an earlier page |
| FriendsHook.LoadAllFails | src/hooks/useDenormalizedFriends.ts:190-255 | a failed request leaves the cache untouched, sets the load error and ends loading; the list is empty on refresh, else as before |
| FriendsHook.LoadMoreGuarded | src/hooks/useDenormalizedFriends.ts:317 | no user, a load in flight, no more pages, or an empty list: nothing is requested or changed |
| FriendsHook.LoadMoreAppends | src/hooks/useDenormalizedFriends.ts:331-352 | a page with a new id appends exactly the new edges after the held ones, moves the cursor, copies `hasMore`, and rewrites the cache with the new list |
| FriendsHook.LoadMoreNothingNew | src/hooks/useDenormalizedFriends.ts:353-359 | an empty page, or one with only held ids, ends pagination and changes no list and no cache |
| FriendsHook.LoadMoreFails | src/hooks/useDenormalizedFriends.ts:360-365 | a failed request keeps list, cache and `hasMoreFriends` and sets the error |
| FriendsHook.RefreshResets | src/hooks/useDenormalizedFriends.ts:373-403 | after a refresh the request lists are the reloaded ones and loading ends; the friends key is cached iff the reload completed; the first request starts from the beginning |
| FriendsHook.RefreshFails | src/hooks/useDenormalizedFriends.ts:376-401 | when the request lists cannot be reloaded, the key stays deleted, pagination is reset, nothing is fetched and the error is set |
| FriendsHook.ActionLookup | src/hooks/useDenormalizedFriends.ts:436-555 | NotFound iff the id is missing from the action's own collection, and then nothing changes; otherwise the result is Done iff the write succeeded and exactly one call is appended for the first edge with the id: AcceptRequest for accept, RemoveFriend for remove, RejectRequest for reject and cancel, each from the signed-in user to that edge's peer; the cache changes only on a successful accept or remove |
| FriendsHook.ActionNeedsUser | src/hooks/useDenormalizedFriends.ts:410-562 | without a signed-in user every action changes nothing and makes no call; cancel-all answers NothingToCancel, the others NotSignedIn |
| FriendsHook.SendIssuesOneCall | src/hooks/useDenormalizedFriends.ts:410-424 | a signed-in send appends exactly SendRequest(user, target), keeps the cache, and is Done iff the write succeeded |
| FriendsHook.ActionCacheEffect | src/hooks/useDenormalizedFriends.ts:446-504 | a successful accept or remove deletes exactly the friends key; reject, cancel, send and failed writes keep the cache |
| FriendsHook.CancelAllFanOut | src/hooks/useDenormalizedFriends.ts:515-528 | no call when there is no user or nothing was sent; otherwise one reject per sent request, in order, each for its peer; the cache is kept |
| FriendsHook.ActionsKeepLists | src/hooks/useDenormalizedFriends.ts:410-562 | actions change only the remote-call log, never the lists or flags |
| FriendsHook.ResolveKeepsLists | src/hooks/useDenormalizedFriends.ts:429-562 | helper for ActionsKeepLists: an action on one edge changes only the call log |
| FriendsHook.FriendsViewWithoutQuery | src/hooks/useDenormalizedFriends.ts:98-147 | without a query the friends view is a permutation of all friends, of their count, ordered by the chosen field and direction |
| FriendsHook.BlankQueryIsNoQuery | src/hooks/useDenormalizedFriends.ts:140 | a query of whitespace only gives the view of the empty query |
| FriendsHook.RequestOrderNewestFirst | src/hooks/useDenormalizedFriends.ts:149-169 | the request views are a permutation of their input with creation dates never increasing |
| FriendsHook.Stats | src/hooks/useDenormalizedFriends.ts:566-570 | the counts are the sizes of the unfiltered collections |
| FriendsHook.StatsIgnoreViewChoices | src/hooks/useDenormalizedFriends.ts:566-570 | the counts do not depend on the search query or the sort choice |
| FriendsHook.PeerSurvivesPermutation | src/hooks/useDenormalizedFriends.ts:624-626 | whether a collection holds a peer does not depend on its order |
| FriendsHook.StatusFromViews | src/hooks/useDenormalizedFriends.ts:620-631 | the status computed from the no-query views equals the classifier on the raw collections |
| FriendsHook.Hook.constructor | src/hooks/useDenormalizedFriends.ts:58-73 | initial state: empty lists, loading, no error, empty query, friendship date descending, more to load, no cursor |
| FriendsHook.Hook.LoadAllFriends | src/hooks/useDenormalizedFriends.ts:176-256 | the new state and cache are `LoadAll` of the old ones |
| FriendsHook.Hook.LoadMoreFriends | src/hooks/useDenormalizedFriends.ts:316-366 | the new state and cache are `LoadMore` of the old ones |
| FriendsHook.Hook.RefreshData | src/hooks/useDenormalizedFriends.ts:373-403 | the new state and cache are `Refresh` of the old ones |
| FriendsHook.Hook.SendFriendRequest | src/hooks/useDenormalizedFriends.ts:410-424 | state, cache and result are `Perform` of `Send` |
| FriendsHook.Hook.AcceptFriendRequest | src/hooks/useDenormalizedFriends.ts:429-454 | state, cache and result are `Perform` of `Accept` |
| FriendsHook.Hook.RejectFriendRequest | src/hooks/useDenormalizedFriends.ts:459-480 | state, cache and result are `Perform` of `Reject` |
| FriendsHook.Hook.RemoveFriend | src/hooks/useDenormalizedFriends.ts:485-510 | state, cache and result are `Perform` of `Remove` |
| FriendsHook.Hook.CancelSentRequest | src/hooks/useDenormalizedFriends.ts:541-562 | state, cache and result are `Perform` of `CancelSent` |
| FriendsHook.Hook.CancelAllSentRequests | src/hooks/useDenormalizedFriends.ts:515-536 | state, cache and result are `Perform` of `CancelAll` |
| FriendsHook.Hook.RequestsView | src/hooks/useDenormalizedFriends.ts:149-158 | the view is the newest-first order of the hits or the held requests; without a query the held array itself is left sorted |
| FriendsHook.Hook.SentRequestsView | src/hooks/useDenormalizedFriends.ts:160-169 | the same for the sent requests |
| FriendsHook.InPlaceSortKeepsStats | src/hooks/useDenormalizedFriends.ts:149-169 | the in-place sorts leave the counts unchanged |
| Friendship.EffectiveDate | src/hooks/useDenormalizedFriends.ts:119-121 | the friendship date, or the creation date when it is absent or 0 |
| Friendship.Compare | src/hooks/useDenormalizedFriends.ts:98-131 | definition: the comparator of each sort branch, over the effective date, the lower-cased name or nickname, or the creation date |
| Friendship.Precedes | src/hooks/useDenormalizedFriends.ts:98-131 | definition: the comparator is negative, so the first edge is put first |
| Friendship.PrecedesMeaning | src/hooks/useDenormalizedFriends.ts:99-131 | what "a sorts before b" means for each field and direction |
| Friendship.DescendingReversesAscending | src/hooks/useDenormalizedFriends.ts:128-129 | for name, nickname and date, descending precedence is ascending precedence swapped |
| Friendship.PrecedesAsymmetric | src/hooks/useDenormalizedFriends.ts:98-131 | no two edges precede each other |
| Friendship.PrecedesTransitive | src/hooks/useDenormalizedFriends.ts:98-131 | precedence is transitive |
| Friendship.Sort | src/hooks/useDenormalizedFriends.ts:100-107 | definition: insertion of each element in input order behind the ones it does not precede, standing in for `Array.prototype.sort` |
| Friendship.InsertElements | src/hooks/useDenormalizedFriends.ts:100-107 | insertion adds exactly the element |
| Friendship.InsertOrdered | src/hooks/useDenormalizedFriends.ts:100-107 | inserting into an ordered list keeps it ordered |
| Friendship.InsertInFront | src/hooks/useDenormalizedFriends.ts:100-107 | helper for InsertOrdered: an element placed at the head keeps the list ordered |
| Friendship.InsertBehind | src/hooks/useDenormalizedFriends.ts:100-107 | helper for InsertOrdered: an element placed behind the head keeps the list ordered |
| Friendship.SortPermutes | src/hooks/useDenormalizedFriends.ts:100-107 | the sort returns a permutation of its input |
| Friendship.SortOrders | src/hooks/useDenormalizedFriends.ts:100-107 | the sort returns an ordered list |
| Friendship.InsertAtEnd | src/hooks/useDenormalizedFriends.ts:100-107 | an element nothing precedes goes last |
| Friendship.SortKeepsOrdered | src/hooks/useDenormalizedFriends.ts:100-107 | an already ordered input comes back unchanged |
| Friendship.TiedMeaning | src/hooks/useDenormalizedFriends.ts:98-131 | two edges tie iff they have the same key: creation date, effective date, lower-cased name or lower-cased nickname; under an unknown field every pair ties |
| Friendship.TiedSubstitutes | src/hooks/useDenormalizedFriends.ts:98-131 | a tied edge compares with any third edge exactly as the other one does |
| Friendship.TiesTransitive | src/hooks/useDenormalizedFriends.ts:98-131 | ties are transitive, so with PrecedesAsymmetric and PrecedesTransitive every comparator is a strict weak order |
| Friendship.TiedWithAppend | src/hooks/useDenormalizedFriends.ts:100-107 | helper for SortStable: the tie class of a concatenation is the concatenation of the tie classes |
| Friendship.TiedWithNone | src/hooks/useDenormalizedFriends.ts:100-107 | helper for InsertTied: a sequence with no element tied with z has an empty tie class |
| Friendship.InsertTied | src/hooks/useDenormalizedFriends.ts:100-107 | inserting into an ordered list appends the element at the end of its own tie class and leaves every other class as it was |
| Friendship.SortStable | src/hooks/useDenormalizedFriends.ts:100-107 | the sort is stable: for every edge z, the edges tied with z leave the sort in the order they had in the input |
| Friendship.DefaultIgnoresDirection | src/hooks/useDenormalizedFriends.ts:99-105 | the default sort is the same for both directions |
| Friendship.InsertSameOrder | src/hooks/useDenormalizedFriends.ts:99-105 | one default-order insertion is the same for both directions |
| Friendship.ReverseOrdered | src/hooks/useDenormalizedFriends.ts:128-129 | a list is ascending iff its reverse is descending |
| Friendship.Reversed | src/hooks/useDenormalizedFriends.ts:128-129 | the reverse holds the same elements back to front |
| Friendship.HasPeer | src/hooks/useDenormalizedFriends.ts:624-626 | true iff some edge is with the target peer |
| Friendship.FindById | src/hooks/useDenormalizedFriends.ts:436-548 | None iff no edge has the id; otherwise the first edge with it |
| Friendship.StatusOf | src/hooks/useDenormalizedFriends.ts:623-628 | friends iff a friend edge has the peer; received, sent and none exactly under the priority order |
| Friendship.NameSortExample | src/hooks/useDenormalizedFriends.ts:111-114 | name order ignores case: alice, Bob, Carol |
| Friendship.DefaultSortExample | src/hooks/useDenormalizedFriends.ts:99-104 | the default order falls back to the creation date |
| JsString.LowerChar | src/hooks/useDenormalizedFriends.ts:112-117 | A–Z and the Latin-1 capitals À–Þ except × move to their lower-case letter; every other character is kept |
| JsString.Lower | src/hooks/useDenormalizedFriends.ts:112-117 | lower-casing keeps the length |
| JsString.LowerIdempotent | src/hooks/useDenormalizedFriends.ts:112-117 | lower-casing twice is lower-casing once |
| JsString.Includes | src/components/ui/rich-text-editor.tsx:93-94 | definition: `s.includes(q)`, some position of s starts with q |
| JsString.IncludesScan | src/components/ui/rich-text-editor.tsx:93-94 | `includes` matches the left-to-right scan: at the front or further on |
| JsString.IncludesEmpty | src/components/ui/rich-text-editor.tsx:93-94 | every string includes the empty string |
| JsString.IncludesPiece | src/components/ui/rich-text-editor.tsx:93-94 | a concatenation includes its middle piece |
| JsString.IncludesChars | src/components/ui/rich-text-editor.tsx:93-94 | a string that includes q holds every character of q |
| JsString.TrimStart | src/hooks/useDenormalizedFriends.ts:140 | removes a whitespace prefix and leaves a non-whitespace start |
| JsString.TrimEnd | src/hooks/useDenormalizedFriends.ts:140 | removes a whitespace suffix and leaves a non-whitespace end |
| JsString.Trim | src/hooks/useDenormalizedFriends.ts:140 | definition: `trim()`, TrimEnd of TrimStart |
| JsString.TrimEmpty | src/hooks/useDenormalizedFriends.ts:140-163 | the trimmed query is empty iff every character is whitespace |
| JsString.Less | src/hooks/useDenormalizedFriends.ts:128-129 | definition: `<` on strings, lexicographic by character with a proper prefix first |
| JsString.LessIrreflexive | src/hooks/useDenormalizedFriends.ts:128-129 | no string is below itself |
| JsString.LessAsymmetric | src/hooks/useDenormalizedFriends.ts:128-129 | `<` is asymmetric |
| JsString.LessTransitive | src/hooks/useDenormalizedFriends.ts:128-129 | `<` is transitive |
| JsString.LessTotal | src/hooks/useDenormalizedFriends.ts:128-130 | distinct strings are ordered one way or the other |
| RichTextEditor.Matches | src/components/ui/rich-text-editor.tsx:93-94 | definition: the lower-cased label or nickname includes the lower-cased query |
| RichTextEditor.MatchingUsers | src/components/ui/rich-text-editor.tsx:91-95 | a user is kept iff its label or nickname contains the query, ignoring case |
| RichTextEditor.MatchingUsersInOrder | src/components/ui/rich-text-editor.tsx:91-95 | the filter keeps list order |
| RichTextEditor.SubsequencePrefix | src/components/ui/rich-text-editor.tsx:96 | helper for SuggestionsSpec: a prefix of an in-order selection is in order |
| RichTextEditor.Suggestions | src/components/ui/rich-text-editor.tsx:90-97 | definition: the first five matching mock users |
| RichTextEditor.SuggestionsSpec | src/components/ui/rich-text-editor.tsx:90-97 | at most 5, all matching, in list order, and every match shown when fewer than 5 |
| RichTextEditor.EmptyQuerySuggestsAll | src/components/ui/rich-text-editor.tsx:90-97 | the empty query suggests all five mock users |
| RichTextEditor.MatchingAll | src/components/ui/rich-text-editor.tsx:91-95 | when all users match, the filter keeps them all |
| RichTextEditor.UpperCaseQueryMatches | src/components/ui/rich-text-editor.tsx:93 | "SANTOS" matches Maria Santos |
| RichTextEditor.UnrelatedQueryFails | src/components/ui/rich-text-editor.tsx:93-94 | "SANTOS" does not match João Silva |
| RichTextEditor.OnUpdate | src/components/ui/rich-text-editor.tsx:130-138 | the count is the text length; `onChange` fires iff the length is at most the limit (160 by default) |
| RichTextEditor.IsOverLimit | src/components/ui/rich-text-editor.tsx:169 | definition: the count exceeds the limit, 160 when none is given |
| RichTextEditor.NotifyUnlessOverLimit | src/components/ui/rich-text-editor.tsx:135-169 | `onChange` fires exactly when the counter is not over the limit |
| RichTextEditor.Rem | src/components/ui/rich-text-editor.tsx:441-446 | JavaScript `%`: Euclidean on non-negative operands, NaN for a zero divisor |
| RichTextEditor.Up | src/components/ui/rich-text-editor.tsx:440-443 | steps back one cyclically within [0, n); NaN on an empty list |
| RichTextEditor.Down | src/components/ui/rich-text-editor.tsx:445-448 | steps forward one cyclically within [0, n); NaN on an empty list |
| RichTextEditor.UpDownInverse | src/components/ui/rich-text-editor.tsx:440-448 | up after down and down after up restore an in-range index |
| RichTextEditor.ItemAt | src/components/ui/rich-text-editor.tsx:455-456 | an item exists iff the index is an integer in range |
| RichTextEditor.MentionList.constructor | src/components/ui/rich-text-editor.tsx:408-412 | items and command are taken, the index is 0 |
| RichTextEditor.MentionList.UpdateProps | src/components/ui/rich-text-editor.tsx:414-419 | items and command are replaced, the index reset to 0 |
| RichTextEditor.MentionList.UpHandler | src/components/ui/rich-text-editor.tsx:440-443 | the index becomes `Up` of itself; nothing else changes |
| RichTextEditor.MentionList.DownHandler | src/components/ui/rich-text-editor.tsx:445-448 | the index becomes `Down` of itself; nothing else changes |
| RichTextEditor.MentionList.SelectItem | src/components/ui/rich-text-editor.tsx:454-459 | the command is called with the item's id and label iff the item exists |
| RichTextEditor.MentionList.EnterHandler | src/components/ui/rich-text-editor.tsx:450-452 | selects the item at the current index |
| RichTextEditor.MentionList.OnKeyDown | src/components/ui/rich-text-editor.tsx:421-438 | true exactly for ArrowUp, ArrowDown and Enter, each with its handler's effect; other keys change nothing |
| RichTextEditor.EmptyListClient | src/components/ui/rich-text-editor.tsx:408-459 | a client of the popup: on an empty list ArrowDown makes the index NaN and Enter calls nothing; after new props ArrowUp wraps to the last suggestion, Enter calls the new callback with it, Escape is not handled |
| AuthStore.Merge | src/stores/authStore.ts:21 | definition: zustand's shallow merge, where each field named in the partial state is overwritten and the others kept |
| AuthStore.SetUserEffect | src/stores/authStore.ts:27 | `setUser` writes the user and ends loading, keeping the other three fields |
| AuthStore.SingleFieldSetters | src/stores/authStore.ts:28-29 | `setLoading` and `setError` change only their own field |
| AuthStore.ClearAuthEffect | src/stores/authStore.ts:32-38 | `clearAuth` gives the initial state with loading false, and is idempotent |
| AuthStore.MergeWritesNamedFields | src/stores/authStore.ts:21 | a merge leaves the state unchanged iff every named field already has the written value |
| AuthStore.MergeIdempotent | src/stores/authStore.ts:21 | merging the same partial state twice is merging it once |
| AuthStore.Store.constructor | src/stores/authStore.ts:22-26 | initial state: no user, loading, no error, not loading a profile, no message |
| AuthStore.Store.Set | src/stores/authStore.ts:21 | the store's `set` merges a partial state shallowly |
| AuthStore.Store.SetUser | src/stores/authStore.ts:27 | user written, loading false, the rest unchanged |
| AuthStore.Store.SetLoading | src/stores/authStore.ts:28 | only `loading` changes |
| AuthStore.Store.SetError | src/stores/authStore.ts:29 | only `error` changes |
| AuthStore.Store.SetIsLoadingProfile | src/stores/authStore.ts:30 | writes the flag and the message (null when omitted), nothing else |
| AuthStore.Store.InitializeUser | src/stores/authStore.ts:31 | the same effect as `setUser` |
| AuthStore.Store.ClearAuth | src/stores/authStore.ts:32-38 | all five fields null or false |
| AuthStore.StoreClient | src/stores/authStore.ts:27-38 | a client of two stores: `initializeUser` and `setUser` leave equal states, and clearing twice gives the cleared state |
| Paths.Profile | src/router/paths.ts:26 | the path is "/profile/" followed by the nickname |
| Paths.Chat | src/router/paths.ts:27 | the path is "/chat/" followed by the receiver id |
| Paths.Fill | src/router/paths.ts:2-4 | definition: every `:name` segment of a route pattern replaced by the argument |
| Paths.AfterSegment | src/router/paths.ts:3-4 | helper for Fill (its termination): the rest of a pattern after a parameter name is no longer than the input |
| Paths.FillFinalParameter | src/router/paths.ts:3-4 | filling a pattern whose only parameter is its last segment puts the argument there |
| Paths.NameRunsToEnd | src/router/paths.ts:3-4 | helper for FillFinalParameter: a parameter name without '/' runs to the end |
| Paths.ProfileFillsPattern | src/router/paths.ts:3-26 | the profile builder fills its route pattern |
| Paths.ChatFillsPattern | src/router/paths.ts:4-27 | the chat builder fills its route pattern |
| Paths.ProfileInjective | src/router/paths.ts:26 | distinct nicknames give distinct paths |
| Paths.ChatInjective | src/router/paths.ts:27 | distinct receiver ids give distinct paths |
| Paths.ProfileNotChat | src/router/paths.ts:26-27 | no profile path is a chat path |
| Paths.ProfileCollisions | src/router/paths.ts:18-26 | nickname "me" builds PROFILE_ME and "me/edit" builds PROFILE_EDIT, which extends PROFILE_ME |
| Paths.StaticPathsAbsolute | src/router/paths.ts:14-23 | every static path starts with "/" |
| Wrappers.Take | src/hooks/useDenormalizedFriends.ts:238 | `slice(0, n)`: the first min(n, length) elements |

## Left out

- Fuse.js fuzzy search is a foreign library. The hits it returns are a parameter (`hits`) of the views, with no property assumed.
- Remote store calls and the realtime subscriptions are replaced by oracles and call logs. This covers `subscribeTo*`, their cleanup, and what the snapshots write into the lists. The 100 ms pause between batches is left out too.
- Concurrency is not modelled. Every operation runs to completion before the next starts. Races between subscription snapshots, loader results and React's deferred state updates (`setAllFriends(prev => …)`) are therefore not captured.
- Toast notices and console logging are left out. The `ActionResult` of an action says which notice it shows, but not its text. The exception an action rethrows after a failed write is the `CallFailed` result.
- `setSearchQuery`, `setSortField` and `setSortDirection` are plain state setters. They are not separate operations; the views read the fields.
- `useFriendshipStats` only re-exports two fields of the hook and is not modelled.
- FriendsHook.Hook.RequestsView: the model does not capture that the sorted array is shared with React's state. It records only that the held `requests` field is replaced by its sorted order.
- FriendsHook.Hook.SentRequestsView: the same holds for `sentRequests`.
- The `MentionList` popup's rendering, DOM element and `render` calls are left out. So is the Escape handling in the popup's `onKeyDown` wrapper (src/components/ui/rich-text-editor.tsx:113-118), which removes a DOM node. The editor toolbar and emoji picker are also out.
- `MentionList.command` is a callback. It is modelled by an identifier, and each call is recorded in `commands`.
- JsString.LowerChar: does not model Unicode case mapping beyond ASCII and Latin-1, because the names in this code are Latin-script.
- JsString.Less: compares characters, which is UTF-16 code units only for text without surrogate pairs.
- RichTextEditor.OnUpdate: counts characters rather than UTF-16 code units, and the editor's HTML serialisation is out.
- Friendship.Sort stands in for `Array.prototype.sort`. ECMAScript requires that sort to be stable (since ES2019) when the comparator is consistent. The comparators here are strict weak orders (PrecedesAsymmetric, PrecedesTransitive and TiesTransitive), and Sort is proved stable (SortStable), ordered and a permutation. That it is the one sequence with those properties is not proved.
- Friendship dates are integers. An invalid `Date` (NaN time value) is out.
