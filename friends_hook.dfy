/**
 * The friends hook: its state, the full and incremental loads, the refresh,
 * the friendship actions, the derived views, the counts and the relation
 * status. Each operation is specified by a function from the hook's state and
 * the cache's entries before the call to those after it; the `Hook` class
 * carries the same state in fields and its methods are proved against those
 * functions. Remote answers are parameters: `store` for the pages of a full
 * load, `response` for one page, `ok` for whether a remote action succeeded.
 */
module FriendsHook {
  import opened Wrappers
  import opened JsString
  import opened Friendship
  import opened BatchLoader
  import opened FriendsCache

  /** How many edges of the full list the legacy `friends` state keeps. */
  const VisibleFriends: nat := 50

  const LoadAllError: string := "Erro ao carregar amigos"
  const LoadMoreError: string := "Erro ao carregar mais amigos"
  const RefreshError: string := "Erro ao recarregar dados"

  /** Remote writes, each tagged with the signed-in user's id and the peer's id. */
  datatype RemoteCall =
    | SendRequest(userId: string, targetId: string)
    | AcceptRequest(userId: string, friendId: string)
    | RejectRequest(userId: string, friendId: string)
    | RemoveFriend(userId: string, friendId: string)

  /** How an action ends; each outcome corresponds to one notice shown to the user. */
  datatype ActionResult = Done | NotSignedIn | NotFound | NothingToCancel | CallFailed

  datatype Action =
    | Send(targetId: string)
    | Accept(friendshipId: string)
    | Reject(friendshipId: string)
    | Remove(friendshipId: string)
    | CancelSent(friendshipId: string)
    | CancelAll

  /**
   * The hook's state. `fetchLog` is every page request sent to the store and
   * `calls` every remote write, in order.
   */
  datatype HookState = HookState(
    user: Option<string>,
    friends: seq<Friendship>,
    allFriends: seq<Friendship>,
    requests: seq<Friendship>,
    sentRequests: seq<Friendship>,
    loading: bool,
    loadingMore: bool,
    error: Option<string>,
    searchQuery: string,
    sortField: SortField,
    sortDirection: SortDirection,
    hasMoreFriends: bool,
    lastFriendDoc: Option<Cursor>,
    fetchLog: seq<PageRequest>,
    calls: seq<RemoteCall>)

  /** The hook's state together with the shared cache's entries. */
  datatype World = World(hook: HookState, cache: map<string, CacheEntry>)

  /** `user?.uid` is truthy: there is a user and the id is not the empty string. */
  predicate SignedIn(user: Option<string>) {
    user.Some? && user.value != ""
  }

  /** The state a hook starts in. */
  function InitialHook(user: Option<string>): HookState {
    HookState(user, [], [], [], [], true, false, None, "", FriendshipDate, Desc, true, None, [], [])
  }

  function FriendsKey(userId: string): string {
    CacheKey(userId, FriendsKind)
  }

  // ---------------------------------------------------------------- loadAllFriends

  /** `loadAllFriends(refresh)`: the cache when it is fresh, otherwise a batch load. */
  function LoadAll(w: World, refresh: bool, now: int, store: nat -> Response, savedAt: int): World {
    var s := w.hook;
    if !SignedIn(s.user) then w
    else
      var uid := s.user.value;
      var key := FriendsKey(uid);
      var hit := Lookup(w.cache, key, now);
      if !refresh && hit.Some? then
        var data := hit.value.data;
        World(s.(allFriends := data, friends := Take(data, VisibleFriends), loading := false), w.cache)
      else
        var s1 := if refresh then s.(allFriends := [], friends := [], lastFriendDoc := None, hasMoreFriends := true) else s;
        match Run(store, uid, Start(s1.lastFriendDoc))
        case Completed(f) =>
          World(s1.(allFriends := f.acc, friends := Take(f.acc, VisibleFriends), lastFriendDoc := f.lastDoc,
                    hasMoreFriends := f.hasMore, loading := false, error := None,
                    fetchLog := s.fetchLog + f.requests),
                w.cache[key := CacheEntry(f.acc, savedAt, f.lastDoc)])
        case Aborted(rs) =>
          World(s1.(loading := false, error := Some(LoadAllError), fetchLog := s.fetchLog + rs), w.cache)
  }

  /** Without a signed-in user nothing happens. */
  lemma LoadAllNeedsUser(w: World, refresh: bool, now: int, store: nat -> Response, savedAt: int)
    requires !SignedIn(w.hook.user)
    ensures LoadAll(w, refresh, now, store, savedAt) == w
  {
  }

  /**
   * A fresh cache entry is served when no refresh is asked for: no page is
   * requested, the cache is untouched, and the legacy list is its first 50 edges.
   */
  lemma CacheHitFetchesNothing(w: World, now: int, store: nat -> Response, savedAt: int)
    requires SignedIn(w.hook.user)
    requires Lookup(w.cache, FriendsKey(w.hook.user.value), now).Some?
    ensures var r := LoadAll(w, false, now, store, savedAt);
            var data := w.cache[FriendsKey(w.hook.user.value)].data;
            r.cache == w.cache && r.hook.fetchLog == w.hook.fetchLog &&
            r.hook.allFriends == data && r.hook.friends == Take(data, VisibleFriends) && !r.hook.loading
  {
  }

  /**
   * Every call ends with `loading` false and does at most twenty page requests,
   * each for 100 edges of the signed-in user; the first one, when any is sent,
   * resumes from the saved cursor, or from the start on a refresh.
   */
  lemma LoadAllBounded(w: World, refresh: bool, now: int, store: nat -> Response, savedAt: int)
    requires SignedIn(w.hook.user)
    ensures var r := LoadAll(w, refresh, now, store, savedAt);
            !r.hook.loading &&
            w.hook.fetchLog <= r.hook.fetchLog && |r.hook.fetchLog| <= |w.hook.fetchLog| + MaxBatches
    ensures var r := LoadAll(w, refresh, now, store, savedAt);
            var uid := w.hook.user.value;
            (refresh || Lookup(w.cache, FriendsKey(uid), now).None?) ==>
              |r.hook.fetchLog| > |w.hook.fetchLog| &&
              r.hook.fetchLog[|w.hook.fetchLog|] ==
                PageRequest(uid, PageSize, if refresh then None else w.hook.lastFriendDoc)
  {
    var uid := w.hook.user.value;
    var cursor := if refresh then None else w.hook.lastFriendDoc;
    RunBounded(store, uid, Start(cursor));
    FirstRequest(store, uid, cursor);
  }

  /**
   * A completed batch load replaces the list with what it accumulated, keeps
   * the final cursor and `hasMore`, stores exactly that list and cursor in the
   * cache, and holds exactly the ids of the pages it was answered with.
   */
  lemma LoadAllCompletes(w: World, refresh: bool, now: int, store: nat -> Response, savedAt: int)
    requires SignedIn(w.hook.user)
    requires refresh || Lookup(w.cache, FriendsKey(w.hook.user.value), now).None?
    requires Run(store, w.hook.user.value, Start(if refresh then None else w.hook.lastFriendDoc)).Completed?
    ensures var r := LoadAll(w, refresh, now, store, savedAt);
            var f := Run(store, w.hook.user.value, Start(if refresh then None else w.hook.lastFriendDoc)).final;
            var key := FriendsKey(w.hook.user.value);
            r.hook.allFriends == f.acc && r.hook.friends == Take(f.acc, VisibleFriends) &&
            r.hook.lastFriendDoc == f.lastDoc && r.hook.hasMoreFriends == f.hasMore &&
            r.hook.error == None &&
            key in r.cache && r.cache[key] == CacheEntry(r.hook.allFriends, savedAt, r.hook.lastFriendDoc) &&
            r.cache - {key} == w.cache - {key} &&
            Ids(r.hook.allFriends) == PageIds(store, 0, f.batchCount) &&
            r.hook.allFriends == NewEdges(store, {}, 0, f.batchCount)
  {
    var uid := w.hook.user.value;
    var st := Start(if refresh then None else w.hook.lastFriendDoc);
    var f := Run(store, uid, st).final;
    var s := w.hook;
    var s1 := if refresh then s.(allFriends := [], friends := [], lastFriendDoc := None, hasMoreFriends := true) else s;
    assert LoadAll(w, refresh, now, store, savedAt) ==
           World(s1.(allFriends := f.acc, friends := Take(f.acc, VisibleFriends), lastFriendDoc := f.lastDoc,
                     hasMoreFriends := f.hasMore, loading := false, error := None,
                     fetchLog := s.fetchLog + f.requests),
                 w.cache[FriendsKey(uid) := CacheEntry(f.acc, savedAt, f.lastDoc)]);
    assert st.acc == [] && Ids(st.acc) == {} && st.batchCount == 0;
    assert Ids(f.acc) == PageIds(store, 0, f.batchCount) by {
      RunIds(store, uid, st, f);
    }
    assert f.acc == NewEdges(store, {}, 0, f.batchCount) by {
      RunAppends(store, uid, st, f);
      assert st.acc + NewEdges(store, {}, 0, f.batchCount) == NewEdges(store, {}, 0, f.batchCount);
    }
  }

  /** A failed page request leaves the cache as it was and reports the load error. */
  lemma LoadAllFails(w: World, refresh: bool, now: int, store: nat -> Response, savedAt: int)
    requires SignedIn(w.hook.user)
    requires refresh || Lookup(w.cache, FriendsKey(w.hook.user.value), now).None?
    requires Run(store, w.hook.user.value, Start(if refresh then None else w.hook.lastFriendDoc)).Aborted?
    ensures var r := LoadAll(w, refresh, now, store, savedAt);
            r.cache == w.cache && r.hook.error == Some(LoadAllError) && !r.hook.loading &&
            r.hook.allFriends == (if refresh then [] else w.hook.allFriends)
  {
  }

  // ---------------------------------------------------------------- loadMoreFriends

  /** The guard of `loadMoreFriends`: signed in, not already loading more, more to load, and a list to extend. */
  predicate CanLoadMore(s: HookState) {
    SignedIn(s.user) && !s.loadingMore && s.hasMoreFriends && |s.allFriends| > 0
  }

  /** `loadMoreFriends()`: one page after the saved cursor, deduplicated against the held list. */
  function LoadMore(w: World, now: int, response: Response): World {
    var s := w.hook;
    if !CanLoadMore(s) then w
    else
      var uid := s.user.value;
      var s1 := s.(fetchLog := s.fetchLog + [PageRequest(uid, PageSize, s.lastFriendDoc)], loadingMore := false);
      match response
      case FetchFailed => World(s1.(error := Some(LoadMoreError)), w.cache)
      case Fetched(p) =>
        if |p.items| == 0 then World(s1.(hasMoreFriends := false), w.cache)
        else
          var added := Survivors(p.items, Ids(s.allFriends));
          if |added| == 0 then World(s1.(hasMoreFriends := false), w.cache)
          else
            var updated := s.allFriends + added;
            World(s1.(allFriends := updated, friends := s.friends + added,
                      lastFriendDoc := p.lastDoc, hasMoreFriends := p.hasMore),
                  w.cache[FriendsKey(uid) := CacheEntry(updated, now, p.lastDoc)])
  }

  /** When the guard fails, nothing is requested and nothing changes. */
  lemma LoadMoreGuarded(w: World, now: int, response: Response)
    requires !CanLoadMore(w.hook)
    ensures LoadMore(w, now, response) == w
  {
  }

  /**
   * A page with an edge not held yet appends exactly the new edges after the
   * held ones, moves the cursor on, and refreshes the cache with the new list;
   * the held ids grow by exactly the page's ids.
   */
  lemma LoadMoreAppends(w: World, now: int, p: Page)
    requires CanLoadMore(w.hook)
    requires exists f :: f in p.items && f.id !in Ids(w.hook.allFriends)
    ensures var r := LoadMore(w, now, Fetched(p));
            var added := Survivors(p.items, Ids(w.hook.allFriends));
            |added| > 0 &&
            r.hook.allFriends == w.hook.allFriends + added &&
            (forall f :: f in added <==> f in p.items && f.id !in Ids(w.hook.allFriends)) &&
            Ids(r.hook.allFriends) == Ids(w.hook.allFriends) + Ids(p.items) &&
            r.hook.lastFriendDoc == p.lastDoc && r.hook.hasMoreFriends == p.hasMore &&
            r.cache == w.cache[FriendsKey(w.hook.user.value) := CacheEntry(r.hook.allFriends, now, p.lastDoc)] &&
            r.hook.fetchLog == w.hook.fetchLog + [PageRequest(w.hook.user.value, PageSize, w.hook.lastFriendDoc)]
  {
    var f :| f in p.items && f.id !in Ids(w.hook.allFriends);
    assert f in Survivors(p.items, Ids(w.hook.allFriends));
    AppendSurvivorsIds(w.hook.allFriends, p.items);
  }

  /** An empty page, or one whose every id is held already, ends pagination and changes no list. */
  lemma LoadMoreNothingNew(w: World, now: int, p: Page)
    requires CanLoadMore(w.hook)
    requires forall f :: f in p.items ==> f.id in Ids(w.hook.allFriends)
    ensures var r := LoadMore(w, now, Fetched(p));
            !r.hook.hasMoreFriends && r.hook.allFriends == w.hook.allFriends &&
            r.hook.friends == w.hook.friends && r.cache == w.cache
  {
    SurvivorsEmpty(p.items, Ids(w.hook.allFriends));
  }

  /** A failed page request keeps the list and the cache and reports the error. */
  lemma LoadMoreFails(w: World, now: int)
    requires CanLoadMore(w.hook)
    ensures var r := LoadMore(w, now, FetchFailed);
            r.cache == w.cache && r.hook.allFriends == w.hook.allFriends &&
            r.hook.hasMoreFriends && r.hook.error == Some(LoadMoreError)
  {
  }

  // ---------------------------------------------------------------- refreshData

  /**
   * `refreshData()`: resets pagination, drops the cached list, reloads both
   * request lists (`lists`, or `None` when that fails) and then does a full
   * load from the start.
   */
  function Refresh(w: World, lists: Option<(seq<Friendship>, seq<Friendship>)>, now: int,
                   store: nat -> Response, savedAt: int): World
  {
    var s := w.hook;
    if !SignedIn(s.user) then w
    else
      var s1 := s.(loading := true, error := None, lastFriendDoc := None, hasMoreFriends := true);
      var c1 := w.cache - {FriendsKey(s.user.value)};
      match lists
      case None => World(s1.(error := Some(RefreshError), loading := false), c1)
      case Some(l) =>
        var r := LoadAll(World(s1.(requests := l.0, sentRequests := l.1), c1), true, now, store, savedAt);
        World(r.hook.(loading := false), r.cache)
  }

  /**
   * After a refresh the cache holds the friends key only when the reload
   * completed, the request lists are the reloaded ones, and the first page
   * request starts from the beginning.
   */
  lemma RefreshResets(w: World, l: (seq<Friendship>, seq<Friendship>), now: int,
                      store: nat -> Response, savedAt: int)
    requires SignedIn(w.hook.user)
    ensures var r := Refresh(w, Some(l), now, store, savedAt);
            var key := FriendsKey(w.hook.user.value);
            r.hook.requests == l.0 && r.hook.sentRequests == l.1 && !r.hook.loading &&
            (key in r.cache <==> Run(store, w.hook.user.value, Start(None)).Completed?) &&
            r.cache - {key} == w.cache - {key} &&
            |r.hook.fetchLog| > |w.hook.fetchLog| &&
            r.hook.fetchLog[|w.hook.fetchLog|] == PageRequest(w.hook.user.value, PageSize, None)
  {
    var s := w.hook;
    var inner := World(s.(loading := true, error := None, lastFriendDoc := None, hasMoreFriends := true,
                          requests := l.0, sentRequests := l.1),
                       w.cache - {FriendsKey(s.user.value)});
    LoadAllBounded(inner, true, now, store, savedAt);
  }

  /** When the request lists cannot be reloaded, the cached list is gone and the error is reported. */
  lemma RefreshFails(w: World, now: int, store: nat -> Response, savedAt: int)
    requires SignedIn(w.hook.user)
    ensures var r := Refresh(w, None, now, store, savedAt);
            r.cache == w.cache - {FriendsKey(w.hook.user.value)} && r.hook.error == Some(RefreshError) &&
            r.hook.fetchLog == w.hook.fetchLog && r.hook.lastFriendDoc == None && r.hook.hasMoreFriends
  {
  }

  // ---------------------------------------------------------------- actions

  /** The fan-out of `cancelAllSentRequests`: one reject per sent request, for its peer. */
  function CancelAllCalls(userId: string, sent: seq<Friendship>): (r: seq<RemoteCall>) {
    seq(|sent|, i requires 0 <= i < |sent| => RejectRequest(userId, sent[i].friendId))
  }

  /**
   * One friendship action. `ok` is whether the remote write succeeded. Accept
   * and reject look the id up among the received requests, remove among all
   * friends and cancel among the sent requests; only a successful accept or
   * remove drops the cached list.
   */
  function Perform(w: World, a: Action, ok: bool): (World, ActionResult) {
    var s := w.hook;
    match a
    case CancelAll =>
      if !SignedIn(s.user) || |s.sentRequests| == 0 then (w, NothingToCancel)
      else (World(s.(calls := s.calls + CancelAllCalls(s.user.value, s.sentRequests)), w.cache), Outcome(ok))
    case Send(target) =>
      if !SignedIn(s.user) then (w, NotSignedIn)
      else (World(s.(calls := s.calls + [SendRequest(s.user.value, target)]), w.cache), Outcome(ok))
    case Accept(id) => Resolve(w, a, s.requests, id, ok)
    case Reject(id) => Resolve(w, a, s.requests, id, ok)
    case Remove(id) => Resolve(w, a, s.allFriends, id, ok)
    case CancelSent(id) => Resolve(w, a, s.sentRequests, id, ok)
  }

  /** A remote write that resolves: `Done`, or `CallFailed` when the write throws. */
  function Outcome(ok: bool): ActionResult {
    if ok then Done else CallFailed
  }

  /** An action on one edge: look `id` up in `held`, then write for the edge's peer. */
  function Resolve(w: World, a: Action, held: seq<Friendship>, id: string, ok: bool): (World, ActionResult) {
    var s := w.hook;
    if !SignedIn(s.user) then (w, NotSignedIn)
    else
      match FindById(held, id)
      case None => (w, NotFound)
      case Some(edge) =>
        var uid := s.user.value;
        var call := match a
          case Accept(_) => AcceptRequest(uid, edge.friendId)
          case Remove(_) => RemoveFriend(uid, edge.friendId)
          case _ => RejectRequest(uid, edge.friendId);
        var dropsCache := ok && (a.Accept? || a.Remove?);
        (World(s.(calls := s.calls + [call]), if dropsCache then w.cache - {FriendsKey(uid)} else w.cache), Outcome(ok))
  }

  /** The collection an action with a friendship id looks that id up in. */
  function HeldFor(s: HookState, a: Action): seq<Friendship>
    requires a.Accept? || a.Reject? || a.Remove? || a.CancelSent?
  {
    if a.Accept? || a.Reject? then s.requests else if a.Remove? then s.allFriends else s.sentRequests
  }

  /**
   * An action on an id missing from its own collection makes no remote call
   * and changes nothing. A found id makes exactly one call, for the first
   * edge with that id: `AcceptRequest` for an accept, `RemoveFriend` for a
   * remove, and `RejectRequest` for a reject or a cancel, each for the
   * signed-in user and the edge's peer. The cache changes only on a
   * successful accept or remove.
   */
  lemma ActionLookup(w: World, a: Action, ok: bool)
    requires a.Accept? || a.Reject? || a.Remove? || a.CancelSent?
    requires SignedIn(w.hook.user)
    ensures var (r, result) := Perform(w, a, ok);
            var held := HeldFor(w.hook, a);
            var uid := w.hook.user.value;
            (result == NotFound <==> forall i :: 0 <= i < |held| ==> held[i].id != a.friendshipId) &&
            (result == NotFound ==> r == w) &&
            (result != NotFound ==>
               (result == Done <==> ok) && (result == CallFailed <==> !ok) &&
               exists i :: 0 <= i < |held| && held[i].id == a.friendshipId &&
                 (forall j :: 0 <= j < i ==> held[j].id != a.friendshipId) &&
                 r.hook.calls == w.hook.calls +
                   [if a.Accept? then AcceptRequest(uid, held[i].friendId)
                    else if a.Remove? then RemoveFriend(uid, held[i].friendId)
                    else RejectRequest(uid, held[i].friendId)]) &&
            (r.cache != w.cache ==> ok && (a.Accept? || a.Remove?) && result == Done)
  {
    var held := HeldFor(w.hook, a);
    var found := FindById(held, a.friendshipId);
    if found.Some? {
      var i :| 0 <= i < |held| && held[i] == found.value && forall j :: 0 <= j < i ==> held[j].id != a.friendshipId;
      assert held[i].id == a.friendshipId;
    }
    match a
    case Accept(_) =>
    case Reject(_) =>
    case Remove(_) =>
    case CancelSent(_) =>
  }

  /**
   * Without a signed-in user no action calls the store or changes anything;
   * cancelling all answers with the "nothing to cancel" notice, every other
   * action with the "must be logged in" one.
   */
  lemma ActionNeedsUser(w: World, a: Action, ok: bool)
    requires !SignedIn(w.hook.user)
    ensures Perform(w, a, ok) == (w, if a.CancelAll? then NothingToCancel else NotSignedIn)
  {
  }

  /** A signed-in send makes exactly one `SendRequest` call, from the user to the target, and keeps the cache. */
  lemma SendIssuesOneCall(w: World, target: string, ok: bool)
    requires SignedIn(w.hook.user)
    ensures var (r, result) := Perform(w, Send(target), ok);
            r.hook.calls == w.hook.calls + [SendRequest(w.hook.user.value, target)] &&
            r.cache == w.cache && (result == Done <==> ok) && (result == CallFailed <==> !ok)
  {
  }

  /** A successful accept or remove drops exactly the friends key; a reject or cancel never touches the cache. */
  lemma ActionCacheEffect(w: World, a: Action, ok: bool)
    requires SignedIn(w.hook.user)
    ensures (a.Accept? || a.Remove?) && ok && Perform(w, a, ok).1 == Done ==>
              Perform(w, a, ok).0.cache == w.cache - {FriendsKey(w.hook.user.value)}
    ensures a.Reject? || a.CancelSent? || a.Send? || a.CancelAll? || !ok ==> Perform(w, a, ok).0.cache == w.cache
  {
  }

  /**
   * `cancelAllSentRequests` makes no call when nothing was sent, and otherwise
   * one reject per sent request, in order, each for that request's peer.
   */
  lemma CancelAllFanOut(w: World, ok: bool)
    ensures var (r, result) := Perform(w, CancelAll, ok);
            (result == NothingToCancel <==> !SignedIn(w.hook.user) || |w.hook.sentRequests| == 0) &&
            (result == NothingToCancel ==> r == w) &&
            (result != NothingToCancel ==>
               |r.hook.calls| == |w.hook.calls| + |w.hook.sentRequests| &&
               r.hook.calls[..|w.hook.calls|] == w.hook.calls &&
               forall i :: 0 <= i < |w.hook.sentRequests| ==>
                 r.hook.calls[|w.hook.calls| + i] == RejectRequest(w.hook.user.value, w.hook.sentRequests[i].friendId)) &&
            r.cache == w.cache
  {
    var (r, result) := Perform(w, CancelAll, ok);
    if result != NothingToCancel {
      assert r.hook.calls == w.hook.calls + CancelAllCalls(w.hook.user.value, w.hook.sentRequests);
    }
  }

  /** Every action leaves the lists, the loading flags and the page requests as they were. */
  lemma ActionsKeepLists(w: World, a: Action, ok: bool)
    ensures var r := Perform(w, a, ok).0;
            r.hook == w.hook.(calls := r.hook.calls)
  {
    match a
    case Accept(id) => ResolveKeepsLists(w, a, w.hook.requests, id, ok);
    case Reject(id) => ResolveKeepsLists(w, a, w.hook.requests, id, ok);
    case Remove(id) => ResolveKeepsLists(w, a, w.hook.allFriends, id, ok);
    case CancelSent(id) => ResolveKeepsLists(w, a, w.hook.sentRequests, id, ok);
    case _ =>
  }

  lemma ResolveKeepsLists(w: World, a: Action, held: seq<Friendship>, id: string, ok: bool)
    ensures var r := Resolve(w, a, held, id, ok).0;
            r.hook == w.hook.(calls := r.hook.calls)
  {
  }

  // ---------------------------------------------------------------- views, counts and status

  /** `searchQuery.trim()` is truthy. */
  predicate Searching(s: HookState) {
    Trim(s.searchQuery) != []
  }

  /**
   * `filteredAndSortedFriends`: the fuzzy hits when searching, else every
   * friend, sorted by the chosen field and direction. The hits are an input,
   * since the fuzzy matcher is not modelled.
   */
  function FriendsView(s: HookState, hits: seq<Friendship>): seq<Friendship> {
    Sort(ByField(s.sortField, s.sortDirection), if Searching(s) then hits else s.allFriends)
  }

  /** The request views' order: newest first by creation date. */
  function RequestOrder(filtered: seq<Friendship>): seq<Friendship> {
    Sort(NewestCreatedFirst, filtered)
  }

  /** Without a query the friends view is every friend, in the chosen order. */
  lemma FriendsViewWithoutQuery(s: HookState, hits: seq<Friendship>)
    requires !Searching(s)
    ensures multiset(FriendsView(s, hits)) == multiset(s.allFriends)
    ensures |FriendsView(s, hits)| == Stats(s).totalFriends
    ensures Ordered(ByField(s.sortField, s.sortDirection), FriendsView(s, hits))
  {
    SortPermutes(ByField(s.sortField, s.sortDirection), s.allFriends);
    SortOrders(ByField(s.sortField, s.sortDirection), s.allFriends);
  }

  /** A query of blanks only is no query: the view is the one without a query. */
  lemma BlankQueryIsNoQuery(s: HookState, hits: seq<Friendship>)
    requires forall i :: 0 <= i < |s.searchQuery| ==> IsWhitespace(s.searchQuery[i])
    ensures FriendsView(s, hits) == FriendsView(s.(searchQuery := ""), hits)
  {
    TrimEmpty(s.searchQuery);
    TrimEmpty("");
  }

  /** The request views are newest first: creation dates never increase along them. */
  lemma RequestOrderNewestFirst(filtered: seq<Friendship>)
    ensures multiset(RequestOrder(filtered)) == multiset(filtered) && |RequestOrder(filtered)| == |filtered|
    ensures forall i, j :: 0 <= i < j < |RequestOrder(filtered)| ==>
              RequestOrder(filtered)[i].createdAt >= RequestOrder(filtered)[j].createdAt
  {
    SortPermutes(NewestCreatedFirst, filtered);
    SortOrders(NewestCreatedFirst, filtered);
    var r := RequestOrder(filtered);
    forall i, j | 0 <= i < j < |r| ensures r[i].createdAt >= r[j].createdAt {
      assert !Precedes(NewestCreatedFirst, r[j], r[i]);
    }
  }

  /** `stats`: the sizes of the unfiltered collections. */
  datatype FriendshipStats = FriendshipStats(totalFriends: nat, pendingRequests: nat, sentRequests: nat)

  function Stats(s: HookState): (r: FriendshipStats)
    ensures r.totalFriends == |s.allFriends| && r.pendingRequests == |s.requests| && r.sentRequests == |s.sentRequests|
  {
    FriendshipStats(|s.allFriends|, |s.requests|, |s.sentRequests|)
  }

  /** The counts are over the unfiltered collections: the query and the sort choice do not change them. */
  lemma StatsIgnoreViewChoices(s: HookState, q: string, f: SortField, d: SortDirection)
    ensures Stats(s.(searchQuery := q, sortField := f, sortDirection := d)) == Stats(s)
  {
  }

  lemma {:induction false} PeerSurvivesPermutation(a: seq<Friendship>, b: seq<Friendship>, target: string)
    requires multiset(a) == multiset(b)
    ensures HasPeer(a, target) == HasPeer(b, target)
  {
    if HasPeer(a, target) {
      var i :| 0 <= i < |a| && a[i].friendId == target;
      assert a[i] in multiset(b);
      var j :| 0 <= j < |b| && b[j] == a[i];
    }
    if HasPeer(b, target) {
      var i :| 0 <= i < |b| && b[i].friendId == target;
      assert b[i] in multiset(a);
      var j :| 0 <= j < |a| && a[j] == b[i];
    }
  }

  /**
   * The status hook reads the views of a hook with no query, so the views'
   * order is irrelevant: its answer is the classifier on the raw collections.
   */
  lemma StatusFromViews(s: HookState, hits: seq<Friendship>, target: string)
    requires !Searching(s)
    ensures StatusOf(FriendsView(s, hits), RequestOrder(s.requests), RequestOrder(s.sentRequests), target)
         == StatusOf(s.allFriends, s.requests, s.sentRequests, target)
  {
    FriendsViewWithoutQuery(s, hits);
    RequestOrderNewestFirst(s.requests);
    RequestOrderNewestFirst(s.sentRequests);
    PeerSurvivesPermutation(FriendsView(s, hits), s.allFriends, target);
    PeerSurvivesPermutation(RequestOrder(s.requests), s.requests, target);
    PeerSurvivesPermutation(RequestOrder(s.sentRequests), s.sentRequests, target);
  }

  // ---------------------------------------------------------------- the hook object

  /**
   * The hook object. Its React state cells are the fields of `state`; each
   * setter call is an update of that record. `cache` is the shared cache.
   */
  class Hook {
    var state: HookState
    const cache: Cache

    function Current(): World
      reads this, cache
    {
      World(state, cache.entries)
    }

    constructor (user: Option<string>, cache: Cache)
      ensures state == InitialHook(user) && this.cache == cache
    {
      state := InitialHook(user);
      this.cache := cache;
    }

    /**
     * `loadAllFriends(refresh)`. `now` is the clock when the cache is
     * consulted, `savedAt` when the result is stored; `store(k)` answers the
     * k-th page request.
     */
    method LoadAllFriends(refresh: bool, now: int, store: nat -> Response, savedAt: int)
      modifies this, cache
      ensures Current() == LoadAll(old(Current()), refresh, now, store, savedAt)
    {
      if !SignedIn(state.user) {
        return;
      }
      var uid := state.user.value;
      var key := FriendsKey(uid);
      var hit := Lookup(cache.entries, key, now);
      if !refresh && hit.Some? {
        var data := hit.value.data;
        state := state.(allFriends := data, friends := Take(data, VisibleFriends), loading := false);
        return;
      }
      if refresh {
        state := state.(allFriends := [], friends := [], lastFriendDoc := None, hasMoreFriends := true);
      }
      var outcome := LoadBatches(store, uid, state.lastFriendDoc);
      match outcome
      case Aborted(sent) =>
        state := state.(loading := false, error := Some(LoadAllError), fetchLog := state.fetchLog + sent);
      case Completed(f) =>
        state := state.(allFriends := f.acc, friends := Take(f.acc, VisibleFriends), lastFriendDoc := f.lastDoc,
                        hasMoreFriends := f.hasMore, loading := false, error := None,
                        fetchLog := state.fetchLog + f.requests);
        cache.Put(key, CacheEntry(f.acc, savedAt, f.lastDoc));
    }

    /** `loadMoreFriends()`, answered with `response`; `now` stamps the cache entry. */
    method LoadMoreFriends(now: int, response: Response)
      modifies this, cache
      ensures Current() == LoadMore(old(Current()), now, response)
    {
      if !SignedIn(state.user) || state.loadingMore || !state.hasMoreFriends || |state.allFriends| == 0 {
        return;
      }
      var uid := state.user.value;
      state := state.(loadingMore := true, fetchLog := state.fetchLog + [PageRequest(uid, PageSize, state.lastFriendDoc)]);
      if response.FetchFailed? {
        state := state.(error := Some(LoadMoreError));
      } else if |response.page.items| > 0 {
        var p := response.page;
        var added := Survivors(p.items, Ids(state.allFriends));
        if |added| > 0 {
          var updated := state.allFriends + added;
          cache.Put(FriendsKey(uid), CacheEntry(updated, now, p.lastDoc));
          state := state.(allFriends := updated, friends := state.friends + added,
                          lastFriendDoc := p.lastDoc, hasMoreFriends := p.hasMore);
        } else {
          state := state.(hasMoreFriends := false);
        }
      } else {
        state := state.(hasMoreFriends := false);
      }
      state := state.(loadingMore := false);
    }

    /** `refreshData()`; `lists` is the reloaded pair of request lists, `None` when that fails. */
    method RefreshData(lists: Option<(seq<Friendship>, seq<Friendship>)>, now: int,
                       store: nat -> Response, savedAt: int)
      modifies this, cache
      ensures Current() == Refresh(old(Current()), lists, now, store, savedAt)
    {
      if !SignedIn(state.user) {
        return;
      }
      state := state.(loading := true, error := None, lastFriendDoc := None, hasMoreFriends := true);
      cache.Delete(FriendsKey(state.user.value));
      if lists.None? {
        state := state.(error := Some(RefreshError));
      } else {
        state := state.(requests := lists.value.0, sentRequests := lists.value.1);
        LoadAllFriends(true, now, store, savedAt);
      }
      state := state.(loading := false);
    }

    /** `sendFriendRequest(targetId)`. */
    method SendFriendRequest(targetId: string, ok: bool) returns (result: ActionResult)
      modifies this
      ensures (Current(), result) == Perform(old(Current()), Send(targetId), ok)
    {
      if !SignedIn(state.user) {
        return NotSignedIn;
      }
      state := state.(calls := state.calls + [SendRequest(state.user.value, targetId)]);
      result := Outcome(ok);
    }

    /** `acceptFriendRequest(id)`: the id is looked up among the received requests. */
    method AcceptFriendRequest(friendshipId: string, ok: bool) returns (result: ActionResult)
      modifies this, cache
      ensures (Current(), result) == Perform(old(Current()), Accept(friendshipId), ok)
    {
      if !SignedIn(state.user) {
        return NotSignedIn;
      }
      var request := FindById(state.requests, friendshipId);
      if request.None? {
        return NotFound;
      }
      state := state.(calls := state.calls + [AcceptRequest(state.user.value, request.value.friendId)]);
      if ok {
        cache.Delete(FriendsKey(state.user.value));
      }
      result := Outcome(ok);
    }

    /** `rejectFriendRequest(id)`: the id is looked up among the received requests; the cache is kept. */
    method RejectFriendRequest(friendshipId: string, ok: bool) returns (result: ActionResult)
      modifies this
      ensures (Current(), result) == Perform(old(Current()), Reject(friendshipId), ok)
    {
      if !SignedIn(state.user) {
        return NotSignedIn;
      }
      var request := FindById(state.requests, friendshipId);
      if request.None? {
        return NotFound;
      }
      state := state.(calls := state.calls + [RejectRequest(state.user.value, request.value.friendId)]);
      result := Outcome(ok);
    }

    /** `removeFriend(id)`: the id is looked up among all friends. */
    method RemoveFriend(friendshipId: string, ok: bool) returns (result: ActionResult)
      modifies this, cache
      ensures (Current(), result) == Perform(old(Current()), Remove(friendshipId), ok)
    {
      if !SignedIn(state.user) {
        return NotSignedIn;
      }
      var friend := FindById(state.allFriends, friendshipId);
      if friend.None? {
        return NotFound;
      }
      state := state.(calls := state.calls + [RemoteCall.RemoveFriend(state.user.value, friend.value.friendId)]);
      if ok {
        cache.Delete(FriendsKey(state.user.value));
      }
      result := Outcome(ok);
    }

    /** `cancelSentRequest(id)`: the id is looked up among the sent requests; the cache is kept. */
    method CancelSentRequest(friendshipId: string, ok: bool) returns (result: ActionResult)
      modifies this
      ensures (Current(), result) == Perform(old(Current()), CancelSent(friendshipId), ok)
    {
      if !SignedIn(state.user) {
        return NotSignedIn;
      }
      var sentRequest := FindById(state.sentRequests, friendshipId);
      if sentRequest.None? {
        return NotFound;
      }
      state := state.(calls := state.calls + [RejectRequest(state.user.value, sentRequest.value.friendId)]);
      result := Outcome(ok);
    }

    /** `cancelAllSentRequests()`. */
    method CancelAllSentRequests(ok: bool) returns (result: ActionResult)
      modifies this
      ensures (Current(), result) == Perform(old(Current()), CancelAll, ok)
    {
      if !SignedIn(state.user) || |state.sentRequests| == 0 {
        return NothingToCancel;
      }
      state := state.(calls := state.calls + CancelAllCalls(state.user.value, state.sentRequests));
      result := Outcome(ok);
    }

    /**
     * `filteredAndSortedRequests`. Without a query the held array itself is
     * sorted in place, so `requests` is left in the view's order.
     */
    method RequestsView(hits: seq<Friendship>) returns (view: seq<Friendship>)
      modifies this
      ensures view == RequestOrder(if Searching(old(state)) then hits else old(state).requests)
      ensures state == old(state).(requests := if Searching(old(state)) then old(state).requests else view)
    {
      if Trim(state.searchQuery) != [] {
        view := RequestOrder(hits);
      } else {
        state := state.(requests := RequestOrder(state.requests));
        view := state.requests;
      }
    }

    /** `filteredAndSortedSentRequests`, which sorts `sentRequests` in place the same way. */
    method SentRequestsView(hits: seq<Friendship>) returns (view: seq<Friendship>)
      modifies this
      ensures view == RequestOrder(if Searching(old(state)) then hits else old(state).sentRequests)
      ensures state == old(state).(sentRequests := if Searching(old(state)) then old(state).sentRequests else view)
    {
      if Trim(state.searchQuery) != [] {
        view := RequestOrder(hits);
      } else {
        state := state.(sentRequests := RequestOrder(state.sentRequests));
        view := state.sentRequests;
      }
    }
  }

  /** Sorting the held request arrays in place keeps the counts. */
  method InPlaceSortKeepsStats(h: Hook)
    modifies h
    requires !Searching(h.state)
    ensures Stats(h.state) == Stats(old(h.state))
  {
    ghost var before := h.state;
    var view := h.RequestsView([]);
    var sentView := h.SentRequestsView([]);
    RequestOrderNewestFirst(before.requests);
    RequestOrderNewestFirst(before.sentRequests);
    assert h.state.requests == RequestOrder(before.requests);
    assert h.state.sentRequests == RequestOrder(before.sentRequests);
    assert h.state.allFriends == before.allFriends;
  }
}
