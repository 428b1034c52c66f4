/**
 * The batch loader's page-by-page accumulation of the friend list. The remote
 * store is an oracle: `store(k)` is its answer to the k-th page request of one
 * full load. `Run` is the specification of the loader's loop; the loop itself
 * is `LoadBatches`, which `FriendsHook.Hook.LoadAllFriends` calls.
 */
module BatchLoader {
  import opened Wrappers
  import opened Friendship

  /** The store's opaque "resume after this record" handle. */
  datatype Cursor = Cursor(position: nat)

  /** One page answer: its edges, the cursor after its last edge, and whether more follow. */
  datatype Page = Page(items: seq<Friendship>, lastDoc: Option<Cursor>, hasMore: bool)

  datatype Response = Fetched(page: Page) | FetchFailed

  /** A page request as sent to the store: whose friends, how many, after which cursor. */
  datatype PageRequest = PageRequest(ownerId: string, limit: nat, cursor: Option<Cursor>)

  /** Edges asked for per page. */
  const PageSize: nat := 100

  /** The safety valve: at most this many pages per full load. */
  const MaxBatches: nat := 20

  // ---------------------------------------------------------------- dedup

  /** The ids of a list of edges. */
  function Ids(s: seq<Friendship>): set<string> {
    if s == [] then {} else {s[0].id} + Ids(s[1..])
  }

  /** An id belongs to `Ids(s)` exactly when some edge of `s` carries it. */
  lemma {:induction false} IdsMeaning(s: seq<Friendship>, id: string)
    ensures id in Ids(s) <==> exists i :: 0 <= i < |s| && s[i].id == id
  {
    if s != [] {
      IdsMeaning(s[1..], id);
      if id in Ids(s[1..]) {
        var i :| 0 <= i < |s[1..]| && s[1..][i].id == id;
        assert s[i + 1].id == id;
      }
      if exists i :: 0 <= i < |s| && s[i].id == id {
        var i :| 0 <= i < |s| && s[i].id == id;
        if i > 0 {
          assert s[1..][i - 1].id == id;
        }
      }
    }
  }

  lemma {:induction false} IdsAppend(a: seq<Friendship>, b: seq<Friendship>)
    ensures Ids(a + b) == Ids(a) + Ids(b)
  {
    if a == [] {
      assert a + b == b;
    } else {
      assert (a + b)[1..] == a[1..] + b;
      IdsAppend(a[1..], b);
    }
  }

  /** No two edges of `s` share an id. */
  predicate DistinctIds(s: seq<Friendship>) {
    forall i, j :: 0 <= i < j < |s| ==> s[i].id != s[j].id
  }

  /** `items.filter(f => !seen.has(f.id))`. */
  function Survivors(items: seq<Friendship>, seen: set<string>): (r: seq<Friendship>)
    ensures forall f :: f in r <==> f in items && f.id !in seen
    ensures DistinctIds(items) ==> DistinctIds(r)
  {
    if items == [] then []
    else if items[0].id in seen then Survivors(items[1..], seen)
    else
      var rest := Survivors(items[1..], seen);
      assert DistinctIds(items) ==> forall f :: f in rest ==> f.id != items[0].id by {
        if DistinctIds(items) {
          forall f | f in rest ensures f.id != items[0].id {
            var k :| 0 <= k < |items[1..]| && items[1..][k] == f;
            assert items[k + 1] == f;
          }
        }
      }
      [items[0]] + rest
  }

  /** Filtering a concatenation filters each part: the survivors keep the page's order and its repeats. */
  lemma {:induction false} SurvivorsAppend(a: seq<Friendship>, b: seq<Friendship>, seen: set<string>)
    ensures Survivors(a + b, seen) == Survivors(a, seen) + Survivors(b, seen)
  {
    if a == [] {
      assert a + b == b;
    } else {
      assert (a + b)[0] == a[0] && (a + b)[1..] == a[1..] + b;
      SurvivorsAppend(a[1..], b, seen);
    }
  }

  /** A single edge survives exactly when its id was not seen. */
  lemma SurvivorsOne(x: Friendship, seen: set<string>)
    ensures Survivors([x], seen) == if x.id in seen then [] else [x]
  {
    assert [x][1..] == [];
  }

  /** The survivors carry exactly the page's ids that were not seen. */
  lemma {:induction false} SurvivorsIds(items: seq<Friendship>, seen: set<string>)
    ensures Ids(Survivors(items, seen)) == Ids(items) - seen
  {
    if items != [] {
      SurvivorsIds(items[1..], seen);
    }
  }

  /** A page whose every id was seen has no survivors. */
  lemma {:induction false} SurvivorsEmpty(items: seq<Friendship>, seen: set<string>)
    requires forall f :: f in items ==> f.id in seen
    ensures Survivors(items, seen) == []
  {
    if items != [] {
      assert items[0] in items;
      SurvivorsEmpty(items[1..], seen);
    }
  }

  /** Appending the survivors of a page adds exactly the page's ids. */
  lemma AppendSurvivorsIds(acc: seq<Friendship>, items: seq<Friendship>)
    ensures Ids(acc + Survivors(items, Ids(acc))) == Ids(acc) + Ids(items)
  {
    IdsAppend(acc, Survivors(items, Ids(acc)));
    SurvivorsIds(items, Ids(acc));
  }

  /** Appending the survivors of a page whose own ids are distinct keeps the ids distinct. */
  lemma AppendSurvivorsDistinct(acc: seq<Friendship>, items: seq<Friendship>)
    requires DistinctIds(acc) && DistinctIds(items)
    ensures DistinctIds(acc + Survivors(items, Ids(acc)))
  {
    var added := Survivors(items, Ids(acc));
    var r := acc + added;
    forall i, j | 0 <= i < j < |r| ensures r[i].id != r[j].id {
      if i < |acc| && j >= |acc| {
        assert r[j] in added;
        IdsMeaning(acc, r[i].id);
        assert r[i].id in Ids(acc);
      } else if i >= |acc| {
        assert r[i] == added[i - |acc|] && r[j] == added[j - |acc|];
      }
    }
  }

  // ---------------------------------------------------------------- the loop

  /** The loop's variables: `allFriendsData`, `lastDoc`, `hasMore`, `batchCount`, and the requests sent. */
  datatype LoopState = LoopState(
    acc: seq<Friendship>,
    lastDoc: Option<Cursor>,
    hasMore: bool,
    batchCount: nat,
    requests: seq<PageRequest>)

  /** The state the loop starts from: an empty accumulator and the given cursor. */
  function Start(cursor: Option<Cursor>): LoopState {
    LoopState([], cursor, true, 0, [])
  }

  /** The loop condition. */
  predicate Running(st: LoopState) {
    st.hasMore && st.batchCount < MaxBatches
  }

  /**
   * One pass of the loop body on a page the store answered with: a non-empty
   * page contributes the edges whose id is not accumulated yet, moves the
   * cursor on, and lets the loop go on only if the store has more and the page
   * added something; an empty page stops the loop.
   */
  function Absorb(st: LoopState, p: Page, request: PageRequest): (r: LoopState)
    ensures r.batchCount == st.batchCount + 1 && r.requests == st.requests + [request]
    ensures Ids(r.acc) == Ids(st.acc) + Ids(p.items)
    ensures |st.acc| <= |r.acc| && r.acc[..|st.acc|] == st.acc
    ensures r.hasMore ==> p.hasMore && |r.acc| > |st.acc|
    ensures p.items == [] ==> !r.hasMore && r.acc == st.acc && r.lastDoc == st.lastDoc
    ensures |p.items| > 0 ==>
              r.acc == st.acc + Survivors(p.items, Ids(st.acc)) && r.lastDoc == p.lastDoc &&
              (r.hasMore <==> p.hasMore && |r.acc| > |st.acc|)
  {
    AppendSurvivorsIds(st.acc, p.items);
    if |p.items| > 0 then
      var added := Survivors(p.items, Ids(st.acc));
      assert (st.acc + added)[..|st.acc|] == st.acc;
      LoopState(st.acc + added, p.lastDoc, p.hasMore && |added| > 0, st.batchCount + 1, st.requests + [request])
    else
      LoopState(st.acc, st.lastDoc, false, st.batchCount + 1, st.requests + [request])
  }

  /** How a full load ends: with its final loop state, or aborted by a failed page request. */
  datatype LoadOutcome = Completed(final: LoopState) | Aborted(requests: seq<PageRequest>)

  function Requests(o: LoadOutcome): seq<PageRequest> {
    match o
    case Completed(f) => f.requests
    case Aborted(rs) => rs
  }

  /** The loop of a full load for `ownerId`, from state `st` on. */
  function Run(store: nat -> Response, ownerId: string, st: LoopState): LoadOutcome
    decreases MaxBatches - st.batchCount
  {
    if !Running(st) then Completed(st)
    else
      var request := PageRequest(ownerId, PageSize, st.lastDoc);
      match store(st.batchCount)
      case FetchFailed => Aborted(st.requests + [request])
      case Fetched(p) => Run(store, ownerId, Absorb(st, p, request))
  }

  /** One pass of the loop on a page the store answered with. */
  lemma RunFetched(store: nat -> Response, ownerId: string, st: LoopState)
    requires Running(st) && store(st.batchCount).Fetched?
    ensures Run(store, ownerId, st) ==
              Run(store, ownerId, Absorb(st, store(st.batchCount).page, PageRequest(ownerId, PageSize, st.lastDoc)))
  {
  }

  /** A completed loop that was still running got a page and went on from the absorbed state. */
  lemma RunCompletedStep(store: nat -> Response, ownerId: string, st: LoopState)
    requires Running(st) && Run(store, ownerId, st).Completed?
    ensures store(st.batchCount).Fetched?
    ensures Run(store, ownerId, st) ==
              Run(store, ownerId, Absorb(st, store(st.batchCount).page, PageRequest(ownerId, PageSize, st.lastDoc)))
  {
  }

  /** A failed page request ends the load with the requests sent so far, that one included. */
  lemma RunFailed(store: nat -> Response, ownerId: string, st: LoopState)
    requires Running(st) && store(st.batchCount).FetchFailed?
    ensures Run(store, ownerId, st) == Aborted(st.requests + [PageRequest(ownerId, PageSize, st.lastDoc)])
  {
  }

  /**
   * The loop of `loadAllFriends`: page requests from `cursor` on until the
   * store has no more, a page adds nothing, twenty pages were requested, or a
   * request fails.
   */
  method LoadBatches(store: nat -> Response, ownerId: string, cursor: Option<Cursor>) returns (o: LoadOutcome)
    ensures o == Run(store, ownerId, Start(cursor))
  {
    var acc: seq<Friendship> := [];
    var hasMore := true;
    var lastDoc := cursor;
    var batchCount: nat := 0;
    var sent: seq<PageRequest> := [];
    while hasMore && batchCount < MaxBatches
      invariant batchCount <= MaxBatches
      invariant Run(store, ownerId, LoopState(acc, lastDoc, hasMore, batchCount, sent)) == Run(store, ownerId, Start(cursor))
      decreases MaxBatches - batchCount
    {
      ghost var prev := LoopState(acc, lastDoc, hasMore, batchCount, sent);
      var request := PageRequest(ownerId, PageSize, lastDoc);
      sent := sent + [request];
      var response := store(batchCount);
      if response.FetchFailed? {
        RunFailed(store, ownerId, prev);
        return Aborted(sent);
      }
      var page := response.page;
      RunFetched(store, ownerId, prev);
      if |page.items| > 0 {
        var added := Survivors(page.items, Ids(acc));
        acc := acc + added;
        lastDoc := page.lastDoc;
        hasMore := page.hasMore && |added| > 0;
      } else {
        hasMore := false;
      }
      batchCount := batchCount + 1;
      assert LoopState(acc, lastDoc, hasMore, batchCount, sent) == Absorb(prev, page, request);
    }
    o := Completed(LoopState(acc, lastDoc, hasMore, batchCount, sent));
  }

  // ---------------------------------------------------------------- properties of the loop

  /** The ids of the pages answered between two request numbers. */
  function PageIds(store: nat -> Response, from: nat, to: nat): set<string>
    decreases to - from
  {
    if to <= from then {}
    else (if store(from).Fetched? then Ids(store(from).page.items) else {}) + PageIds(store, from + 1, to)
  }

  /**
   * At most twenty pages are requested, one per pass, each for a page of 100
   * after the cursor the previous page left; a completed loop has stopped
   * because the store had no more to add or because the cap was reached.
   */
  lemma {:induction false} RunBounded(store: nat -> Response, ownerId: string, st: LoopState)
    requires st.batchCount <= MaxBatches && |st.requests| == st.batchCount
    ensures |Requests(Run(store, ownerId, st))| <= MaxBatches
    ensures st.requests <= Requests(Run(store, ownerId, st))
    ensures Run(store, ownerId, st).Completed? ==>
              var f := Run(store, ownerId, st).final;
              !Running(f) && |f.requests| == f.batchCount
    ensures Running(st) ==> (|Requests(Run(store, ownerId, st))| > |st.requests| &&
              Requests(Run(store, ownerId, st))[|st.requests|] == PageRequest(ownerId, PageSize, st.lastDoc))
    decreases MaxBatches - st.batchCount
  {
    if Running(st) {
      var request := PageRequest(ownerId, PageSize, st.lastDoc);
      match store(st.batchCount)
      case FetchFailed =>
      case Fetched(p) =>
        var next := Absorb(st, p, request);
        RunBounded(store, ownerId, next);
        assert st.requests + [request] <= next.requests;
    }
  }

  /** A full load always sends at least one request, and the first resumes from the starting cursor. */
  lemma FirstRequest(store: nat -> Response, ownerId: string, cursor: Option<Cursor>)
    ensures |Requests(Run(store, ownerId, Start(cursor)))| >= 1
    ensures Requests(Run(store, ownerId, Start(cursor)))[0] == PageRequest(ownerId, PageSize, cursor)
  {
    RunBounded(store, ownerId, Start(cursor));
  }

  /** A completed loop holds what it started with, followed by the edges it added. */
  lemma {:induction false} RunExtends(store: nat -> Response, ownerId: string, st: LoopState)
    requires Run(store, ownerId, st).Completed?
    ensures st.batchCount <= Run(store, ownerId, st).final.batchCount
    ensures |st.acc| <= |Run(store, ownerId, st).final.acc|
    ensures Run(store, ownerId, st).final.acc[..|st.acc|] == st.acc
    decreases MaxBatches - st.batchCount
  {
    if Running(st) {
      var request := PageRequest(ownerId, PageSize, st.lastDoc);
      match store(st.batchCount)
      case Fetched(p) =>
        var next := Absorb(st, p, request);
        RunExtends(store, ownerId, next);
        var fa := Run(store, ownerId, next).final.acc;
        assert fa[..|st.acc|] == fa[..|next.acc|][..|st.acc|];
    }
  }

  /** The ids of a completed loop are the starting ids and those of every page answered meanwhile. */
  lemma {:induction false} RunIds(store: nat -> Response, ownerId: string, st: LoopState, f: LoopState)
    requires Run(store, ownerId, st) == Completed(f)
    ensures Ids(f.acc) == Ids(st.acc) + PageIds(store, st.batchCount, f.batchCount)
    decreases MaxBatches - st.batchCount
  {
    if Running(st) {
      RunCompletedStep(store, ownerId, st);
      var p := store(st.batchCount).page;
      var next := Absorb(st, p, PageRequest(ownerId, PageSize, st.lastDoc));
      RunIds(store, ownerId, next, f);
      RunExtends(store, ownerId, next);
      PageIdsFirst(store, st.batchCount, f.batchCount);
    }
  }


  lemma PageIdsFirst(store: nat -> Response, from: nat, to: nat)
    requires from < to && store(from).Fetched?
    ensures PageIds(store, from, to) == Ids(store(from).page.items) + PageIds(store, from + 1, to)
  {
  }
  /** The edges of the k-th answer, none for a failed one. */
  function PageItems(store: nat -> Response, k: nat): seq<Friendship> {
    if store(k).Fetched? then store(k).page.items else []
  }

  /**
   * Page by page in request order from `from` up to `to`, the edges of each
   * answered page whose id is not in `seen`, where `seen` grows by each
   * page's ids: an edge is dropped when it was already seen or was on an
   * earlier page.
   */
  function NewEdges(store: nat -> Response, seen: set<string>, from: nat, to: nat): seq<Friendship>
    decreases to - from
  {
    if to <= from then []
    else Survivors(PageItems(store, from), seen) + NewEdges(store, seen + Ids(PageItems(store, from)), from + 1, to)
  }

  /** One absorbed page moves its survivors from the pending pages onto the list. */
  lemma AbsorbAppends(store: nat -> Response, st: LoopState, request: PageRequest, f: LoopState)
    requires store(st.batchCount).Fetched? && st.batchCount < f.batchCount
    requires var next := Absorb(st, store(st.batchCount).page, request);
             f.acc == next.acc + NewEdges(store, Ids(next.acc), next.batchCount, f.batchCount)
    ensures f.acc == st.acc + NewEdges(store, Ids(st.acc), st.batchCount, f.batchCount)
  {
    var p := store(st.batchCount).page;
    var next := Absorb(st, p, request);
    var added := Survivors(p.items, Ids(st.acc));
    var rest := NewEdges(store, Ids(next.acc), st.batchCount + 1, f.batchCount);
    assert next.acc == st.acc + added by {
      if p.items == [] { assert added == []; }
    }
    assert f.acc == (st.acc + added) + rest by {
      assert next.batchCount == st.batchCount + 1;
    }
    assert NewEdges(store, Ids(st.acc), st.batchCount, f.batchCount) == added + rest by {
      assert PageItems(store, st.batchCount) == p.items;
      assert Ids(next.acc) == Ids(st.acc) + Ids(p.items);
    }
    AppendAssoc(st.acc, added, rest);
  }

  lemma {:induction false} RunAppends(store: nat -> Response, ownerId: string, st: LoopState, f: LoopState)
    requires Run(store, ownerId, st) == Completed(f)
    ensures f.acc == st.acc + NewEdges(store, Ids(st.acc), st.batchCount, f.batchCount)
    decreases MaxBatches - st.batchCount
  {
    if Running(st) {
      RunCompletedStep(store, ownerId, st);
      var request := PageRequest(ownerId, PageSize, st.lastDoc);
      var next := Absorb(st, store(st.batchCount).page, request);
      RunAppends(store, ownerId, next, f);
      RunExtends(store, ownerId, next);
      AbsorbAppends(store, st, request, f);
    }
  }






  /**
   * Dedup is against the accumulator only: when every page's own ids are
   * distinct, the completed result has distinct ids.
   */
  lemma {:induction false} RunDistinct(store: nat -> Response, ownerId: string, st: LoopState)
    requires DistinctIds(st.acc)
    requires forall k :: st.batchCount <= k < MaxBatches && store(k).Fetched? ==> DistinctIds(store(k).page.items)
    requires Run(store, ownerId, st).Completed?
    ensures DistinctIds(Run(store, ownerId, st).final.acc)
    decreases MaxBatches - st.batchCount
  {
    if Running(st) {
      var request := PageRequest(ownerId, PageSize, st.lastDoc);
      var p := store(st.batchCount).page;
      if |p.items| > 0 {
        AppendSurvivorsDistinct(st.acc, p.items);
      }
      RunDistinct(store, ownerId, Absorb(st, p, request));
    }
  }

  /** Duplicates inside one page are not dropped: a single page with a repeated id is kept whole. */
  lemma DuplicateWithinPageKept(a: Friendship, b: Friendship, ownerId: string)
    requires a.id == b.id
    ensures var store := (k: nat) => Fetched(Page([a, b], None, false));
            Run(store, ownerId, Start(None)).Completed? &&
            Run(store, ownerId, Start(None)).final.acc == [a, b] &&
            !DistinctIds(Run(store, ownerId, Start(None)).final.acc)
  {
    var store := (k: nat) => Fetched(Page([a, b], None, false));
    var request := PageRequest(ownerId, PageSize, None);
    assert Ids([]) == {};
    assert [a, b][1..] == [b] && [b][1..] == [];
    assert Survivors([b], {}) == [b];
    assert Survivors([a, b], {}) == [a, b];
    var next := Absorb(Start(None), Page([a, b], None, false), request);
    assert next.acc == [a, b] && !next.hasMore;
    assert Run(store, ownerId, Start(None)) == Run(store, ownerId, next) == Completed(next);
  }

  /** Once a running loop is answered with an empty page it stops. */
  lemma EmptyPageStops(store: nat -> Response, ownerId: string, st: LoopState)
    requires Running(st)
    requires store(st.batchCount).Fetched? && store(st.batchCount).page.items == []
    ensures Run(store, ownerId, st) ==
              Completed(st.(hasMore := false, batchCount := st.batchCount + 1,
                            requests := st.requests + [PageRequest(ownerId, PageSize, st.lastDoc)]))
  {
  }

  /** The k-th answer is a page that says more follow and brings an id no earlier page had. */
  predicate Fresh(store: nat -> Response, k: nat) {
    store(k).Fetched? && store(k).page.hasMore &&
    exists f :: f in store(k).page.items && f.id !in PageIds(store, 0, k)
  }

  /**
   * A store that keeps answering with pages that say more follow and bring an
   * id never seen before gets exactly twenty requests, and the loop ends with
   * `hasMore` still true.
   */
  lemma {:induction false} EndlessStoreHitsCap(store: nat -> Response, ownerId: string, st: LoopState)
    requires st.hasMore && st.batchCount <= MaxBatches && |st.requests| == st.batchCount
    requires Ids(st.acc) <= PageIds(store, 0, st.batchCount)
    requires forall k :: st.batchCount <= k < MaxBatches ==> Fresh(store, k)
    ensures Run(store, ownerId, st).Completed?
    ensures Run(store, ownerId, st).final.batchCount == MaxBatches
    ensures |Run(store, ownerId, st).final.requests| == MaxBatches
    ensures Run(store, ownerId, st).final.hasMore
    decreases MaxBatches - st.batchCount
  {
    if Running(st) {
      var k := st.batchCount;
      var request := PageRequest(ownerId, PageSize, st.lastDoc);
      assert Fresh(store, k);
      var p := store(k).page;
      var f :| f in p.items && f.id !in PageIds(store, 0, k);
      var added := Survivors(p.items, Ids(st.acc));
      assert f in added;
      var next := Absorb(st, p, request);
      PageIdsExtend(store, 0, k);
      EndlessStoreHitsCap(store, ownerId, next);
    }
  }

  lemma {:induction false} PageIdsExtend(store: nat -> Response, from: nat, to: nat)
    requires from <= to
    ensures PageIds(store, from, to + 1) ==
              PageIds(store, from, to) + (if store(to).Fetched? then Ids(store(to).page.items) else {})
    decreases (to as int) - (from as int)
  {
    if from < to {
      PageIdsExtend(store, from + 1, to);
    }
  }

  /** From the start, such a store makes the full load stop at the cap with more to load. */
  lemma EndlessStoreFromStart(store: nat -> Response, ownerId: string, cursor: Option<Cursor>)
    requires forall k: nat :: k < MaxBatches ==> Fresh(store, k)
    ensures Run(store, ownerId, Start(cursor)).Completed?
    ensures |Run(store, ownerId, Start(cursor)).final.requests| == MaxBatches
    ensures Run(store, ownerId, Start(cursor)).final.hasMore
  {
    EndlessStoreHitsCap(store, ownerId, Start(cursor));
  }
}
