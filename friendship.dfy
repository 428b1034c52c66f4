/**
 * A denormalized friendship edge, the comparators the friends views sort
 * with, the stable sort they are handed to, and the relation classifier.
 */
module Friendship {
  import opened Wrappers
  import opened JsString

  /** The peer's public profile fields copied into the edge. */
  datatype Profile = Profile(displayName: string, nickname: string)

  /** Dates are milliseconds since the epoch. */
  datatype Friendship = Friendship(
    id: string,
    friendId: string,
    friend: Profile,
    createdAt: int,
    friendshipDate: Option<int>)

  datatype SortField = Default | Name | Nickname | FriendshipDate | OtherField
  datatype SortDirection = Asc | Desc

  /** What a sort is asked for: a user-chosen field and direction, or the request views' order. */
  datatype Order = ByField(field: SortField, direction: SortDirection) | NewestCreatedFirst

  // ---------------------------------------------------------------- comparators

  /**
   * `f.friendshipDate?.getTime() || f.createdAt.getTime()`: the friendship
   * date, falling back to the creation date when it is absent or is the epoch
   * itself (0 is falsy).
   */
  function EffectiveDate(f: Friendship): (t: int)
    ensures f.friendshipDate.Some? && f.friendshipDate.value != 0 ==> t == f.friendshipDate.value
    ensures (f.friendshipDate.None? || f.friendshipDate.value == 0) ==> t == f.createdAt
  {
    match f.friendshipDate
    case Some(d) => if d != 0 then d else f.createdAt
    case None => f.createdAt
  }

  /** The three-way result of the field comparator: `<` first, then `>`, else 0. */
  function Signum(less: bool, greater: bool, d: SortDirection): int {
    if less then (if d == Asc then -1 else 1)
    else if greater then (if d == Asc then 1 else -1)
    else 0
  }

  /** The comparator handed to `Array.prototype.sort`: negative puts `a` first. */
  function Compare(order: Order, a: Friendship, b: Friendship): int {
    match order
    case NewestCreatedFirst => b.createdAt - a.createdAt
    case ByField(Default, _) => EffectiveDate(b) - EffectiveDate(a)
    case ByField(Name, d) =>
      var va, vb := Lower(a.friend.displayName), Lower(b.friend.displayName);
      Signum(Less(va, vb), Less(vb, va), d)
    case ByField(Nickname, d) =>
      var va, vb := Lower(a.friend.nickname), Lower(b.friend.nickname);
      Signum(Less(va, vb), Less(vb, va), d)
    case ByField(FriendshipDate, d) =>
      var va, vb := EffectiveDate(a), EffectiveDate(b);
      Signum(va < vb, va > vb, d)
    case ByField(OtherField, _) => 0
  }

  /** `a` must come before `b`. */
  predicate Precedes(order: Order, a: Friendship, b: Friendship) {
    Compare(order, a, b) < 0
  }

  /**
   * What each order means: the default puts the most recent effective date
   * first whatever the direction; name and nickname compare lowercased text.
   */
  lemma PrecedesMeaning(order: Order, a: Friendship, b: Friendship)
    ensures order == NewestCreatedFirst ==> (Precedes(order, a, b) <==> a.createdAt > b.createdAt)
    ensures order.ByField? && order.field == Default ==>
              (Precedes(order, a, b) <==> EffectiveDate(a) > EffectiveDate(b))
    ensures order == ByField(Name, Asc) ==>
              (Precedes(order, a, b) <==> Less(Lower(a.friend.displayName), Lower(b.friend.displayName)))
    ensures order == ByField(Nickname, Asc) ==>
              (Precedes(order, a, b) <==> Less(Lower(a.friend.nickname), Lower(b.friend.nickname)))
    ensures order == ByField(FriendshipDate, Asc) ==>
              (Precedes(order, a, b) <==> EffectiveDate(a) < EffectiveDate(b))
    ensures order.ByField? && order.field == OtherField ==> !Precedes(order, a, b)
  {
    if order.ByField? && order.field in {Name, Nickname} {
      var va := if order.field == Name then Lower(a.friend.displayName) else Lower(a.friend.nickname);
      var vb := if order.field == Name then Lower(b.friend.displayName) else Lower(b.friend.nickname);
      LessAsymmetric(va, vb);
    }
  }

  /** For the user-chosen fields, descending is ascending with the operands swapped. */
  lemma DescendingReversesAscending(field: SortField, a: Friendship, b: Friendship)
    requires field != Default
    ensures Precedes(ByField(field, Desc), a, b) <==> Precedes(ByField(field, Asc), b, a)
  {
    if field == Name {
      LessAsymmetric(Lower(a.friend.displayName), Lower(b.friend.displayName));
    } else if field == Nickname {
      LessAsymmetric(Lower(a.friend.nickname), Lower(b.friend.nickname));
    }
  }

  lemma PrecedesAsymmetric(order: Order, a: Friendship, b: Friendship)
    ensures Precedes(order, a, b) ==> !Precedes(order, b, a)
  {
    match order
    case ByField(Name, _) =>
      LessAsymmetric(Lower(a.friend.displayName), Lower(b.friend.displayName));
    case ByField(Nickname, _) =>
      LessAsymmetric(Lower(a.friend.nickname), Lower(b.friend.nickname));
    case _ =>
  }

  lemma PrecedesTransitive(order: Order, a: Friendship, b: Friendship, c: Friendship)
    requires Precedes(order, a, b) && Precedes(order, b, c)
    ensures Precedes(order, a, c)
  {
    match order
    case ByField(Name, d) =>
      var va, vb, vc := Lower(a.friend.displayName), Lower(b.friend.displayName), Lower(c.friend.displayName);
      LessAsymmetric(va, vb);
      LessAsymmetric(vb, vc);
      LessAsymmetric(va, vc);
      if d == Asc { LessTransitive(va, vb, vc); } else { LessTransitive(vc, vb, va); }
    case ByField(Nickname, d) =>
      var va, vb, vc := Lower(a.friend.nickname), Lower(b.friend.nickname), Lower(c.friend.nickname);
      LessAsymmetric(va, vb);
      LessAsymmetric(vb, vc);
      LessAsymmetric(va, vc);
      if d == Asc { LessTransitive(va, vb, vc); } else { LessTransitive(vc, vb, va); }
    case _ =>
  }

  // ---------------------------------------------------------------- the sort

  /** No element is preceded by one that comes after it. */
  predicate Ordered(order: Order, s: seq<Friendship>) {
    forall i, j :: 0 <= i < j < |s| ==> !Precedes(order, s[j], s[i])
  }

  /** Places `x` after every element it does not precede. */
  function Insert(order: Order, x: Friendship, s: seq<Friendship>): seq<Friendship> {
    if s == [] then [x]
    else if Precedes(order, x, s[0]) then [x] + s
    else [s[0]] + Insert(order, x, s[1..])
  }

  /**
   * A stable sort by the comparator, as `Array.prototype.sort` is: the
   * elements are inserted in input order, each after the ones it ties with.
   */
  function Sort(order: Order, s: seq<Friendship>): seq<Friendship> {
    if s == [] then [] else Insert(order, s[|s| - 1], Sort(order, s[..|s| - 1]))
  }

  lemma {:induction false} InsertElements(order: Order, x: Friendship, s: seq<Friendship>)
    ensures multiset(Insert(order, x, s)) == multiset(s) + multiset{x}
    ensures |Insert(order, x, s)| == |s| + 1
  {
    if s != [] && !Precedes(order, x, s[0]) {
      InsertElements(order, x, s[1..]);
      assert s == [s[0]] + s[1..];
    }
  }

  lemma {:induction false} InsertOrdered(order: Order, x: Friendship, s: seq<Friendship>)
    requires Ordered(order, s)
    ensures Ordered(order, Insert(order, x, s))
  {
    if s == [] {
    } else if Precedes(order, x, s[0]) {
      InsertInFront(order, x, s);
    } else {
      InsertOrdered(order, x, s[1..]);
      InsertElements(order, x, s[1..]);
      InsertBehind(order, x, s, Insert(order, x, s[1..]));
    }
  }

  lemma InsertInFront(order: Order, x: Friendship, s: seq<Friendship>)
    requires Ordered(order, s) && s != [] && Precedes(order, x, s[0])
    ensures Ordered(order, [x] + s)
  {
    var r := [x] + s;
    forall j | 0 < j < |r| ensures !Precedes(order, r[j], x) {
      PrecedesAsymmetric(order, x, s[0]);
      if j > 1 && Precedes(order, r[j], x) {
        PrecedesTransitive(order, r[j], x, s[0]);
      }
    }
  }

  lemma InsertBehind(order: Order, x: Friendship, s: seq<Friendship>, rest: seq<Friendship>)
    requires Ordered(order, s) && s != [] && !Precedes(order, x, s[0])
    requires Ordered(order, rest) && multiset(rest) == multiset(s[1..]) + multiset{x}
    ensures Ordered(order, [s[0]] + rest)
  {
    var r := [s[0]] + rest;
    forall j | 0 < j < |r| ensures !Precedes(order, r[j], s[0]) {
      var y := r[j];
      assert y == rest[j - 1];
      assert y in multiset(rest);
      assert y == x || y in s[1..];
      if y != x {
        var k :| 0 <= k < |s[1..]| && s[1..][k] == y;
        assert s[k + 1] == y;
      }
    }
    forall i, j | 0 <= i < j < |r| ensures !Precedes(order, r[j], r[i]) {
      if i > 0 {
        assert r[i] == rest[i - 1] && r[j] == rest[j - 1];
      }
    }
  }

  /** Sorting returns a permutation of its input. */
  lemma {:induction false} SortPermutes(order: Order, s: seq<Friendship>)
    ensures multiset(Sort(order, s)) == multiset(s)
    ensures |Sort(order, s)| == |s|
  {
    if s != [] {
      var init := s[..|s| - 1];
      SortPermutes(order, init);
      InsertElements(order, s[|s| - 1], Sort(order, init));
      assert s == init + [s[|s| - 1]];
    }
  }

  /** Sorting returns an ordered sequence. */
  lemma {:induction false} SortOrders(order: Order, s: seq<Friendship>)
    ensures Ordered(order, Sort(order, s))
  {
    if s != [] {
      SortOrders(order, s[..|s| - 1]);
      InsertOrdered(order, s[|s| - 1], Sort(order, s[..|s| - 1]));
    }
  }

  lemma {:induction false} InsertAtEnd(order: Order, x: Friendship, s: seq<Friendship>)
    requires forall i :: 0 <= i < |s| ==> !Precedes(order, x, s[i])
    ensures Insert(order, x, s) == s + [x]
  {
    if s != [] {
      InsertAtEnd(order, x, s[1..]);
      assert s == [s[0]] + s[1..];
    }
  }

  /** An already ordered input comes back unchanged: ties keep their input order. */
  lemma {:induction false} SortKeepsOrdered(order: Order, s: seq<Friendship>)
    requires Ordered(order, s)
    ensures Sort(order, s) == s
  {
    if s != [] {
      var init, x := s[..|s| - 1], s[|s| - 1];
      assert Ordered(order, init);
      SortKeepsOrdered(order, init);
      InsertAtEnd(order, x, init);
      assert init + [x] == s;
    }
  }

  // ---------------------------------------------------------------- ties and stability

  /** Neither element must come before the other. */
  predicate Tied(order: Order, a: Friendship, b: Friendship) {
    !Precedes(order, a, b) && !Precedes(order, b, a)
  }

  /** Tied elements have the same sort key. */
  lemma TiedMeaning(order: Order, a: Friendship, b: Friendship)
    ensures order == NewestCreatedFirst ==> (Tied(order, a, b) <==> a.createdAt == b.createdAt)
    ensures order.ByField? && order.field in {Default, FriendshipDate} ==>
              (Tied(order, a, b) <==> EffectiveDate(a) == EffectiveDate(b))
    ensures order.ByField? && order.field == Name ==>
              (Tied(order, a, b) <==> Lower(a.friend.displayName) == Lower(b.friend.displayName))
    ensures order.ByField? && order.field == Nickname ==>
              (Tied(order, a, b) <==> Lower(a.friend.nickname) == Lower(b.friend.nickname))
    ensures order.ByField? && order.field == OtherField ==> Tied(order, a, b)
  {
    if order.ByField? && order.field in {Name, Nickname} {
      var va := if order.field == Name then Lower(a.friend.displayName) else Lower(a.friend.nickname);
      var vb := if order.field == Name then Lower(b.friend.displayName) else Lower(b.friend.nickname);
      LessAsymmetric(va, vb);
      LessIrreflexive(va);
      if va != vb {
        LessTotal(va, vb);
      }
    }
  }

  /** A tied element can stand in for the other on either side of a comparison. */
  lemma TiedSubstitutes(order: Order, a: Friendship, b: Friendship, c: Friendship)
    requires Tied(order, a, b)
    ensures Compare(order, a, c) == Compare(order, b, c) && Compare(order, c, a) == Compare(order, c, b)
  {
    TiedMeaning(order, a, b);
  }

  /** Ties are transitive, so each comparator is a strict weak order. */
  lemma TiesTransitive(order: Order, a: Friendship, b: Friendship, c: Friendship)
    requires Tied(order, a, b) && Tied(order, b, c)
    ensures Tied(order, a, c)
  {
    TiedSubstitutes(order, a, b, c);
  }

  /** The elements of `s` tied with `z`, in the order of `s`. */
  function TiedWith(order: Order, z: Friendship, s: seq<Friendship>): seq<Friendship> {
    if s == [] then []
    else (if Tied(order, z, s[0]) then [s[0]] else []) + TiedWith(order, z, s[1..])
  }

  lemma {:induction false} TiedWithAppend(order: Order, z: Friendship, a: seq<Friendship>, b: seq<Friendship>)
    ensures TiedWith(order, z, a + b) == TiedWith(order, z, a) + TiedWith(order, z, b)
  {
    if a == [] {
      assert a + b == b;
    } else {
      var head := if Tied(order, z, a[0]) then [a[0]] else [];
      assert (a + b)[0] == a[0] && (a + b)[1..] == a[1..] + b;
      assert TiedWith(order, z, a + b) == head + TiedWith(order, z, a[1..] + b);
      TiedWithAppend(order, z, a[1..], b);
      assert head + (TiedWith(order, z, a[1..]) + TiedWith(order, z, b)) ==
             (head + TiedWith(order, z, a[1..])) + TiedWith(order, z, b);
    }
  }

  lemma {:induction false} TiedWithNone(order: Order, z: Friendship, s: seq<Friendship>)
    requires forall k :: 0 <= k < |s| ==> !Tied(order, z, s[k])
    ensures TiedWith(order, z, s) == []
  {
    if s != [] {
      TiedWithNone(order, z, s[1..]);
    }
  }

  /**
   * Inserting `x` into an ordered sequence puts it behind every element it
   * ties with: within each tie class, `x` is appended last.
   */
  lemma {:induction false} InsertTied(order: Order, z: Friendship, x: Friendship, t: seq<Friendship>)
    requires Ordered(order, t)
    ensures TiedWith(order, z, Insert(order, x, t)) == TiedWith(order, z, t) + (if Tied(order, z, x) then [x] else [])
  {
    if t == [] {
    } else if Precedes(order, x, t[0]) {
      if Tied(order, z, x) {
        forall k | 0 <= k < |t| ensures !Tied(order, z, t[k]) {
          if Tied(order, z, t[k]) {
            TiesTransitive(order, x, z, t[k]);
            TiedSubstitutes(order, x, t[k], t[0]);
          }
        }
        TiedWithNone(order, z, t);
      }
      assert ([x] + t)[1..] == t;
    } else {
      var rest := Insert(order, x, t[1..]);
      var head := if Tied(order, z, t[0]) then [t[0]] else [];
      var last := if Tied(order, z, x) then [x] else [];
      assert ([t[0]] + rest)[0] == t[0] && ([t[0]] + rest)[1..] == rest;
      assert TiedWith(order, z, [t[0]] + rest) == head + TiedWith(order, z, rest);
      assert TiedWith(order, z, rest) == TiedWith(order, z, t[1..]) + last by {
        InsertTied(order, z, x, t[1..]);
      }
      assert TiedWith(order, z, t) == head + TiedWith(order, z, t[1..]);
      assert head + (TiedWith(order, z, t[1..]) + last) == (head + TiedWith(order, z, t[1..])) + last;
    }
  }

  /**
   * The sort is stable: the elements of each tie class come out in the order
   * they went in.
   */
  lemma {:induction false} SortStable(order: Order, z: Friendship, s: seq<Friendship>)
    ensures TiedWith(order, z, Sort(order, s)) == TiedWith(order, z, s)
  {
    if s != [] {
      var init, x := s[..|s| - 1], s[|s| - 1];
      SortStable(order, z, init);
      SortOrders(order, init);
      InsertTied(order, z, x, Sort(order, init));
      TiedWithAppend(order, z, init, [x]);
      assert init + [x] == s;
    }
  }

  /** The default order does not depend on the chosen direction. */
  lemma {:induction false} DefaultIgnoresDirection(s: seq<Friendship>)
    ensures Sort(ByField(Default, Asc), s) == Sort(ByField(Default, Desc), s)
  {
    if s != [] {
      DefaultIgnoresDirection(s[..|s| - 1]);
      InsertSameOrder(s[|s| - 1], Sort(ByField(Default, Asc), s[..|s| - 1]));
    }
  }

  lemma {:induction false} InsertSameOrder(x: Friendship, s: seq<Friendship>)
    ensures Insert(ByField(Default, Asc), x, s) == Insert(ByField(Default, Desc), x, s)
  {
    if s != [] {
      InsertSameOrder(x, s[1..]);
    }
  }

  /** An ascending order read backwards is descending, and the other way round. */
  lemma ReverseOrdered(field: SortField, s: seq<Friendship>)
    requires field != Default
    ensures Ordered(ByField(field, Asc), s) <==> Ordered(ByField(field, Desc), Reversed(s))
  {
    var r := Reversed(s);
    var n := |s|;
    forall i, j | 0 <= i < j < n
      ensures Precedes(ByField(field, Desc), r[j], r[i]) <==> Precedes(ByField(field, Asc), s[n - 1 - i], s[n - 1 - j])
    {
      DescendingReversesAscending(field, r[j], r[i]);
    }
    if Ordered(ByField(field, Asc), s) {
      forall i, j | 0 <= i < j < n ensures !Precedes(ByField(field, Desc), r[j], r[i]) {
        assert 0 <= n - 1 - j < n - 1 - i < n;
      }
    }
    if Ordered(ByField(field, Desc), r) {
      forall i, j | 0 <= i < j < n ensures !Precedes(ByField(field, Asc), s[j], s[i]) {
        assert r[n - 1 - j] == s[j] && r[n - 1 - i] == s[i];
        assert 0 <= n - 1 - j < n - 1 - i < n;
      }
    }
  }

  function Reversed(s: seq<Friendship>): (r: seq<Friendship>)
    ensures |r| == |s| && forall i :: 0 <= i < |s| ==> r[i] == s[|s| - 1 - i]
  {
    seq(|s|, i requires 0 <= i < |s| => s[|s| - 1 - i])
  }

  // ---------------------------------------------------------------- lookups

  /** `s.some(f => f.friendId === target)`. */
  function HasPeer(s: seq<Friendship>, target: string): (b: bool)
    ensures b <==> exists i :: 0 <= i < |s| && s[i].friendId == target
  {
    if s == [] then false
    else s[0].friendId == target || HasPeer(s[1..], target)
  }

  /** `s.find(f => f.id === id)`: the first edge with that id. */
  function FindById(s: seq<Friendship>, id: string): (r: Option<Friendship>)
    ensures r.None? <==> forall i :: 0 <= i < |s| ==> s[i].id != id
    ensures r.Some? ==> (r.value.id == id &&
              exists i :: 0 <= i < |s| && s[i] == r.value && forall j :: 0 <= j < i ==> s[j].id != id)
  {
    if s == [] then None
    else if s[0].id == id then Some(s[0])
    else
      var r := FindById(s[1..], id);
      if r.Some? then
        var i :| 0 <= i < |s[1..]| && s[1..][i] == r.value && forall j :: 0 <= j < i ==> s[1..][j].id != id;
        assert s[i + 1] == r.value;
        r
      else r
  }

  // ---------------------------------------------------------------- status

  datatype RelationStatus = Friends | RequestReceived | RequestSent | NoRelation

  /** `useFriendshipStatus`: friends first, then received requests, then sent ones. */
  function StatusOf(friends: seq<Friendship>, requests: seq<Friendship>, sent: seq<Friendship>,
                    target: string): (r: RelationStatus)
    ensures r == Friends <==> exists i :: 0 <= i < |friends| && friends[i].friendId == target
    ensures r == RequestReceived <==>
              (forall i :: 0 <= i < |friends| ==> friends[i].friendId != target) &&
              (exists i :: 0 <= i < |requests| && requests[i].friendId == target)
    ensures r == RequestSent <==>
              (forall i :: 0 <= i < |friends| ==> friends[i].friendId != target) &&
              (forall i :: 0 <= i < |requests| ==> requests[i].friendId != target) &&
              (exists i :: 0 <= i < |sent| && sent[i].friendId == target)
    ensures r == NoRelation <==>
              (forall i :: 0 <= i < |friends| ==> friends[i].friendId != target) &&
              (forall i :: 0 <= i < |requests| ==> requests[i].friendId != target) &&
              (forall i :: 0 <= i < |sent| ==> sent[i].friendId != target)
  {
    if HasPeer(friends, target) then Friends
    else if HasPeer(requests, target) then RequestReceived
    else if HasPeer(sent, target) then RequestSent
    else NoRelation
  }

  // ---------------------------------------------------------------- examples

  function Edge(id: string, name: string, createdAt: int, friendshipDate: Option<int>): Friendship {
    Friendship(id, id, Profile(name, name), createdAt, friendshipDate)
  }

  /** Sorting by name ascending ignores case: alice, Bob, Carol. */
  lemma NameSortExample()
    ensures Sort(ByField(Name, Asc), [Edge("b", "Bob", 0, None), Edge("a", "alice", 0, None), Edge("c", "Carol", 0, None)])
         == [Edge("a", "alice", 0, None), Edge("b", "Bob", 0, None), Edge("c", "Carol", 0, None)]
  {
    var bob, alice, carol := Edge("b", "Bob", 0, None), Edge("a", "alice", 0, None), Edge("c", "Carol", 0, None);
    var o := ByField(Name, Asc);
    assert Lower("Bob") == "bob";
    assert Lower("alice") == "alice";
    assert Lower("Carol") == "carol";
    assert Precedes(o, alice, bob);
    assert !Precedes(o, carol, alice) && !Precedes(o, carol, bob);
    assert [bob, alice, carol][..2] == [bob, alice];
    assert [bob, alice][..1] == [bob];
    assert Sort(o, [bob]) == [bob];
    assert Sort(o, [bob, alice]) == Insert(o, alice, [bob]) == [alice, bob];
    assert Insert(o, carol, [bob]) == [bob, carol];
    assert Insert(o, carol, [alice, bob]) == [alice] + Insert(o, carol, [bob]);
  }

  /** The default order falls back to the creation date when there is no friendship date. */
  lemma DefaultSortExample()
    ensures Sort(ByField(Default, Desc), [Edge("x", "X", 1, Some(2)), Edge("y", "Y", 5, None)])
         == [Edge("y", "Y", 5, None), Edge("x", "X", 1, Some(2))]
  {
    var x, y := Edge("x", "X", 1, Some(2)), Edge("y", "Y", 5, None);
    assert [x, y][..1] == [x];
  }
}
