/**
 * The rich-text editor's pure rules: the mention suggestion filter, the
 * selection index arithmetic of the suggestion list, the key handling and the
 * character-limit gate; and the `MentionList` popup object itself.
 */
module RichTextEditor {
  import opened Wrappers
  import opened JsString

  // ---------------------------------------------------------------- suggestions

  datatype MentionUser = MentionUser(id: string, labelText: string, nickname: string)

  /** The fixed users mentions are suggested from. */
  const MockUsers: seq<MentionUser> := [
    MentionUser("1", "Jo\U{E3}o Silva", "joao-silva"),
    MentionUser("2", "Maria Santos", "maria-santos"),
    MentionUser("3", "Pedro Costa", "pedro-costa"),
    MentionUser("4", "Ana Oliveira", "ana-oliveira"),
    MentionUser("5", "Carlos Ferreira", "carlos-ferreira")
  ]

  /** At most this many suggestions are shown. */
  const MaxSuggestions: nat := 5

  /** A user matches when its label or nickname contains the query, ignoring case. */
  predicate Matches(u: MentionUser, query: string) {
    Includes(Lower(u.labelText), Lower(query)) || Includes(Lower(u.nickname), Lower(query))
  }

  /** `users.filter(...)`: the matching users in list order. */
  function MatchingUsers(users: seq<MentionUser>, query: string): (r: seq<MentionUser>)
    ensures forall u :: u in r <==> u in users && Matches(u, query)
    ensures |r| <= |users|
  {
    if users == [] then []
    else if Matches(users[0], query) then [users[0]] + MatchingUsers(users[1..], query)
    else MatchingUsers(users[1..], query)
  }

  /** `s` keeps its elements in the order they have in `t`. */
  predicate IsSubsequence<T(==)>(s: seq<T>, t: seq<T>) {
    s == [] || (t != [] && (if s[0] == t[0] then IsSubsequence(s[1..], t[1..]) else IsSubsequence(s, t[1..])))
  }

  lemma {:induction false} MatchingUsersInOrder(users: seq<MentionUser>, query: string)
    ensures IsSubsequence(MatchingUsers(users, query), users)
  {
    if users != [] {
      MatchingUsersInOrder(users[1..], query);
      var rest := MatchingUsers(users[1..], query);
      if !Matches(users[0], query) && rest != [] {
        assert rest[0] in users[1..];
      }
    }
  }

  lemma {:induction false} SubsequencePrefix<T>(s: seq<T>, t: seq<T>, n: nat)
    requires IsSubsequence(s, t)
    ensures IsSubsequence(Take(s, n), t)
  {
    if s != [] && n > 0 && t != [] {
      if s[0] == t[0] {
        SubsequencePrefix(s[1..], t[1..], n - 1);
        assert Take(s, n)[1..] == Take(s[1..], n - 1);
      } else {
        SubsequencePrefix(s, t[1..], n);
      }
    }
  }

  /** `suggestion.items({query})`. */
  function Suggestions(query: string): (r: seq<MentionUser>)
  {
    Take(MatchingUsers(MockUsers, query), MaxSuggestions)
  }

  /**
   * The suggestions are mock users that match the query, in list order, at
   * most five; when fewer than five are shown, every matching user is shown.
   */
  lemma SuggestionsSpec(query: string)
    ensures |Suggestions(query)| <= MaxSuggestions
    ensures forall u :: u in Suggestions(query) ==> u in MockUsers && Matches(u, query)
    ensures IsSubsequence(Suggestions(query), MockUsers)
    ensures |Suggestions(query)| < MaxSuggestions ==>
              forall u :: u in MockUsers && Matches(u, query) ==> u in Suggestions(query)
  {
    var all := MatchingUsers(MockUsers, query);
    MatchingUsersInOrder(MockUsers, query);
    SubsequencePrefix(all, MockUsers, MaxSuggestions);
    forall u | u in Suggestions(query) ensures u in MockUsers && Matches(u, query) {
      var i :| 0 <= i < |Suggestions(query)| && Suggestions(query)[i] == u;
      assert u == all[i];
    }
  }

  /** With an empty query every mock user is suggested. */
  lemma EmptyQuerySuggestsAll()
    ensures Suggestions("") == MockUsers
  {
    forall u | u in MockUsers ensures Matches(u, "") {
      IncludesEmpty(Lower(u.labelText));
    }
    MatchingAll(MockUsers, "");
  }

  lemma {:induction false} MatchingAll(users: seq<MentionUser>, query: string)
    requires forall u :: u in users ==> Matches(u, query)
    ensures MatchingUsers(users, query) == users
  {
    if users != [] {
      MatchingAll(users[1..], query);
    }
  }

  /** Matching ignores case: an upper-case query finds the user with that surname. */
  lemma UpperCaseQueryMatches()
    ensures Matches(MockUsers[1], "SANTOS")
  {
    var query, name := "SANTOS", "Maria Santos";
    assert MockUsers[1].labelText == name;
    forall i | 0 <= i < |query| ensures Lower(query)[i] == "santos"[i] { }
    assert Lower(query) == "santos";
    forall i | 0 <= i < |name| ensures Lower(name)[i] == ("maria " + "santos" + "")[i] { }
    assert Lower(name) == "maria " + "santos" + "";
    IncludesPiece("maria ", "santos", "");
  }

  /** A user whose label and nickname both lack a letter of the query does not match. */
  lemma UnrelatedQueryFails()
    ensures !Matches(MockUsers[0], "SANTOS")
  {
    var query, name, nickname := "SANTOS", "Jo\U{E3}o Silva", "joao-silva";
    assert MockUsers[0].labelText == name && MockUsers[0].nickname == nickname;
    forall i | 0 <= i < |query| ensures Lower(query)[i] == "santos"[i] { }
    assert Lower(query) == "santos";
    forall i | 0 <= i < |name| ensures Lower(name)[i] != 'n' { }
    forall i | 0 <= i < |nickname| ensures Lower(nickname)[i] != 'n' { }
    if Includes(Lower(name), "santos") {
      IncludesChars(Lower(name), "santos", 'n');
    }
    if Includes(Lower(nickname), "santos") {
      IncludesChars(Lower(nickname), "santos", 'n');
    }
  }

  // ---------------------------------------------------------------- character limit

  /** The limit when the editor is given none. */
  const DefaultMaxLength: int := 160

  function EffectiveMaxLength(maxLength: Option<int>): int {
    maxLength.GetOr(DefaultMaxLength)
  }

  /** What an editor update produces: the new character count and whether `onChange` fires. */
  datatype EditorUpdate = EditorUpdate(characterCount: nat, notify: bool)

  /** `onUpdate`: counts the characters of the text and passes the HTML on within the limit. */
  function OnUpdate(text: string, maxLength: Option<int>): (u: EditorUpdate)
    ensures u.characterCount == |text|
    ensures u.notify <==> |text| <= EffectiveMaxLength(maxLength)
  {
    var count := |text|;
    EditorUpdate(count, count <= EffectiveMaxLength(maxLength))
  }

  /** The counter shows over-limit when the count exceeds the limit. */
  predicate IsOverLimit(characterCount: int, maxLength: Option<int>) {
    characterCount > EffectiveMaxLength(maxLength)
  }

  /** After an update `onChange` fired exactly when the counter is not over the limit. */
  lemma NotifyUnlessOverLimit(text: string, maxLength: Option<int>)
    ensures OnUpdate(text, maxLength).notify <==> !IsOverLimit(OnUpdate(text, maxLength).characterCount, maxLength)
    ensures maxLength.None? ==> (OnUpdate(text, maxLength).notify <==> |text| <= 160)
  {
  }

  // ---------------------------------------------------------------- selection index

  /** A JavaScript number as the selection index can hold it: an integer or NaN. */
  datatype JsNumber = Num(value: int) | NaN

  /** JavaScript's `%`: the remainder truncates toward zero, and `x % 0` is NaN. */
  function Rem(a: int, n: int): (r: JsNumber)
    ensures n != 0 && a >= 0 ==> r == Num(a % n)
    ensures n == 0 ==> r == NaN
  {
    if n == 0 then NaN
    else if a >= 0 then Num(a % (if n < 0 then -n else n))
    else Num(-((-a) % (if n < 0 then -n else n)))
  }

  /** `upHandler`: `((i + n) - 1) % n`. */
  function Up(i: JsNumber, n: nat): (r: JsNumber)
    ensures n > 0 && i.Num? && 0 <= i.value < n ==> r.Num? && 0 <= r.value < n
    ensures n > 0 && i.Num? && 0 < i.value < n ==> r == Num(i.value - 1)
    ensures n > 0 && i == Num(0) ==> r == Num(n - 1)
    ensures n == 0 || i.NaN? ==> r.NaN?
  {
    match i
    case NaN => NaN
    case Num(v) => Rem(v + n - 1, n)
  }

  /** `downHandler`: `(i + 1) % n`. */
  function Down(i: JsNumber, n: nat): (r: JsNumber)
    ensures n > 0 && i.Num? && 0 <= i.value < n ==> r.Num? && 0 <= r.value < n
    ensures n > 0 && i.Num? && 0 <= i.value < n - 1 ==> r == Num(i.value + 1)
    ensures n > 0 && i == Num(n - 1) ==> r == Num(0)
    ensures n == 0 || i.NaN? ==> r.NaN?
  {
    match i
    case NaN => NaN
    case Num(v) => Rem(v + 1, n)
  }

  /** Moving down and then up, or up and then down, returns to the same index. */
  lemma UpDownInverse(i: int, n: nat)
    requires 0 <= i < n
    ensures Up(Down(Num(i), n), n) == Num(i)
    ensures Down(Up(Num(i), n), n) == Num(i)
  {
  }

  /** `items[index]`: the item at an integral in-range index, otherwise undefined. */
  function ItemAt(items: seq<MentionUser>, index: JsNumber): (r: Option<MentionUser>)
    ensures r.Some? <==> index.Num? && 0 <= index.value < |items|
    ensures r.Some? ==> r.value == items[index.value]
  {
    if index.Num? && 0 <= index.value < |items| then Some(items[index.value]) else None
  }

  /** What `command` receives for a selected item. */
  datatype MentionAttrs = MentionAttrs(id: string, labelText: string)

  /** The key presses the list consumes. */
  predicate IsNavigationKey(key: string) {
    key == "ArrowUp" || key == "ArrowDown" || key == "Enter"
  }

  // ---------------------------------------------------------------- the popup list

  /**
   * The suggestion popup. `command` identifies the callback the editor passed
   * in; `commands` records, in order, every call made to a callback, with the
   * callback called and the attributes passed.
   */
  class MentionList {
    var items: seq<MentionUser>
    var command: nat
    var selectedIndex: JsNumber
    var commands: seq<(nat, MentionAttrs)>

    /** The index of a freshly created or updated list is 0, and stays in range under navigation. */
    predicate IndexInRange()
      reads this
    {
      selectedIndex.Num? && 0 <= selectedIndex.value && (selectedIndex.value < |items| || selectedIndex.value == 0)
    }

    constructor (items: seq<MentionUser>, command: nat)
      ensures this.items == items && this.command == command
      ensures selectedIndex == Num(0) && commands == []
      ensures IndexInRange()
    {
      this.items := items;
      this.command := command;
      selectedIndex := Num(0);
      commands := [];
    }

    method UpdateProps(items: seq<MentionUser>, command: nat)
      modifies this
      ensures this.items == items && this.command == command
      ensures selectedIndex == Num(0) && commands == old(commands)
      ensures IndexInRange()
    {
      this.items := items;
      this.command := command;
      selectedIndex := Num(0);
    }

    method UpHandler()
      modifies this
      ensures selectedIndex == Up(old(selectedIndex), |items|)
      ensures items == old(items) && command == old(command) && commands == old(commands)
      ensures old(IndexInRange()) && items != [] ==> IndexInRange()
    {
      selectedIndex := Up(selectedIndex, |items|);
    }

    method DownHandler()
      modifies this
      ensures selectedIndex == Down(old(selectedIndex), |items|)
      ensures items == old(items) && command == old(command) && commands == old(commands)
      ensures old(IndexInRange()) && items != [] ==> IndexInRange()
    {
      selectedIndex := Down(selectedIndex, |items|);
    }

    /** Calls the current callback with the item's id and name, when there is such an item. */
    method SelectItem(index: JsNumber)
      modifies this
      ensures items == old(items) && command == old(command) && selectedIndex == old(selectedIndex)
      ensures commands == match ItemAt(items, index)
                          case Some(u) => old(commands) + [(command, MentionAttrs(u.id, u.labelText))]
                          case None => old(commands)
    {
      var item := ItemAt(items, index);
      if item.Some? {
        commands := commands + [(command, MentionAttrs(item.value.id, item.value.labelText))];
      }
    }

    method EnterHandler()
      modifies this
      ensures items == old(items) && command == old(command) && selectedIndex == old(selectedIndex)
      ensures commands == match ItemAt(items, selectedIndex)
                          case Some(u) => old(commands) + [(command, MentionAttrs(u.id, u.labelText))]
                          case None => old(commands)
    {
      SelectItem(selectedIndex);
    }

    /** Consumes the arrow keys and Enter; every other key is passed back untouched. */
    method OnKeyDown(key: string) returns (handled: bool)
      modifies this
      ensures handled <==> IsNavigationKey(key)
      ensures items == old(items) && command == old(command)
      ensures selectedIndex == (if key == "ArrowUp" then Up(old(selectedIndex), |items|)
                                else if key == "ArrowDown" then Down(old(selectedIndex), |items|)
                                else old(selectedIndex))
      ensures commands == (if key == "Enter" && ItemAt(items, selectedIndex).Some?
                           then old(commands) + [(command, MentionAttrs(ItemAt(items, selectedIndex).value.id,
                                                                        ItemAt(items, selectedIndex).value.labelText))]
                           else old(commands))
    {
      if key == "ArrowUp" {
        UpHandler();
        return true;
      }
      if key == "ArrowDown" {
        DownHandler();
        return true;
      }
      if key == "Enter" {
        EnterHandler();
        return true;
      }
      return false;
    }
  }

  /**
   * A client of the popup. On an empty list ArrowDown turns the index into
   * NaN and Enter calls nothing; after the props change to the five
   * suggestions for the empty query, ArrowUp wraps round to the last one,
   * Enter calls the new callback with it, and Escape is not handled.
   */
  method EmptyListClient() returns (emptyIndex: JsNumber, emptyCalls: seq<(nat, MentionAttrs)>,
                                    wrappedIndex: JsNumber, calls: seq<(nat, MentionAttrs)>, escapeHandled: bool)
    ensures emptyIndex == NaN && emptyCalls == []
    ensures wrappedIndex == Num(4) && calls == [(8, MentionAttrs("5", "Carlos Ferreira"))]
    ensures !escapeHandled
  {
    var list := new MentionList([], 7);
    var handled := list.OnKeyDown("ArrowDown");
    emptyIndex := list.selectedIndex;
    handled := list.OnKeyDown("Enter");
    emptyCalls := list.commands;
    list.UpdateProps(Suggestions(""), 8);
    EmptyQuerySuggestsAll();
    handled := list.OnKeyDown("ArrowUp");
    wrappedIndex := list.selectedIndex;
    handled := list.OnKeyDown("Enter");
    calls := list.commands;
    escapeHandled := list.OnKeyDown("Escape");
  }
}
