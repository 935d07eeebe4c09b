// The big-picture screen's map of focusable elements: a tree of named nodes,
// each with a dotted focus index and the keys and buttons it answers to.
module FocusTree {
  import opened Common
  import opened Records

  /**
   * A keyboard key, a gamepad button, or a direction of a stick; as an entry
   * of a key set it may name several of them at once.
   */
  datatype KeyOrButton = KeyOrButton(key: Option<string>, button: Option<string>, stick: Option<string>, direction: Option<string>)

  function KeyPress(k: string): KeyOrButton {
    KeyOrButton(Some(k), None, None, None)
  }

  function ButtonPress(b: string): KeyOrButton {
    KeyOrButton(None, Some(b), None, None)
  }

  function StickMove(direction: string): KeyOrButton {
    KeyOrButton(None, None, Some("left"), Some(direction))
  }

  /** A JavaScript string is truthy when it is there and not empty. */
  predicate Truthy(v: Option<string>) {
    v.Some? && v.value != ""
  }

  /** The test inside `keyButtonSet.find(...)`: the entry `s` answers to the signal `kb`. */
  predicate Matches(s: KeyOrButton, kb: KeyOrButton) {
    (Truthy(kb.key) && s.key == kb.key)
    || (Truthy(kb.button) && s.button == kb.button)
    || (Truthy(kb.stick) && Truthy(kb.direction) && s.stick == kb.stick && s.direction == kb.direction)
  }

  /** Some entry of the key set answers to `kb`. */
  predicate Accepts(keyButtonSet: seq<KeyOrButton>, kb: KeyOrButton) {
    exists i | 0 <= i < |keyButtonSet| :: Matches(keyButtonSet[i], kb)
  }

  // ---------------------------------------------------------------------
  // The entries of the key sets

  function Both(k: string, b: string): KeyOrButton {
    KeyOrButton(Some(k), Some(b), None, None)
  }

  function Arrow(k: string, b: string, direction: string): KeyOrButton {
    KeyOrButton(Some(k), Some(b), Some("left"), Some(direction))
  }

  const UpEntry := Arrow("ArrowUp", "Up", "up")
  const DownEntry := Arrow("ArrowDown", "Down", "down")
  const LeftEntry := Arrow("ArrowLeft", "Left", "left")
  const RightEntry := Arrow("ArrowRight", "Right", "right")
  const TabEntry := Both("Tab", "LB")
  const EnterEntry := Both("Enter", "A")
  const EscapeEntry := Both("Escape", "B")
  const SpaceEntry := Both(" ", "View")
  const ShiftEntry := Both("Shift", "LT")
  const ShowAllEntry := Both("a", "RB")
  const MostPlayedEntry := Both("m", "Y")
  const NewOnesEntry := Both("n", "X")
  const MenuEntry := KeyOrButton(None, Some("Menu"), None, None)

  const MainSet := [UpEntry, DownEntry, LeftEntry, RightEntry, TabEntry, EscapeEntry,
                    SpaceEntry, ShiftEntry, ShowAllEntry, MostPlayedEntry, NewOnesEntry, MenuEntry]
  const GameSet := [UpEntry, DownEntry, LeftEntry, RightEntry, TabEntry, EnterEntry, EscapeEntry,
                    SpaceEntry, ShiftEntry, ShowAllEntry, MostPlayedEntry, NewOnesEntry, MenuEntry]
  const AsideSet := [UpEntry, DownEntry, TabEntry, EnterEntry, EscapeEntry,
                     SpaceEntry, ShiftEntry, ShowAllEntry, MostPlayedEntry, NewOnesEntry, MenuEntry]
  const ModalSet := [EnterEntry, EscapeEntry]
  const QuitSet := [EscapeEntry, EnterEntry, UpEntry, DownEntry]
  const SearchSet := [EscapeEntry, EnterEntry]
  const SortSet := [EscapeEntry, EnterEntry, ShiftEntry, UpEntry, DownEntry]

  // ---------------------------------------------------------------------
  // The tree

  /** What a focusable element carries: the game or collection it shows, if any. */
  datatype FocusData = NoData | GameItem(game: Game) | CollectionItem(collection: Collection)

  datatype Focusable = Focusable(
    name: string,
    focusIndex: string,
    keyButtonSet: seq<KeyOrButton>,
    data: FocusData,
    focusables: seq<Focusable>)

  /** The nodes of a forest in pre-order: each node, then its children, then its later siblings. */
  function PreOrder(items: seq<Focusable>): seq<Focusable>
    decreases items
  {
    if items == [] then [] else [items[0]] + PreOrder(items[0].focusables) + PreOrder(items[1..])
  }

  function HasIndex(idx: string): Focusable -> bool {
    (n: Focusable) => n.focusIndex == idx
  }

  function HasName(name: string): Focusable -> bool {
    (n: Focusable) => n.name == name
  }

  /** `findFocusable(focusables, currentIndex)`: a depth-first search with early return. */
  function FindFocusable(items: seq<Focusable>, idx: string): Option<Focusable>
    decreases items
  {
    if items == [] then None
    else if items[0].focusIndex == idx then Some(items[0])
    else
      var found := if |items[0].focusables| > 0 then FindFocusable(items[0].focusables, idx) else None;
      if found.Some? then found else FindFocusable(items[1..], idx)
  }

  /** The search finds the first node in pre-order with that index, and nothing when there is none. */
  lemma {:induction false} FindFocusableIsFirstInPreOrder(items: seq<Focusable>, idx: string)
    ensures FindFocusable(items, idx) == FirstWhere(PreOrder(items), HasIndex(idx))
    decreases items
  {
    if items != [] {
      var p := HasIndex(idx);
      var kids := PreOrder(items[0].focusables);
      var later := PreOrder(items[1..]);
      assert PreOrder(items) == [items[0]] + (kids + later);
      FirstWhereAppend([items[0]], kids + later, p);
      if items[0].focusIndex != idx {
        assert Filter([items[0]], p) == [];
        FindFocusableIsFirstInPreOrder(items[0].focusables, idx);
        FindFocusableIsFirstInPreOrder(items[1..], idx);
        FirstWhereAppend(kids, later, p);
      } else {
        assert Filter([items[0]], p) == [items[0]];
      }
    }
  }

  /** `getFocusIndexByName(name, focusables)`: an empty answer from the children counts as not found. */
  function GetFocusIndexByName(name: string, items: seq<Focusable>): string
    decreases items
  {
    if items == [] then ""
    else if items[0].name == name then items[0].focusIndex
    else
      var found := if |items[0].focusables| > 0 then GetFocusIndexByName(name, items[0].focusables) else "";
      if found != "" then found else GetFocusIndexByName(name, items[1..])
  }

  /** Every node of the forest has a non-empty focus index, as every node of the screen's map does. */
  predicate Indexed(items: seq<Focusable>) {
    forall n | n in PreOrder(items) :: n.focusIndex != ""
  }

  /** The index of the first node in pre-order with that name, or "" when there is none. */
  function FirstIndexNamed(name: string, items: seq<Focusable>): string {
    var first := FirstWhere(PreOrder(items), HasName(name));
    if first.None? then "" else first.value.focusIndex
  }

  /**
   * On a forest whose indexes are all non-empty, the lookup gives the index
   * of the first node in pre-order with that name, and "" exactly when no
   * node has that name.
   */
  lemma {:induction false} GetFocusIndexByNameIsFirstInPreOrder(name: string, items: seq<Focusable>)
    requires Indexed(items)
    ensures GetFocusIndexByName(name, items) == FirstIndexNamed(name, items)
    ensures GetFocusIndexByName(name, items) == "" <==> forall n | n in PreOrder(items) :: n.name != name
    decreases items
  {
    var p := HasName(name);
    FirstWhereIsFirstMatch(PreOrder(items), p);
    if items != [] {
      var kids := PreOrder(items[0].focusables);
      var later := PreOrder(items[1..]);
      assert PreOrder(items) == [items[0]] + (kids + later);
      FirstWhereAppend([items[0]], kids + later, p);
      if items[0].name != name {
        assert Filter([items[0]], p) == [];
        assert Indexed(items[0].focusables) by {
          forall n | n in kids ensures n.focusIndex != "" {
            assert n in PreOrder(items);
          }
        }
        assert Indexed(items[1..]) by {
          forall n | n in later ensures n.focusIndex != "" {
            assert n in PreOrder(items);
          }
        }
        GetFocusIndexByNameIsFirstInPreOrder(name, items[0].focusables);
        GetFocusIndexByNameIsFirstInPreOrder(name, items[1..]);
        FirstWhereAppend(kids, later, p);
        FirstWhereIsFirstMatch(kids, p);
        if FirstWhere(kids, p).Some? {
          var i :| 0 <= i < |kids| && kids[i] == FirstWhere(kids, p).value;
          assert kids[i] in PreOrder(items);
        }
      } else {
        assert Filter([items[0]], p) == [items[0]];
        assert items[0] in PreOrder(items);
      }
    }
  }

  // ---------------------------------------------------------------------
  // The screen's map

  /** The element of a filtered game: index `1.<position>`. */
  function GameNode(games: seq<Game>, i: nat): Focusable
    requires i < |games|
  {
    Focusable(games[i].name, "1." + NatToString(i + 1), GameSet, GameItem(games[i]), [])
  }

  function CollectionNode(collections: seq<Collection>, i: nat): Focusable
    requires i < |collections|
  {
    Focusable(collections[i].name, "2." + NatToString(i + 1), AsideSet, CollectionItem(collections[i]), [])
  }

  function GameNodes(games: seq<Game>): (r: seq<Focusable>)
    ensures |r| == |games|
  {
    seq(|games|, i requires 0 <= i < |games| => GameNode(games, i))
  }

  function CollectionNodes(collections: seq<Collection>): (r: seq<Focusable>)
    ensures |r| == |collections|
  {
    seq(|collections|, i requires 0 <= i < |collections| => CollectionNode(collections, i))
  }

  function Leaf(name: string, idx: string, keyButtonSet: seq<KeyOrButton>): Focusable {
    Focusable(name, idx, keyButtonSet, NoData, [])
  }

  const MessageNode := Leaf("MessageModal", "3", ModalSet)
  const HelpNode := Leaf("HelpModal", "4", ModalSet)
  const QuitNode := Focusable("QuitModal", "5", QuitSet, NoData, QuitOptions)
  const QuitOptions := [Leaf("Cancel", "5.1", QuitSet), Leaf("Help", "5.2", QuitSet),
                        Leaf("BackNormal", "5.3", QuitSet), Leaf("Quit", "5.4", QuitSet)]
  const SearchNode := Leaf("SearchModal", "6", SearchSet)
  const SortNode := Focusable("SortModal", "7", SortSet, NoData, SortOptions)
  const SortOptions := [Leaf("Alphabetic", "7.1", SortSet), Leaf("CreatedDate", "7.2", SortSet),
                        Leaf("MostPlayed", "7.3", SortSet), Leaf("RecentlyPlayed", "7.4", SortSet)]

  /** The modals, after the games and the collections. */
  const Modals := [MessageNode, HelpNode, QuitNode, SearchNode, SortNode]

  /** `uiMap`, built from the filtered games and the collections shown on the side. */
  function UiMap(filteredGames: seq<Game>, collections: seq<Collection>): seq<Focusable> {
    [Focusable("Main", "1", MainSet, NoData, GameNodes(filteredGames)),
     Focusable("Aside", "2", AsideSet, NoData, CollectionNodes(collections))]
    + Modals
  }

  /** A forest of leaves is its own pre-order. */
  lemma {:induction false} LeavesPreOrder(items: seq<Focusable>)
    requires forall i | 0 <= i < |items| :: items[i].focusables == []
    ensures PreOrder(items) == items
  {
    if items != [] {
      LeavesPreOrder(items[1..]);
      assert PreOrder(items[0].focusables) == [];
      assert items == [items[0]] + items[1..];
    }
  }

  /** The pre-order of the map: the games under "1", the collections under "2", then the modals. */
  lemma UiMapPreOrder(games: seq<Game>, collections: seq<Collection>)
    ensures PreOrder(UiMap(games, collections)) ==
      [UiMap(games, collections)[0]] + GameNodes(games)
      + [UiMap(games, collections)[1]] + CollectionNodes(collections)
      + PreOrder(Modals)
  {
    var m := UiMap(games, collections);
    LeavesPreOrder(GameNodes(games));
    LeavesPreOrder(CollectionNodes(collections));
    assert m[1..] == [m[1]] + Modals;
    assert m[1..][1..] == Modals;
    assert PreOrder(m) == [m[0]] + GameNodes(games) + PreOrder(m[1..]);
    assert PreOrder(m[1..]) == [m[1]] + CollectionNodes(collections) + PreOrder(Modals);
  }

  /** An index starting with neither '1' nor '2' is looked up among the modals alone. */
  lemma FindAmongModals(games: seq<Game>, collections: seq<Collection>, idx: string)
    requires idx != [] && idx[0] != '1' && idx[0] != '2'
    ensures FindFocusable(UiMap(games, collections), idx) == FindFocusable(Modals, idx)
  {
    var m := UiMap(games, collections);
    var p := HasIndex(idx);
    UiMapPreOrder(games, collections);
    FindFocusableIsFirstInPreOrder(m, idx);
    FindFocusableIsFirstInPreOrder(Modals, idx);
    var front := [m[0]] + GameNodes(games) + [m[1]] + CollectionNodes(collections);
    forall i | 0 <= i < |front| ensures !p(front[i]) {
      if 1 <= i <= |games| {
        assert front[i] == GameNode(games, i - 1);
        assert front[i].focusIndex[0] == '1';
      } else if |games| + 2 <= i {
        assert front[i] == CollectionNode(collections, i - |games| - 2);
        assert front[i].focusIndex[0] == '2';
      }
    }
    FirstWhereIsFirstMatch(front, p);
    FirstWhereAppend(front, PreOrder(Modals), p);
  }

  /** Two positions of one group have the same index text only when they are the same position. */
  lemma IndexTextInjective(group: string, i: nat, j: nat)
    requires group + "." + NatToString(i) == group + "." + NatToString(j)
    ensures i == j
  {
    var k := |group| + 1;
    assert NatToString(i) == (group + "." + NatToString(i))[k..];
    assert NatToString(j) == (group + "." + NatToString(j))[k..];
    ParseIntOfNatToString(i);
    ParseIntOfNatToString(j);
  }

  /** The first element of `nodes` with index `idx` is the `i`-th when none before it has that index. */
  lemma FirstWithIndex(nodes: seq<Focusable>, idx: string, i: nat)
    requires i < |nodes| && nodes[i].focusIndex == idx
    requires forall k | 0 <= k < i :: nodes[k].focusIndex != idx
    ensures FirstWhere(nodes, HasIndex(idx)) == Some(nodes[i])
  {
    var p := HasIndex(idx);
    var front := nodes[..i];
    var rest := nodes[i..];
    assert nodes == front + rest;
    FirstWhereIsFirstMatch(front, p);
    FirstWhereAppend(front, rest, p);
    assert rest == [nodes[i]] + rest[1..];
    FirstWhereAppend([nodes[i]], rest[1..], p);
    assert Filter([nodes[i]], p) == [nodes[i]];
  }

  /** Among leaves, the search finds the first element with the index. */
  lemma FindAmongLeaves(nodes: seq<Focusable>, idx: string, i: nat)
    requires i < |nodes| && nodes[i].focusIndex == idx
    requires forall k | 0 <= k < |nodes| :: nodes[k].focusables == []
    requires forall k | 0 <= k < i :: nodes[k].focusIndex != idx
    ensures FindFocusable(nodes, idx) == Some(nodes[i])
  {
    LeavesPreOrder(nodes);
    FindFocusableIsFirstInPreOrder(nodes, idx);
    FirstWithIndex(nodes, idx, i);
  }

  /** Index `1.k` is found among the game elements as the k-th of them. */
  lemma GameNodeFound(games: seq<Game>, i: nat)
    requires i < |games|
    ensures FindFocusable(GameNodes(games), "1." + NatToString(i + 1)) == Some(GameNode(games, i))
  {
    var nodes := GameNodes(games);
    forall k | 0 <= k < i ensures nodes[k].focusIndex != nodes[i].focusIndex {
      if nodes[k].focusIndex == nodes[i].focusIndex {
        assert "1." + NatToString(k + 1) == "1" + "." + NatToString(k + 1);
        assert "1." + NatToString(i + 1) == "1" + "." + NatToString(i + 1);
        IndexTextInjective("1", k + 1, i + 1);
      }
    }
    FindAmongLeaves(nodes, "1." + NatToString(i + 1), i);
  }

  /** Index `2.k` is found among the collection elements as the k-th of them. */
  lemma CollectionNodeFound(collections: seq<Collection>, i: nat)
    requires i < |collections|
    ensures FindFocusable(CollectionNodes(collections), "2." + NatToString(i + 1)) == Some(CollectionNode(collections, i))
  {
    var nodes := CollectionNodes(collections);
    forall k | 0 <= k < i ensures nodes[k].focusIndex != nodes[i].focusIndex {
      if nodes[k].focusIndex == nodes[i].focusIndex {
        assert "2." + NatToString(k + 1) == "2" + "." + NatToString(k + 1);
        assert "2." + NatToString(i + 1) == "2" + "." + NatToString(i + 1);
        IndexTextInjective("2", k + 1, i + 1);
      }
    }
    FindAmongLeaves(nodes, "2." + NatToString(i + 1), i);
  }

  /** An index outside the games' group is not found among the game elements. */
  lemma NotAmongGames(games: seq<Game>, idx: string)
    requires idx != [] && idx[0] != '1'
    ensures FindFocusable(GameNodes(games), idx) == None
  {
    var nodes := GameNodes(games);
    LeavesPreOrder(nodes);
    FindFocusableIsFirstInPreOrder(nodes, idx);
    forall k | 0 <= k < |nodes| ensures !HasIndex(idx)(nodes[k]) {
      assert nodes[k].focusIndex[0] == '1';
    }
    FirstWhereIsFirstMatch(nodes, HasIndex(idx));
  }

  /** Index `1.k`, for k from 1 to the number of filtered games, designates the k-th of them. */
  lemma FocusOnGame(games: seq<Game>, collections: seq<Collection>, i: nat)
    requires i < |games|
    ensures FindFocusable(UiMap(games, collections), "1." + NatToString(i + 1)) == Some(GameNode(games, i))
    ensures FindFocusable([UiMap(games, collections)[0]], "1." + NatToString(i + 1)) == Some(GameNode(games, i))
    ensures GameNode(games, i).data == GameItem(games[i])
  {
    GameNodeFound(games, i);
  }

  /** Index `2.k`, for k from 1 to the number of collections shown, designates the k-th of them. */
  lemma FocusOnCollection(games: seq<Game>, collections: seq<Collection>, i: nat)
    requires i < |collections|
    ensures FindFocusable(UiMap(games, collections), "2." + NatToString(i + 1)) == Some(CollectionNode(collections, i))
    ensures FindFocusable([UiMap(games, collections)[1]], "2." + NatToString(i + 1)) == Some(CollectionNode(collections, i))
    ensures CollectionNode(collections, i).data == CollectionItem(collections[i])
  {
    var m := UiMap(games, collections);
    var idx := "2." + NatToString(i + 1);
    NotAmongGames(games, idx);
    CollectionNodeFound(collections, i);
    assert m[1..] == [m[1]] + m[2..];
  }

  const ModalNodes := [MessageNode, HelpNode, QuitNode] + QuitOptions + [SearchNode, SortNode] + SortOptions

  /** Every index among the modals starts with a digit from 3 to 7. */
  lemma ModalIndexes()
    ensures forall n | n in PreOrder(Modals) :: n.focusIndex != [] && '3' <= n.focusIndex[0] <= '7'
  {
    ModalsPreOrder();
    var ns := ModalNodes;
    assert |ns| == 13;
    forall k | 0 <= k < 13 ensures ns[k].focusIndex != [] && '3' <= ns[k].focusIndex[0] <= '7' {
      if k < 3 {
        assert ns[k] == [MessageNode, HelpNode, QuitNode][k];
      } else if k < 7 {
        assert ns[k] == QuitOptions[k - 3];
      } else if k < 9 {
        assert ns[k] == [SearchNode, SortNode][k - 7];
      } else {
        assert ns[k] == SortOptions[k - 9];
      }
    }
  }

  /** The modals in pre-order, with the options of the quit and sort modals under them. */
  lemma ModalsPreOrder()
    ensures PreOrder(Modals) == ModalNodes
  {
    assert QuitNode.focusables == QuitOptions && SortNode.focusables == SortOptions;
    LeavesPreOrder(QuitOptions);
    LeavesPreOrder(SortOptions);
    PreOrderOfFive(MessageNode, HelpNode, QuitNode, SearchNode, SortNode);
  }

  /** The pre-order of five nodes of which only the third and the fifth have children. */
  lemma PreOrderOfFive(a: Focusable, b: Focusable, c: Focusable, d: Focusable, e: Focusable)
    requires a.focusables == [] && b.focusables == [] && d.focusables == []
    ensures PreOrder([a, b, c, d, e]) ==
      [a, b, c] + PreOrder(c.focusables) + [d, e] + PreOrder(e.focusables)
  {
    var m := [a, b, c, d, e];
    PreOrderOfLeafThen(d, e);
    assert m[3..] == [d, e];
    PreOrderFrom(m, 2);
    PreOrderFrom(m, 1);
    PreOrderFrom(m, 0);
    var pc, pe := PreOrder(c.focusables), PreOrder(e.focusables);
    assert PreOrder(m[2..]) == [c] + pc + [d, e] + pe;
  }

  /** The pre-order of a leaf followed by one tree. */
  lemma PreOrderOfLeafThen(d: Focusable, e: Focusable)
    requires d.focusables == []
    ensures PreOrder([d, e]) == [d, e] + PreOrder(e.focusables)
  {
    var m := [d, e];
    PreOrderFrom(m, 1);
    PreOrderFrom(m, 0);
    assert m[2..] == [];
  }

  /** The pre-order of a forest from its `k`-th tree on. */
  lemma PreOrderFrom(m: seq<Focusable>, k: nat)
    requires k < |m|
    ensures PreOrder(m[k..]) == [m[k]] + PreOrder(m[k].focusables) + PreOrder(m[k + 1..])
  {
    assert m[k..][1..] == m[k + 1..];
  }

  /** With no filtered game there is no element "1.1": the initial focus answers to nothing. */
  lemma NoGamesNoFirstGame(collections: seq<Collection>)
    ensures FindFocusable(UiMap([], collections), "1.1") == None
  {
    var m := UiMap([], collections);
    var p := HasIndex("1.1");
    UiMapPreOrder([], collections);
    ModalIndexes();
    FindFocusableIsFirstInPreOrder(m, "1.1");
    var all := PreOrder(m);
    forall k | 0 <= k < |all| ensures !p(all[k]) {
      if 2 <= k < |collections| + 2 {
        assert all[k] == CollectionNode(collections, k - 2);
        assert all[k].focusIndex[0] == '2';
      } else if k >= |collections| + 2 {
        assert all[k] == PreOrder(Modals)[k - |collections| - 2];
        assert all[k] in PreOrder(Modals);
      }
    }
    FirstWhereIsFirstMatch(all, p);
  }

  /** The indexes of the modal elements, in pre-order. */
  const ModalIndexList := ["3", "4", "5", "5.1", "5.2", "5.3", "5.4", "6", "7", "7.1", "7.2", "7.3", "7.4"]

  /** The modal elements carry the indexes of the list, in order. */
  lemma ModalIndexesListed()
    ensures |ModalNodes| == |ModalIndexList| == 13
    ensures forall j | 0 <= j < 13 :: ModalNodes[j].focusIndex == ModalIndexList[j]
  {
    var ns := ModalNodes;
    forall j | 0 <= j < 13 ensures ns[j].focusIndex == ModalIndexList[j] {
      if j < 3 {
        assert ns[j] == [MessageNode, HelpNode, QuitNode][j];
      } else if j < 7 {
        assert ns[j] == QuitOptions[j - 3];
      } else if j < 9 {
        assert ns[j] == [SearchNode, SortNode][j - 7];
      } else {
        assert ns[j] == SortOptions[j - 9];
      }
    }
  }

  /** No index of the list repeats an earlier one. */
  lemma ModalIndexesDistinct(k: nat)
    requires k < |ModalIndexList|
    ensures forall j | 0 <= j < k :: ModalIndexList[j] != ModalIndexList[k]
  {
  }

  /** Every modal element is found by its index, anywhere in the screen's map. */
  lemma ModalFound(games: seq<Game>, collections: seq<Collection>, k: nat)
    requires k < |ModalNodes|
    ensures ModalNodes[k].focusIndex == ModalIndexList[k]
    ensures FindFocusable(UiMap(games, collections), ModalIndexList[k]) == Some(ModalNodes[k])
  {
    var ns := ModalNodes;
    var idx := ModalIndexList[k];
    ModalIndexesListed();
    ModalIndexesDistinct(k);
    ModalsPreOrder();
    FindAmongModals(games, collections, idx);
    FindFocusableIsFirstInPreOrder(Modals, idx);
    FirstWithIndex(ns, idx, k);
  }
}
