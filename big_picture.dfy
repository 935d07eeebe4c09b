// The big-picture screen's controller: one key, button or stick signal is
// checked against the focused element's key set and then runs the branches
// of the dispatcher. Every branch tests the focus index as it was before the
// signal; the arrow branches update it from the value already pending.
module BigPicture {
  import opened Common
  import opened Records
  import opened FocusIndex
  import opened FocusTree
  import opened GameFilter
  import Home
  import GameRepository
  import Cascades

  datatype MessageModal = MessageModal(show: bool, message: string, closeButton: bool)

  /** The screen's state variables. */
  datatype Screen = Screen(
    focusIndex: string,
    showLeftSide: bool,
    helpModalShow: bool,
    quitModalShow: bool,
    searchModalShow: bool,
    sortModalShow: bool,
    messageModal: MessageModal,
    selectedCollection: Option<Collection>,
    games: seq<Game>,
    filteredGames: seq<Game>,
    filterData: FilterData,
    gameSortData: SortData)

  /** The state the screen starts in, over the games the data provider holds. */
  function InitialScreen(games: seq<Game>): Screen {
    Screen("1.1", false, false, false, false, false, MessageModal(false, "", true),
           None, games, [], DefaultFilterData, DefaultSortData)
  }

  /** What an accepted signal sets off besides the state change. */
  datatype Action = Stay | RunGame(game: Game) | GoHome | QuitApp

  /**
   * `Ignored`: the dispatcher does not run (no signal, or the intro still
   * plays); `Refused`: the invalid sound plays and nothing changes.
   */
  datatype Outcome = Ignored | Refused | Accepted(action: Action)

  // ---------------------------------------------------------------------
  // Which branch a signal selects

  predicate IsMenu(kb: KeyOrButton) { kb.button == Some("Menu") }
  predicate IsBack(kb: KeyOrButton) { kb.key == Some("Escape") || kb.button == Some("B") }
  predicate IsSearch(kb: KeyOrButton) { kb.key == Some(" ") || kb.button == Some("View") }
  predicate IsSort(kb: KeyOrButton) { kb.key == Some("Shift") || kb.button == Some("LT") }
  predicate IsShowAll(kb: KeyOrButton) { kb.key == Some("a") || kb.button == Some("RB") }
  predicate IsMostPlayed(kb: KeyOrButton) { kb.key == Some("m") || kb.button == Some("Y") }
  predicate IsNewOnes(kb: KeyOrButton) { kb.key == Some("n") || kb.button == Some("X") }
  predicate IsSelect(kb: KeyOrButton) { kb.key == Some("Enter") || kb.button == Some("A") }
  predicate IsToggle(kb: KeyOrButton) { kb.key == Some("Tab") || kb.button == Some("LB") }

  predicate IsDirection(kb: KeyOrButton, key: string, button: string, direction: string) {
    kb.key == Some(key) || kb.button == Some(button) || (kb.stick == Some("left") && kb.direction == Some(direction))
  }

  predicate IsDown(kb: KeyOrButton) { IsDirection(kb, "ArrowDown", "Down", "down") }
  predicate IsUp(kb: KeyOrButton) { IsDirection(kb, "ArrowUp", "Up", "up") }
  predicate IsRight(kb: KeyOrButton) { IsDirection(kb, "ArrowRight", "Right", "right") }
  predicate IsLeft(kb: KeyOrButton) { IsDirection(kb, "ArrowLeft", "Left", "left") }

  /** The focus is on a game or on a collection (or on their groups). */
  predicate OnList(focus: string) {
    StartsWith(focus, "1") || StartsWith(focus, "2")
  }

  /** The dispatcher runs only for a signal with something in it, once the intro is over. */
  predicate GateOpen(kb: KeyOrButton, introFinish: bool) {
    (Truthy(kb.key) || Truthy(kb.button) || Truthy(kb.stick)) && introFinish
  }

  /** The focused element exists and answers to the signal. */
  predicate Answers(o: Screen, kb: KeyOrButton, collections: seq<Collection>) {
    var node := FindFocusable(UiMap(o.filteredGames, collections), o.focusIndex);
    node.Some? && Accepts(node.value.keyButtonSet, kb)
  }

  // ---------------------------------------------------------------------
  // The branches: conditions read the old state `o`, updates apply to the pending state `p`

  function MenuBranch(o: Screen, p: Screen, kb: KeyOrButton): (r: Screen)
    ensures r.games == p.games && r.filteredGames == p.filteredGames
  {
    if IsMenu(kb) && OnList(o.focusIndex) then
      p.(showLeftSide := if o.showLeftSide then false else p.showLeftSide,
         focusIndex := "5.1", quitModalShow := true)
    else p
  }

  /** Escape or B on the help modal closes it; on the games it opens the quit modal. */
  function BackOnHelpOrGames(o: Screen, p: Screen): (r: Screen)
    ensures r.games == p.games && r.filteredGames == p.filteredGames
  {
    var f := o.focusIndex;
    var p1 := if f == "4" then p.(focusIndex := "1.1", helpModalShow := false) else p;
    if StartsWith(f, "1") then
      p1.(showLeftSide := if o.showLeftSide then false else p1.showLeftSide,
          focusIndex := "5.1", quitModalShow := true)
    else p1
  }

  /** Escape or B on the quit, message, search or sort modal or on the collections closes them. */
  function BackClosesModal(f: string, p: Screen): (r: Screen)
    ensures r.games == p.games && r.filteredGames == p.filteredGames
  {
    var p1 := if StartsWith(f, "5") then p.(focusIndex := "1.1", quitModalShow := false) else p;
    var p2 := if StartsWith(f, "3") then p1.(focusIndex := "1.1", messageModal := p1.messageModal.(show := false)) else p1;
    var p3 := if StartsWith(f, "2") then p2.(focusIndex := "1.1", showLeftSide := false) else p2;
    var p4 := if StartsWith(f, "6") then p3.(focusIndex := "1.1", searchModalShow := false) else p3;
    if StartsWith(f, "7") then p4.(focusIndex := "1.1", sortModalShow := false) else p4
  }

  function BackBranch(o: Screen, p: Screen, kb: KeyOrButton): (r: Screen)
    ensures r.games == p.games && r.filteredGames == p.filteredGames
  {
    if !IsBack(kb) then p else BackClosesModal(o.focusIndex, BackOnHelpOrGames(o, p))
  }

  function SearchBranch(o: Screen, p: Screen, kb: KeyOrButton): (r: Screen)
    ensures r.games == p.games && r.filteredGames == p.filteredGames
  {
    if IsSearch(kb) && OnList(o.focusIndex) then p.(focusIndex := "6", searchModalShow := true) else p
  }

  function SortBranch(o: Screen, p: Screen, kb: KeyOrButton): (r: Screen)
    ensures r.games == p.games && r.filteredGames == p.filteredGames
  {
    if !IsSort(kb) then p
    else
      var p1 := if OnList(o.focusIndex) then p.(focusIndex := "7.1", sortModalShow := true) else p;
      if StartsWith(o.focusIndex, "7") then p1.(focusIndex := "1.1", sortModalShow := false) else p1
  }

  /** The three quick filters: they drop the selected collection and show a short message. */
  function QuickFilter(p: Screen, filter: FilterData, message: string): Screen {
    p.(selectedCollection := None, filterData := filter, messageModal := MessageModal(true, message, false))
  }

  function ShowAllBranch(p: Screen, kb: KeyOrButton): (r: Screen)
    ensures r.games == p.games && r.filteredGames == p.filteredGames
  {
    if IsShowAll(kb) then
      QuickFilter(p, DefaultFilterData, "Displaying all games").(gameSortData := DefaultSortData)
    else p
  }

  function MostPlayedBranch(p: Screen, kb: KeyOrButton): (r: Screen)
    ensures r.games == p.games && r.filteredGames == p.filteredGames
  {
    if IsMostPlayed(kb) then
      QuickFilter(p, DefaultFilterData.(mostPlayedOnes := Some(true)), "Displaying most played games")
    else p
  }

  function NewOnesBranch(p: Screen, kb: KeyOrButton): (r: Screen)
    ensures r.games == p.games && r.filteredGames == p.filteredGames
  {
    if IsNewOnes(kb) then
      QuickFilter(p, DefaultFilterData.(newOnes := Some(true)), "Displaying new games")
    else p
  }

  /** The game the focus designates: looked up in the "Main" group alone. */
  function FocusedGame(o: Screen, collections: seq<Collection>): Option<Game> {
    var node := FindFocusable([UiMap(o.filteredGames, collections)[0]], o.focusIndex);
    if node.Some? && node.value.data.GameItem? then Some(node.value.data.game) else None
  }

  function FocusedCollection(o: Screen, collections: seq<Collection>): Option<Collection> {
    var node := FindFocusable([UiMap(o.filteredGames, collections)[1]], o.focusIndex);
    if node.Some? && node.value.data.CollectionItem? then Some(node.value.data.collection) else None
  }

  /** Choosing a sort option flips the direction whatever the old sort type was. */
  function SortChosen(p: Screen, sortType: OrderType): Screen {
    p.(gameSortData := SortData(sortType, Flipped(p.gameSortData.direction)),
       focusIndex := "1.1", sortModalShow := false)
  }

  datatype Selection = Selection(screen: Screen, action: Action)

  /** The select branch on a collection: it becomes the filter, and the focus returns to the games. */
  function CollectionChoice(o: Screen, p: Screen, collections: seq<Collection>): (r: Screen)
    ensures r.games == p.games && r.filteredGames == p.filteredGames
  {
    var collection := if StartsWith(o.focusIndex, "2") then FocusedCollection(o, collections) else None;
    if collection.Some? then
      p.(selectedCollection := collection,
         filterData := p.filterData.(allGames := AllGamesCollection, collection := collection,
                                     mostPlayedOnes := None, newOnes := None, searchQuery := None),
         showLeftSide := false, focusIndex := "1.1")
    else p
  }

  /** The select branch on the message modal, the help modal and the first two quit options. */
  function ModalChoice(f: string, p: Screen): (r: Screen)
    ensures r.games == p.games && r.filteredGames == p.filteredGames
  {
    var p1 := if StartsWith(f, "3") then p.(messageModal := p.messageModal.(show := false), focusIndex := "1.1") else p;
    var p2 := if StartsWith(f, "4") then p1.(focusIndex := "1.1", helpModalShow := false) else p1;
    var p3 := if f == "5.1" then p2.(focusIndex := "1.1", quitModalShow := false) else p2;
    if f == "5.2" then p3.(focusIndex := "4", helpModalShow := true, quitModalShow := false) else p3
  }

  /** The last two quit options leave for the home screen or quit. */
  function QuitChoice(f: string): Action {
    if f == "5.3" then GoHome else if f == "5.4" then QuitApp else Stay
  }

  /** The select branch on the sort modal's options. */
  function SortChoice(f: string, p: Screen): (r: Screen)
    ensures r.games == p.games && r.filteredGames == p.filteredGames
  {
    var p1 := if f == "7.1" then SortChosen(p, Alphabetic) else p;
    var p2 := if f == "7.2" then SortChosen(p1, CreatedAt) else p1;
    var p3 := if f == "7.3" then SortChosen(p2, MostPlayed) else p2;
    if f == "7.4" then SortChosen(p3, RecentlyPlayed) else p3
  }

  /** Enter or A. Running a game returns from the dispatcher at once. */
  function SelectBranch(o: Screen, p: Screen, kb: KeyOrButton, collections: seq<Collection>): (r: Selection)
    ensures r.screen.games == p.games && r.screen.filteredGames == p.filteredGames
  {
    if !IsSelect(kb) then Selection(p, Stay)
    else
      var f := o.focusIndex;
      var game := if StartsWith(f, "1") then FocusedGame(o, collections) else None;
      if game.Some? then Selection(p, RunGame(game.value))
      else Selection(SortChoice(f, ModalChoice(f, CollectionChoice(o, p, collections))), QuitChoice(f))
  }

  function ToggleBranch(o: Screen, p: Screen, kb: KeyOrButton, collections: seq<Collection>): (r: Screen)
    ensures r.games == p.games && r.filteredGames == p.filteredGames
  {
    if !IsToggle(kb) then p
    else
      var p1 := if StartsWith(o.focusIndex, "1") && |collections| > 0 then p.(focusIndex := "2.1", showLeftSide := true) else p;
      if StartsWith(o.focusIndex, "2") then p1.(focusIndex := "1.1", showLeftSide := false) else p1
  }

  /** The functional update of the down branch: by one in collections and menus, by a row of four in games. */
  function Down(prev: string, games: nat, collections: nat): string {
    if StartsWith(prev, "2") then IncreasedFocusIndex(prev, collections, 1)
    else if StartsWith(prev, "1") then IncreasedFocusIndex(prev, games, 4)
    else if StartsWith(prev, "5") then IncreasedFocusIndex(prev, 4, 1)
    else if StartsWith(prev, "7") then IncreasedFocusIndex(prev, 4, 1)
    else prev
  }

  function Up(prev: string, games: nat, collections: nat): string {
    if StartsWith(prev, "2") then DecreasedFocusIndex(prev, collections, 1)
    else if StartsWith(prev, "1") then DecreasedFocusIndex(prev, games, 4)
    else if StartsWith(prev, "5") then DecreasedFocusIndex(prev, 4, 1)
    else if StartsWith(prev, "7") then DecreasedFocusIndex(prev, 4, 1)
    else prev
  }

  function Right(prev: string, games: nat): string {
    if StartsWith(prev, "1") then IncreasedFocusIndex(prev, games, 1) else prev
  }

  function Left(prev: string, games: nat): string {
    if StartsWith(prev, "1") then DecreasedFocusIndex(prev, games, 1) else prev
  }

  function ArrowBranches(o: Screen, p: Screen, kb: KeyOrButton, collections: seq<Collection>): (r: Screen)
    ensures r.games == p.games && r.filteredGames == p.filteredGames
  {
    var n := |o.filteredGames|;
    var p1 := if IsDown(kb) then p.(focusIndex := Down(p.focusIndex, n, |collections|)) else p;
    var p2 := if IsUp(kb) then p1.(focusIndex := Up(p1.focusIndex, n, |collections|)) else p1;
    var p3 := if IsRight(kb) then p2.(focusIndex := Right(p2.focusIndex, n)) else p2;
    if IsLeft(kb) then p3.(focusIndex := Left(p3.focusIndex, n)) else p3
  }

  /**
   * The key effect: the new state and what the signal set off.
   * `collections` is the data provider's list of collections with an
   * installed game.
   */
  function Dispatch(o: Screen, kb: KeyOrButton, introFinish: bool, collections: seq<Collection>): (r: (Screen, Outcome))
    ensures r.1.Accepted? <==> GateOpen(kb, introFinish) && Answers(o, kb, collections)
    ensures r.1 == Ignored <==> !GateOpen(kb, introFinish)
    ensures !r.1.Accepted? ==> r.0 == o
    ensures r.0.games == o.games && r.0.filteredGames == o.filteredGames
  {
    if !GateOpen(kb, introFinish) then (o, Ignored)
    else if !Answers(o, kb, collections) then (o, Refused)
    else
      var p1 := MenuBranch(o, o, kb);
      var p2 := BackBranch(o, p1, kb);
      var p3 := SearchBranch(o, p2, kb);
      var p4 := SortBranch(o, p3, kb);
      var p5 := ShowAllBranch(p4, kb);
      var p6 := MostPlayedBranch(p5, kb);
      var p7 := NewOnesBranch(p6, kb);
      var sel := SelectBranch(o, p7, kb, collections);
      if sel.action.RunGame? then (sel.screen, Accepted(sel.action))
      else
        var p9 := ToggleBranch(o, sel.screen, kb, collections);
        (ArrowBranches(o, p9, kb, collections), Accepted(sel.action))
  }

  // ---------------------------------------------------------------------
  // The other handlers

  /** `handleSearchGame(query)`: back to the games; a non-blank query becomes the search. */
  function SearchSubmitted(o: Screen, query: string): (r: Screen)
    ensures r.focusIndex == "1.1" && !r.searchModalShow
    ensures r.filterData == if Trim(query) == "" then o.filterData else o.filterData.(searchQuery := Some(Trim(query)))
  {
    var p := o.(focusIndex := "1.1", searchModalShow := false);
    if Trim(query) != "" then p.(filterData := p.filterData.(searchQuery := Some(Trim(query)))) else p
  }

  /** A blank query leaves the filter alone; any other puts its trimmed text in force as the search. */
  lemma SearchSubmittedMeaning(o: Screen, query: string)
    ensures AllSpace(query) ==> SearchSubmitted(o, query).filterData == o.filterData
    ensures !AllSpace(query) ==> ActiveQuery(SearchSubmitted(o, query).filterData) == Some(Trim(query))
  {
    TrimEmptyIffAllSpace(query);
    if !AllSpace(query) {
      TrimIdempotentNonBlank(query);
    }
  }

  /** Trimming twice trims nothing more, so the stored query stays in force. */
  lemma TrimIdempotentNonBlank(s: string)
    requires Trim(s) != ""
    ensures !AllSpace(Trim(s)) && Trim(Trim(s)) == Trim(s)
  {
    var t := Trim(s);
    TrimHasNoOuterSpace(s);
    assert !IsSpace(t[0]) && !IsSpace(t[|t| - 1]);
    TrimOfUntrimmed(t);
  }

  /** A text with no blank at either end is its own trim. */
  lemma TrimOfUntrimmed(t: string)
    requires t != [] && !IsSpace(t[0]) && !IsSpace(t[|t| - 1])
    ensures Trim(t) == t
  {
    assert TrimStart(t) == t;
    assert TrimEnd(t) == t;
  }

  /** `filterAndSortGames(filterData)`: the shown games are recomputed. */
  function ShownRecomputed(o: Screen): (r: Screen)
    requires o.games != []
    ensures r == o.(filteredGames := FilterGames(o.games, o.filterData).value)
  {
    o.(filteredGames := FilterGames(o.games, o.filterData).value)
  }

  /** A search that finds nothing among all the games opens the message modal and is cleared. */
  function SearchCleared(p: Screen): (r: Screen)
    ensures r.games == p.games && r.filteredGames == p.filteredGames && r.gameSortData == p.gameSortData
  {
    var q := ActiveQuery(p.filterData);
    if q.Some? && |Filter(p.games, NameMatches(q.value))| == 0 then
      p.(focusIndex := "3",
         messageModal := MessageModal(true, "No games found for \"" + q.value + "\"", true),
         filterData := p.filterData.(searchQuery := None))
    else p
  }

  /**
   * The effect on the games, the filter and the sort: the shown games are
   * recomputed, and a search that finds nothing opens the message modal and
   * is cleared.
   */
  function Refreshed(o: Screen): (r: Screen)
    ensures o.games == [] ==> r == o
    ensures o.games != [] ==> r.filteredGames == FilterGames(o.games, o.filterData).value
    ensures r.games == o.games && r.gameSortData == o.gameSortData
  {
    if o.games == [] then o else SearchCleared(ShownRecomputed(o))
  }

  /**
   * A search that finds nothing shows the message, and the effect running
   * again on the cleared filter shows what the filter without the search
   * lets through.
   */
  lemma FailedSearchFallsBack(o: Screen)
    requires o.games != [] && ActiveQuery(o.filterData).Some?
    requires Filter(o.games, NameMatches(ActiveQuery(o.filterData).value)) == []
    ensures Refreshed(o).focusIndex == "3" && Refreshed(o).messageModal.show
    ensures Refreshed(o).filteredGames == []
    ensures Refreshed(Refreshed(o)).filteredGames ==
      FilterGames(o.games, o.filterData.(searchQuery := None)).value
  {
  }

  // ---------------------------------------------------------------------
  // The screen

  class BigPictureScreen {
    var focusIndex: string
    var showLeftSide: bool
    var helpModalShow: bool
    var quitModalShow: bool
    var searchModalShow: bool
    var sortModalShow: bool
    var messageModal: MessageModal
    var selectedCollection: Option<Collection>
    var games: seq<Game>
    var filteredGames: seq<Game>
    var filterData: FilterData
    var gameSortData: SortData

    function State(): Screen
      reads this
    {
      Screen(focusIndex, showLeftSide, helpModalShow, quitModalShow, searchModalShow, sortModalShow,
             messageModal, selectedCollection, games, filteredGames, filterData, gameSortData)
    }

    constructor(games: seq<Game>)
      ensures State() == InitialScreen(games)
    {
      focusIndex := "1.1";
      showLeftSide := false;
      helpModalShow := false;
      quitModalShow := false;
      searchModalShow := false;
      sortModalShow := false;
      messageModal := MessageModal(false, "", true);
      selectedCollection := None;
      this.games := games;
      filteredGames := [];
      filterData := DefaultFilterData;
      gameSortData := DefaultSortData;
    }

    /** The key effect, run on one signal. */
    method HandleInput(kb: KeyOrButton, introFinish: bool, collections: seq<Collection>) returns (outcome: Outcome)
      modifies this
      ensures (State(), outcome) == Dispatch(old(State()), kb, introFinish, collections)
    {
      var o := State();
      if !GateOpen(kb, introFinish) {
        return Ignored;
      }
      if !Answers(o, kb, collections) {
        return Refused;
      }
      ApplyMenu(o, kb);
      ApplyBack(o, kb);
      ApplySearchAndSort(o, kb);
      ApplyQuickFilters(kb);
      var action := ApplySelect(o, kb, collections);
      if action.RunGame? {
        return Accepted(action);
      }
      ApplyToggle(o, kb, collections);
      ApplyArrows(o, kb, collections);
      return Accepted(action);
    }

    /** The Menu button; `o` is the state the signal arrived in. */
    method ApplyMenu(o: Screen, kb: KeyOrButton)
      modifies this
      ensures State() == MenuBranch(o, old(State()), kb)
    {
      if IsMenu(kb) && OnList(o.focusIndex) {
        if o.showLeftSide { showLeftSide := false; }
        focusIndex := "5.1";
        quitModalShow := true;
      }
    }

    /** Escape or B: close whatever is open, or open the quit modal from the games. */
    method ApplyBack(o: Screen, kb: KeyOrButton)
      modifies this
      ensures State() == BackBranch(o, old(State()), kb)
    {
      if IsBack(kb) {
        ApplyBackOnHelpOrGames(o);
        ApplyBackClosesModal(o.focusIndex);
      }
    }

    method ApplyBackOnHelpOrGames(o: Screen)
      modifies this
      ensures State() == BackOnHelpOrGames(o, old(State()))
    {
      var f := o.focusIndex;
      if f == "4" { focusIndex := "1.1"; helpModalShow := false; }
      if StartsWith(f, "1") {
        if o.showLeftSide { showLeftSide := false; }
        focusIndex := "5.1";
        quitModalShow := true;
      }
    }

    method ApplyBackClosesModal(f: string)
      modifies this
      ensures State() == BackClosesModal(f, old(State()))
    {
      if StartsWith(f, "5") { focusIndex := "1.1"; quitModalShow := false; }
      if StartsWith(f, "3") { focusIndex := "1.1"; messageModal := messageModal.(show := false); }
      if StartsWith(f, "2") { focusIndex := "1.1"; showLeftSide := false; }
      if StartsWith(f, "6") { focusIndex := "1.1"; searchModalShow := false; }
      if StartsWith(f, "7") { focusIndex := "1.1"; sortModalShow := false; }
    }

    /** Space or View opens the search modal; Shift or LT opens or closes the sort modal. */
    method ApplySearchAndSort(o: Screen, kb: KeyOrButton)
      modifies this
      ensures State() == SortBranch(o, SearchBranch(o, old(State()), kb), kb)
    {
      var f := o.focusIndex;
      if IsSearch(kb) && OnList(f) {
        focusIndex := "6";
        searchModalShow := true;
      }
      if IsSort(kb) {
        if OnList(f) { focusIndex := "7.1"; sortModalShow := true; }
        if StartsWith(f, "7") { focusIndex := "1.1"; sortModalShow := false; }
      }
    }

    /** a/RB, m/Y and n/X: all games, the most played ones, the new ones. */
    method ApplyQuickFilters(kb: KeyOrButton)
      modifies this
      ensures State() == NewOnesBranch(MostPlayedBranch(ShowAllBranch(old(State()), kb), kb), kb)
    {
      if IsShowAll(kb) {
        ApplyQuickFilter(DefaultFilterData, "Displaying all games");
        gameSortData := DefaultSortData;
      }
      if IsMostPlayed(kb) {
        ApplyQuickFilter(DefaultFilterData.(mostPlayedOnes := Some(true)), "Displaying most played games");
      }
      if IsNewOnes(kb) {
        ApplyQuickFilter(DefaultFilterData.(newOnes := Some(true)), "Displaying new games");
      }
    }

    method ApplyQuickFilter(f: FilterData, message: string)
      modifies this
      ensures State() == QuickFilter(old(State()), f, message)
    {
      selectedCollection := None;
      filterData := f;
      messageModal := MessageModal(true, message, false);
    }

    /** Enter or A. */
    method ApplySelect(o: Screen, kb: KeyOrButton, collections: seq<Collection>) returns (action: Action)
      modifies this
      ensures Selection(State(), action) == SelectBranch(o, old(State()), kb, collections)
    {
      action := Stay;
      var f := o.focusIndex;
      if IsSelect(kb) {
        var game := if StartsWith(f, "1") then FocusedGame(o, collections) else None;
        if game.Some? {
          return RunGame(game.value);
        }
        ApplyCollectionChoice(o, collections);
        ApplyModalChoice(f);
        if f == "5.3" { action := GoHome; }
        if f == "5.4" { action := QuitApp; }
        ApplySortChoice(f);
      }
    }

    method ApplyCollectionChoice(o: Screen, collections: seq<Collection>)
      modifies this
      ensures State() == CollectionChoice(o, old(State()), collections)
    {
      var collection := if StartsWith(o.focusIndex, "2") then FocusedCollection(o, collections) else None;
      if collection.Some? {
        selectedCollection := collection;
        filterData := filterData.(allGames := AllGamesCollection, collection := collection,
                                  mostPlayedOnes := None, newOnes := None, searchQuery := None);
        showLeftSide := false;
        focusIndex := "1.1";
      }
    }

    method ApplyModalChoice(f: string)
      modifies this
      ensures State() == ModalChoice(f, old(State()))
    {
      if StartsWith(f, "3") { messageModal := messageModal.(show := false); focusIndex := "1.1"; }
      if StartsWith(f, "4") { focusIndex := "1.1"; helpModalShow := false; }
      if f == "5.1" { focusIndex := "1.1"; quitModalShow := false; }
      if f == "5.2" { focusIndex := "4"; helpModalShow := true; quitModalShow := false; }
    }

    method ApplySortChoice(f: string)
      modifies this
      ensures State() == SortChoice(f, old(State()))
    {
      if f == "7.1" { ChooseSort(Alphabetic); }
      if f == "7.2" { ChooseSort(CreatedAt); }
      if f == "7.3" { ChooseSort(MostPlayed); }
      if f == "7.4" { ChooseSort(RecentlyPlayed); }
    }

    /** Tab or LB: open the collections from the games, or go back to the games. */
    method ApplyToggle(o: Screen, kb: KeyOrButton, collections: seq<Collection>)
      modifies this
      ensures State() == ToggleBranch(o, old(State()), kb, collections)
    {
      var f := o.focusIndex;
      if IsToggle(kb) {
        if StartsWith(f, "1") && |collections| > 0 { focusIndex := "2.1"; showLeftSide := true; }
        if StartsWith(f, "2") { focusIndex := "1.1"; showLeftSide := false; }
      }
    }

    /** The four directions, each a functional update of the pending focus. */
    method ApplyArrows(o: Screen, kb: KeyOrButton, collections: seq<Collection>)
      modifies this
      ensures State() == ArrowBranches(o, old(State()), kb, collections)
    {
      var n := |o.filteredGames|;
      if IsDown(kb) { MoveFocus(Down(focusIndex, n, |collections|)); }
      if IsUp(kb) { MoveFocus(Up(focusIndex, n, |collections|)); }
      if IsRight(kb) { MoveFocus(Right(focusIndex, n)); }
      if IsLeft(kb) { MoveFocus(Left(focusIndex, n)); }
    }

    method MoveFocus(index: string)
      modifies this
      ensures State() == old(State()).(focusIndex := index)
    {
      focusIndex := index;
    }

    /** One of the sort modal's options: that sort type, the direction flipped. */
    method ChooseSort(sortType: OrderType)
      modifies this
      ensures State() == SortChosen(old(State()), sortType)
    {
      gameSortData := SortData(sortType, Flipped(gameSortData.direction));
      focusIndex := "1.1";
      sortModalShow := false;
    }

    /**
     * `handleGameClick(game)` once `runGame` has answered: a launch records
     * the run in the store and on the screen and shows "Game is opening"; a
     * refusal shows that the path is missing or wrong. The store is dated by
     * the main process's clock (`storeNow`) and the lists by the renderer's
     * (`uiNow`), two separate reads.
     */
    method HandleGameClick(store: GameRepository.GameStore, game: Game, openExternal: string -> bool,
                           storeNow: Timestamp, uiNow: Timestamp)
      returns (launched: bool)
      modifies this, store.store
      ensures launched == Cascades.RunGame(game, openExternal)
      ensures focusIndex == "3" && messageModal.show
      ensures launched ==>
        messageModal == MessageModal(true, "Game is opening", false)
        && games == Home.AfterGameRun(old(games), game.id, uiNow)
        && filteredGames == Home.AfterGameRun(old(filteredGames), game.id, uiNow)
        && store.store.games == Some(GameRepository.SetLastPlayed(GameRepository.PlayCountIncremented(old(store.Games()), game.id), game.id, storeNow))
        && (old(games) == old(store.Games()) ==> games == GameRepository.SetLastPlayed(store.Games(), game.id, uiNow))
      ensures !launched ==>
        messageModal == MessageModal(true, "Game executable path is not set or wrong.", true)
        && games == old(games) && filteredGames == old(filteredGames)
        && store.store.games == old(store.store.games)
      ensures showLeftSide == old(showLeftSide) && helpModalShow == old(helpModalShow) && quitModalShow == old(quitModalShow)
      ensures searchModalShow == old(searchModalShow) && sortModalShow == old(sortModalShow)
      ensures selectedCollection == old(selectedCollection) && filterData == old(filterData) && gameSortData == old(gameSortData)
      ensures store.store.collections == old(store.store.collections)
      ensures store.store.preferences == old(store.store.preferences)
    {
      var shownBefore, storedBefore := games, store.Games();
      launched := Cascades.RunGame(game, openExternal);
      if launched {
        focusIndex := "3";
        messageModal := MessageModal(true, "Game is opening", false);
        Cascades.UpdateGameStoreAfterGameRun(store, game, storeNow);
        ShowGameRun(game.id, uiNow);
        if shownBefore == storedBefore {
          assert games == GameRepository.SetLastPlayed(store.Games(), game.id, uiNow) by {
            Home.AfterGameRunMatchesStore(shownBefore, game.id, storeNow, uiNow);
          }
        }
      } else {
        focusIndex := "3";
        messageModal := MessageModal(true, "Game executable path is not set or wrong.", true);
      }
    }

    /** `updateUIAfterGameRun(game)` on the screen's two lists: the run is counted and dated in both. */
    method ShowGameRun(id: string, now: Timestamp)
      modifies this
      ensures State() == old(State()).(games := Home.AfterGameRun(old(games), id, now),
                                       filteredGames := Home.AfterGameRun(old(filteredGames), id, now))
      ensures games == GameRepository.SetLastPlayed(GameRepository.PlayCountIncremented(old(games), id), id, now)
    {
      Home.AfterGameRunIsRepositoryUpdates(games, id, now);
      games := Home.AfterGameRun(games, id, now);
      filteredGames := Home.AfterGameRun(filteredGames, id, now);
    }

    /** `handleSearchGame(query)` */
    method HandleSearchGame(query: string)
      modifies this
      ensures State() == SearchSubmitted(old(State()), query)
    {
      var t := Trim(query);
      focusIndex := "1.1";
      searchModalShow := false;
      if t != "" {
        SetSearch(t);
      }
    }

    method SetSearch(t: string)
      modifies this
      ensures State() == old(State()).(filterData := old(filterData).(searchQuery := Some(t)))
    {
      filterData := filterData.(searchQuery := Some(t));
    }

    /** The effect that runs when the games, the filter or the sort change. */
    method RefreshFilteredGames()
      modifies this
      ensures State() == Refreshed(old(State()))
    {
      if |games| > 0 {
        filteredGames := FilterGames(games, filterData).value;
        ClearFailedSearch();
      }
    }

    /** The search check inside the effect, on the games just filtered. */
    method ClearFailedSearch()
      modifies this
      ensures State() == SearchCleared(old(State()))
    {
      var q := ActiveQuery(filterData);
      if q.Some? && |Filter(games, NameMatches(q.value))| == 0 {
        focusIndex := "3";
        messageModal := MessageModal(true, "No games found for \"" + q.value + "\"", true);
        filterData := filterData.(searchQuery := None);
      }
    }
  }
}
