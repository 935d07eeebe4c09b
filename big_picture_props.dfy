// What the big-picture dispatcher does for the signals the help modal lists:
// each lemma fixes the focused element and the signal and states the whole
// outcome of one dispatch.
module BigPictureProperties {
  import opened Common
  import opened Records
  import opened FocusIndex
  import opened FocusTree
  import opened GameFilter
  import opened BigPicture

  /** Enter on the keyboard or A on the gamepad. */
  predicate IsEnterSignal(kb: KeyOrButton) {
    kb == KeyPress("Enter") || kb == ButtonPress("A")
  }

  /** Escape on the keyboard or B on the gamepad. */
  predicate IsEscapeSignal(kb: KeyOrButton) {
    kb == KeyPress("Escape") || kb == ButtonPress("B")
  }

  /** The down arrow, the pad's Down button, or the left stick pushed down. */
  predicate IsDownSignal(kb: KeyOrButton) {
    kb == KeyPress("ArrowDown") || kb == ButtonPress("Down") || kb == StickMove("down")
  }

  /** The message modal answers to Enter/A and Escape/B and to nothing else. */
  lemma MessageModalAnswersOnlyConfirmAndBack(o: Screen, kb: KeyOrButton, collections: seq<Collection>)
    requires o.focusIndex == "3"
    ensures Answers(o, kb, collections) <==> Matches(EnterEntry, kb) || Matches(EscapeEntry, kb)
  {
    ModalFound(o.filteredGames, collections, 0);
    var set_ := ModalSet;
    if Matches(EnterEntry, kb) {
      assert Matches(set_[0], kb);
    } else if Matches(EscapeEntry, kb) {
      assert Matches(set_[1], kb);
    }
  }

  /** Which single-character group a non-empty index starts with. */
  lemma GroupOfIndex(f: string)
    requires f != []
    ensures forall c: char :: StartsWith(f, [c]) <==> f[0] == c
  {
  }

  /** A branch whose signal did not come leaves the pending state as it is. */
  lemma QuietBranches(o: Screen, p: Screen, kb: KeyOrButton, collections: seq<Collection>)
    ensures !IsMenu(kb) ==> MenuBranch(o, p, kb) == p
    ensures !IsBack(kb) ==> BackBranch(o, p, kb) == p
    ensures !IsSearch(kb) ==> SearchBranch(o, p, kb) == p
    ensures !IsSort(kb) ==> SortBranch(o, p, kb) == p
    ensures !IsShowAll(kb) ==> ShowAllBranch(p, kb) == p
    ensures !IsMostPlayed(kb) ==> MostPlayedBranch(p, kb) == p
    ensures !IsNewOnes(kb) ==> NewOnesBranch(p, kb) == p
    ensures !IsSelect(kb) ==> SelectBranch(o, p, kb, collections) == Selection(p, Stay)
    ensures !IsToggle(kb) ==> ToggleBranch(o, p, kb, collections) == p
    ensures !IsDown(kb) && !IsUp(kb) && !IsRight(kb) && !IsLeft(kb) ==> ArrowBranches(o, p, kb, collections) == p
  {
  }

  /** A signal that selects only the back branch runs it alone. */
  lemma BackOnlyDispatch(o: Screen, kb: KeyOrButton, collections: seq<Collection>)
    requires GateOpen(kb, true) && Answers(o, kb, collections)
    requires !IsMenu(kb) && !IsSearch(kb) && !IsSort(kb) && !IsShowAll(kb) && !IsMostPlayed(kb)
    requires !IsNewOnes(kb) && !IsSelect(kb) && !IsToggle(kb)
    requires !IsDown(kb) && !IsUp(kb) && !IsRight(kb) && !IsLeft(kb)
    ensures Dispatch(o, kb, true, collections) == (BackBranch(o, o, kb), Accepted(Stay))
  {
    QuietBranches(o, o, kb, collections);
    QuietBranches(o, BackBranch(o, o, kb), kb, collections);
  }

  /** A signal that selects only the select branch runs it alone. */
  lemma SelectOnlyDispatch(o: Screen, kb: KeyOrButton, collections: seq<Collection>)
    requires GateOpen(kb, true) && Answers(o, kb, collections)
    requires !IsMenu(kb) && !IsBack(kb) && !IsSearch(kb) && !IsSort(kb) && !IsShowAll(kb)
    requires !IsMostPlayed(kb) && !IsNewOnes(kb) && !IsToggle(kb)
    requires !IsDown(kb) && !IsUp(kb) && !IsRight(kb) && !IsLeft(kb)
    ensures Dispatch(o, kb, true, collections) ==
      (SelectBranch(o, o, kb, collections).screen, Accepted(SelectBranch(o, o, kb, collections).action))
  {
    QuietBranches(o, o, kb, collections);
    QuietBranches(o, SelectBranch(o, o, kb, collections).screen, kb, collections);
  }

  /** A signal that selects only the toggle branch runs it alone. */
  lemma ToggleOnlyDispatch(o: Screen, kb: KeyOrButton, collections: seq<Collection>)
    requires GateOpen(kb, true) && Answers(o, kb, collections)
    requires !IsMenu(kb) && !IsBack(kb) && !IsSearch(kb) && !IsSort(kb) && !IsShowAll(kb)
    requires !IsMostPlayed(kb) && !IsNewOnes(kb) && !IsSelect(kb)
    requires !IsDown(kb) && !IsUp(kb) && !IsRight(kb) && !IsLeft(kb)
    ensures Dispatch(o, kb, true, collections) == (ToggleBranch(o, o, kb, collections), Accepted(Stay))
  {
    QuietBranches(o, o, kb, collections);
    QuietBranches(o, ToggleBranch(o, o, kb, collections), kb, collections);
  }

  /** A signal that selects only the "most played" branch runs it alone. */
  lemma MostPlayedOnlyDispatch(o: Screen, kb: KeyOrButton, collections: seq<Collection>)
    requires GateOpen(kb, true) && Answers(o, kb, collections)
    requires !IsMenu(kb) && !IsBack(kb) && !IsSearch(kb) && !IsSort(kb) && !IsShowAll(kb)
    requires !IsNewOnes(kb) && !IsSelect(kb) && !IsToggle(kb)
    requires !IsDown(kb) && !IsUp(kb) && !IsRight(kb) && !IsLeft(kb)
    ensures Dispatch(o, kb, true, collections) == (MostPlayedBranch(o, kb), Accepted(Stay))
  {
    QuietBranches(o, o, kb, collections);
    QuietBranches(o, MostPlayedBranch(o, kb), kb, collections);
  }

  /** A signal that is only a direction runs the arrow branches alone. */
  lemma ArrowsOnlyDispatch(o: Screen, kb: KeyOrButton, collections: seq<Collection>)
    requires GateOpen(kb, true) && Answers(o, kb, collections)
    requires !IsMenu(kb) && !IsBack(kb) && !IsSearch(kb) && !IsSort(kb) && !IsShowAll(kb)
    requires !IsMostPlayed(kb) && !IsNewOnes(kb) && !IsSelect(kb) && !IsToggle(kb)
    ensures Dispatch(o, kb, true, collections) == (ArrowBranches(o, o, kb, collections), Accepted(Stay))
  {
    QuietBranches(o, o, kb, collections);
  }

  /** The back branch from a game or from the games' group. */
  lemma BackBranchOnGames(o: Screen, kb: KeyOrButton)
    requires IsEscapeSignal(kb) && o.focusIndex != [] && o.focusIndex[0] == '1'
    ensures BackBranch(o, o, kb) == o.(showLeftSide := false, focusIndex := "5.1", quitModalShow := true)
  {
    GroupOfIndex(o.focusIndex);
  }

  /** An accepted Escape or B from the games' group opens the quit modal. */
  lemma BackFromGames(o: Screen, kb: KeyOrButton, collections: seq<Collection>)
    requires IsEscapeSignal(kb) && Answers(o, kb, collections)
    requires o.focusIndex != [] && o.focusIndex[0] == '1'
    ensures Dispatch(o, kb, true, collections) ==
      (o.(showLeftSide := false, focusIndex := "5.1", quitModalShow := true), Accepted(Stay))
  {
    BackOnlyDispatch(o, kb, collections);
    BackBranchOnGames(o, kb);
  }

  /** Escape or B on a game opens the quit modal on its first option and hides the collections. */
  lemma BackOnGameOpensQuit(o: Screen, kb: KeyOrButton, collections: seq<Collection>, i: nat)
    requires IsEscapeSignal(kb)
    requires i < |o.filteredGames| && o.focusIndex == "1." + NatToString(i + 1)
    ensures Dispatch(o, kb, true, collections) ==
      (o.(showLeftSide := false, focusIndex := "5.1", quitModalShow := true), Accepted(Stay))
  {
    FocusOnGame(o.filteredGames, collections, i);
    assert Matches(GameSet[6], kb);
    BackFromGames(o, kb, collections);
  }

  /** An accepted Enter or A runs the select branch alone. */
  lemma EnterDispatch(o: Screen, kb: KeyOrButton, collections: seq<Collection>)
    requires IsEnterSignal(kb) && Answers(o, kb, collections)
    ensures Dispatch(o, kb, true, collections) ==
      (SelectBranch(o, o, kb, collections).screen, Accepted(SelectBranch(o, o, kb, collections).action))
  {
    SelectOnlyDispatch(o, kb, collections);
  }

  /** An accepted Enter or A on an element holding a game runs it at once. */
  lemma SelectRunsFocusedGame(o: Screen, kb: KeyOrButton, collections: seq<Collection>, g: Game)
    requires IsEnterSignal(kb) && Answers(o, kb, collections)
    requires o.focusIndex != [] && o.focusIndex[0] == '1' && FocusedGame(o, collections) == Some(g)
    ensures Dispatch(o, kb, true, collections) == (o, Accepted(RunGame(g)))
  {
    EnterDispatch(o, kb, collections);
    GroupOfIndex(o.focusIndex);
  }

  /** Enter or A on a game runs that game and changes nothing on the screen. */
  lemma SelectOnGameRunsIt(o: Screen, kb: KeyOrButton, collections: seq<Collection>, i: nat)
    requires IsEnterSignal(kb)
    requires i < |o.filteredGames| && o.focusIndex == "1." + NatToString(i + 1)
    ensures Dispatch(o, kb, true, collections) == (o, Accepted(RunGame(o.filteredGames[i])))
  {
    FocusOnGame(o.filteredGames, collections, i);
    assert Matches(GameSet[5], kb);
    SelectRunsFocusedGame(o, kb, collections, o.filteredGames[i]);
  }

  /** The filter a selected collection puts in force. */
  function CollectionSelected(f: FilterData, c: Collection): FilterData {
    f.(allGames := AllGamesCollection, collection := Some(c), mostPlayedOnes := None, newOnes := None, searchQuery := None)
  }

  /** The select branch on a collection. */
  lemma SelectBranchOnCollection(o: Screen, kb: KeyOrButton, collections: seq<Collection>, c: Collection)
    requires IsEnterSignal(kb) && o.focusIndex != [] && o.focusIndex[0] == '2'
    requires FocusedCollection(o, collections) == Some(c)
    ensures SelectBranch(o, o, kb, collections) ==
      Selection(o.(selectedCollection := Some(c), filterData := CollectionSelected(o.filterData, c),
                   showLeftSide := false, focusIndex := "1.1"), Stay)
  {
    GroupOfIndex(o.focusIndex);
  }

  /** An accepted Enter or A on an element holding a collection selects it. */
  lemma SelectFocusedCollection(o: Screen, kb: KeyOrButton, collections: seq<Collection>, c: Collection)
    requires IsEnterSignal(kb) && Answers(o, kb, collections)
    requires o.focusIndex != [] && o.focusIndex[0] == '2' && FocusedCollection(o, collections) == Some(c)
    ensures Dispatch(o, kb, true, collections) ==
      (o.(selectedCollection := Some(c), filterData := CollectionSelected(o.filterData, c),
          showLeftSide := false, focusIndex := "1.1"), Accepted(Stay))
  {
    EnterDispatch(o, kb, collections);
    SelectBranchOnCollection(o, kb, collections, c);
  }

  /**
   * Enter or A on a collection selects it: the filter keeps its games (and
   * nothing else: no search, no quick filter), and the focus returns to the
   * first game with the collections hidden.
   */
  lemma SelectOnCollectionFilters(o: Screen, kb: KeyOrButton, collections: seq<Collection>, i: nat)
    requires IsEnterSignal(kb)
    requires i < |collections| && o.focusIndex == "2." + NatToString(i + 1)
    ensures Dispatch(o, kb, true, collections).1 == Accepted(Stay)
    ensures var r := Dispatch(o, kb, true, collections).0;
      r == o.(selectedCollection := Some(collections[i]), showLeftSide := false, focusIndex := "1.1",
              filterData := r.filterData)
      && CollectionIds(r.filterData) == Some(collections[i].gameIds)
      && ActiveQuery(r.filterData).None? && r.filterData.mostPlayedOnes.None? && r.filterData.newOnes.None?
      && r.filterData.installedOnes == o.filterData.installedOnes
  {
    CollectionFocused(o, kb, collections, i);
    SelectFocusedCollection(o, kb, collections, collections[i]);
    CollectionSelectedFilters(o.filterData, collections[i]);
  }

  /** Index `2.(i+1)` designates collection `i`, which answers to Enter and A. */
  lemma CollectionFocused(o: Screen, kb: KeyOrButton, collections: seq<Collection>, i: nat)
    requires IsEnterSignal(kb)
    requires i < |collections| && o.focusIndex == "2." + NatToString(i + 1)
    ensures Answers(o, kb, collections)
    ensures o.focusIndex != [] && o.focusIndex[0] == '2'
    ensures FocusedCollection(o, collections) == Some(collections[i])
  {
    FocusOnCollection(o.filteredGames, collections, i);
    assert Matches(AsideSet[3], kb);
  }

  /** The filter of a selected collection keeps its games and nothing else is in force. */
  lemma CollectionSelectedFilters(f: FilterData, c: Collection)
    ensures CollectionIds(CollectionSelected(f, c)) == Some(c.gameIds)
    ensures ActiveQuery(CollectionSelected(f, c)).None?
    ensures CollectionSelected(f, c).mostPlayedOnes.None? && CollectionSelected(f, c).newOnes.None?
    ensures CollectionSelected(f, c).installedOnes == f.installedOnes
  {
  }

  /** The select branch on the options of the quit modal. */
  lemma SelectBranchOnQuitModal(o: Screen, kb: KeyOrButton, collections: seq<Collection>)
    requires IsEnterSignal(kb)
    ensures o.focusIndex == "5.1" ==>
      SelectBranch(o, o, kb, collections) == Selection(o.(focusIndex := "1.1", quitModalShow := false), Stay)
    ensures o.focusIndex == "5.2" ==>
      SelectBranch(o, o, kb, collections) ==
        Selection(o.(focusIndex := "4", helpModalShow := true, quitModalShow := false), Stay)
    ensures o.focusIndex == "5.3" ==> SelectBranch(o, o, kb, collections) == Selection(o, GoHome)
    ensures o.focusIndex == "5.4" ==> SelectBranch(o, o, kb, collections) == Selection(o, QuitApp)
  {
    var f := o.focusIndex;
    if f in {"5.1", "5.2", "5.3", "5.4"} {
      // the options differ in their third character
      assert f[0] == '5' && f[2] == "5.1"[2] <==> f == "5.1";
      assert f[2] == "5.2"[2] <==> f == "5.2";
      assert f[2] == "5.3"[2] <==> f == "5.3";
      assert f[2] == "5.4"[2] <==> f == "5.4";
    }
  }

  /** The four options of the quit modal, chosen with Enter or A. */
  lemma QuitModalOptions(o: Screen, kb: KeyOrButton, collections: seq<Collection>)
    requires IsEnterSignal(kb)
    ensures o.focusIndex == "5.1" ==>
      Dispatch(o, kb, true, collections) == (o.(focusIndex := "1.1", quitModalShow := false), Accepted(Stay))
    ensures o.focusIndex == "5.2" ==>
      Dispatch(o, kb, true, collections) ==
        (o.(focusIndex := "4", helpModalShow := true, quitModalShow := false), Accepted(Stay))
    ensures o.focusIndex == "5.3" ==> Dispatch(o, kb, true, collections) == (o, Accepted(GoHome))
    ensures o.focusIndex == "5.4" ==> Dispatch(o, kb, true, collections) == (o, Accepted(QuitApp))
  {
    if o.focusIndex in {"5.1", "5.2", "5.3", "5.4"} {
      var k := if o.focusIndex == "5.1" then 3 else if o.focusIndex == "5.2" then 4
        else if o.focusIndex == "5.3" then 5 else 6;
      ModalFound(o.filteredGames, collections, k);
      assert Matches(QuitSet[1], kb);
      EnterDispatch(o, kb, collections);
      SelectBranchOnQuitModal(o, kb, collections);
    }
  }

  /** The select branch on the options of the sort modal. */
  lemma SelectBranchOnSortModal(o: Screen, kb: KeyOrButton, collections: seq<Collection>, j: nat)
    requires IsEnterSignal(kb) && j < 4 && o.focusIndex == ModalIndexList[9 + j]
    ensures SelectBranch(o, o, kb, collections) ==
      Selection(SortChosen(o, [Alphabetic, CreatedAt, MostPlayed, RecentlyPlayed][j]), Stay)
  {
    var f := o.focusIndex;
    // the options differ in their third character
    assert f[0] == '7' && f[0] != "5.1"[0];
    assert f[2] == "7.1"[2] <==> f == "7.1";
    assert f[2] == "7.2"[2] <==> f == "7.2";
    assert f[2] == "7.3"[2] <==> f == "7.3";
    assert f[2] == "7.4"[2] <==> f == "7.4";
  }

  /**
   * Enter or A on a sort option sorts by that option and flips the
   * direction, then closes the sort modal.
   */
  lemma SortOptionFlipsDirection(o: Screen, kb: KeyOrButton, collections: seq<Collection>, j: nat)
    requires IsEnterSignal(kb)
    requires j < 4 && o.focusIndex == ModalIndexList[9 + j]
    ensures Dispatch(o, kb, true, collections) ==
      (o.(gameSortData := SortData([Alphabetic, CreatedAt, MostPlayed, RecentlyPlayed][j],
                                   Flipped(o.gameSortData.direction)),
          focusIndex := "1.1", sortModalShow := false),
       Accepted(Stay))
  {
    ModalFound(o.filteredGames, collections, 9 + j);
    assert Matches(SortSet[1], kb);
    EnterDispatch(o, kb, collections);
    SelectBranchOnSortModal(o, kb, collections, j);
  }

  /** The arrow branches on Down from the games' group. */
  lemma ArrowBranchesDownOnGames(o: Screen, kb: KeyOrButton, collections: seq<Collection>)
    requires IsDownSignal(kb) && o.focusIndex != [] && o.focusIndex[0] == '1'
    ensures ArrowBranches(o, o, kb, collections) ==
      o.(focusIndex := IncreasedFocusIndex(o.focusIndex, |o.filteredGames|, 4))
  {
    DownIsOnlyDown(kb);
    GroupOfIndex(o.focusIndex);
    assert Down(o.focusIndex, |o.filteredGames|, |collections|) ==
      IncreasedFocusIndex(o.focusIndex, |o.filteredGames|, 4);
  }

  lemma DownIsOnlyDown(kb: KeyOrButton)
    requires IsDownSignal(kb)
    ensures IsDown(kb) && !IsUp(kb) && !IsRight(kb) && !IsLeft(kb)
  {
  }

  /** An accepted Down from the games' group steps by a row of four. */
  lemma DownInGames(o: Screen, kb: KeyOrButton, collections: seq<Collection>)
    requires IsDownSignal(kb) && Answers(o, kb, collections)
    requires o.focusIndex != [] && o.focusIndex[0] == '1'
    ensures Dispatch(o, kb, true, collections) ==
      (o.(focusIndex := IncreasedFocusIndex(o.focusIndex, |o.filteredGames|, 4)), Accepted(Stay))
  {
    ArrowsOnlyDispatch(o, kb, collections);
    ArrowBranchesDownOnGames(o, kb, collections);
  }

  /** An accepted Down on a game: the arrow branch alone, by a row of four. */
  lemma DownOnGame(o: Screen, kb: KeyOrButton, collections: seq<Collection>, i: nat)
    requires IsDownSignal(kb)
    requires i < |o.filteredGames| && o.focusIndex == "1." + NatToString(i + 1)
    ensures Dispatch(o, kb, true, collections) ==
      (o.(focusIndex := IncreasedFocusIndex(o.focusIndex, |o.filteredGames|, 4)), Accepted(Stay))
  {
    FocusOnGame(o.filteredGames, collections, i);
    assert Matches(GameSet[1], kb);
    DownInGames(o, kb, collections);
  }

  /** The focus a row down from game `i` is a game in the same column. */
  lemma GameRowDown(games: nat, i: nat)
    requires i < games
    ensures var next := IncreasedFocusIndex("1." + NatToString(i + 1), games, 4);
      HasDot(next) && Parent(next) == "1"
      && ParseInt(LastPart(next)).Some?
      && ParseInt(LastPart(next)).value % 4 == (i + 1) % 4
      && 1 <= ParseInt(LastPart(next)).value <= games
  {
    assert "1." + NatToString(i + 1) == "1" + "." + NatToString(i + 1);
    GridIndexStep("1", i + 1, games, 4);
  }

  /**
   * Down on a game moves to the same column of the next row, or of the first
   * row past the end, and stays on a game.
   */
  lemma DownOnGameKeepsColumn(o: Screen, kb: KeyOrButton, collections: seq<Collection>, i: nat)
    requires IsDownSignal(kb)
    requires i < |o.filteredGames| && o.focusIndex == "1." + NatToString(i + 1)
    ensures Dispatch(o, kb, true, collections) ==
      (o.(focusIndex := IncreasedFocusIndex(o.focusIndex, |o.filteredGames|, 4)), Accepted(Stay))
    ensures var next := IncreasedFocusIndex(o.focusIndex, |o.filteredGames|, 4);
      HasDot(next) && Parent(next) == "1"
      && ParseInt(LastPart(next)).Some?
      && ParseInt(LastPart(next)).value % 4 == (i + 1) % 4
      && 1 <= ParseInt(LastPart(next)).value <= |o.filteredGames|
  {
    DownOnGame(o, kb, collections, i);
    GameRowDown(|o.filteredGames|, i);
  }

  /** The toggle branch from the games' group. */
  lemma ToggleBranchOnGames(o: Screen, kb: KeyOrButton, collections: seq<Collection>)
    requires (kb == KeyPress("Tab") || kb == ButtonPress("LB")) && o.focusIndex != [] && o.focusIndex[0] == '1'
    ensures ToggleBranch(o, o, kb, collections) ==
      if |collections| > 0 then o.(focusIndex := "2.1", showLeftSide := true) else o
  {
    GroupOfIndex(o.focusIndex);
  }

  /** An accepted Tab or LB from the games' group opens the collections when there are some. */
  lemma ToggleFromGames(o: Screen, kb: KeyOrButton, collections: seq<Collection>)
    requires (kb == KeyPress("Tab") || kb == ButtonPress("LB")) && Answers(o, kb, collections)
    requires o.focusIndex != [] && o.focusIndex[0] == '1'
    ensures |collections| > 0 ==>
      Dispatch(o, kb, true, collections) == (o.(focusIndex := "2.1", showLeftSide := true), Accepted(Stay))
    ensures |collections| == 0 ==> Dispatch(o, kb, true, collections) == (o, Accepted(Stay))
  {
    ToggleOnlyDispatch(o, kb, collections);
    ToggleBranchOnGames(o, kb, collections);
  }

  /** Tab or LB on a game opens the collections, unless there are none: then it is accepted and changes nothing. */
  lemma ToggleOnGame(o: Screen, kb: KeyOrButton, collections: seq<Collection>, i: nat)
    requires kb == KeyPress("Tab") || kb == ButtonPress("LB")
    requires i < |o.filteredGames| && o.focusIndex == "1." + NatToString(i + 1)
    ensures |collections| > 0 ==>
      Dispatch(o, kb, true, collections) == (o.(focusIndex := "2.1", showLeftSide := true), Accepted(Stay))
    ensures |collections| == 0 ==> Dispatch(o, kb, true, collections) == (o, Accepted(Stay))
  {
    FocusOnGame(o.filteredGames, collections, i);
    assert Matches(GameSet[4], kb);
    ToggleFromGames(o, kb, collections);
  }

  /**
   * With no game shown, the focus "1.1" designates nothing: every signal is
   * refused (or ignored before the gate) and nothing changes.
   */
  lemma NoGamesRefuseEverything(o: Screen, kb: KeyOrButton, introFinish: bool, collections: seq<Collection>)
    requires o.filteredGames == [] && o.focusIndex == "1.1"
    ensures Dispatch(o, kb, introFinish, collections) == (o, if GateOpen(kb, introFinish) then Refused else Ignored)
  {
    NoGamesNoFirstGame(collections);
  }

  /** An accepted m or Y puts the "most played" filter in force and drops the selected collection. */
  lemma MostPlayedAccepted(o: Screen, kb: KeyOrButton, collections: seq<Collection>)
    requires (kb == KeyPress("m") || kb == ButtonPress("Y")) && Answers(o, kb, collections)
    ensures Dispatch(o, kb, true, collections) ==
      (QuickFilter(o, DefaultFilterData.(mostPlayedOnes := Some(true)), "Displaying most played games"), Accepted(Stay))
  {
    MostPlayedOnlyDispatch(o, kb, collections);
  }

  /**
   * m or Y on a game puts the "most played" filter in force: once the
   * effect has run, the games shown are exactly those played at least once.
   */
  lemma MostPlayedShowsPlayedGames(o: Screen, kb: KeyOrButton, collections: seq<Collection>, i: nat)
    requires kb == KeyPress("m") || kb == ButtonPress("Y")
    requires i < |o.filteredGames| && o.focusIndex == "1." + NatToString(i + 1)
    requires o.games != []
    ensures Dispatch(o, kb, true, collections).1 == Accepted(Stay)
    ensures var r := Refreshed(Dispatch(o, kb, true, collections).0);
      r.selectedCollection.None? && r.messageModal.show
      && forall g :: g in r.filteredGames <==> g in o.games && g.playCount > 0
  {
    FocusOnGame(o.filteredGames, collections, i);
    assert Matches(GameSet[10], kb);
    MostPlayedAccepted(o, kb, collections);
    FilterGamesMeaning(o.games, DefaultFilterData.(mostPlayedOnes := Some(true)));
  }
}
