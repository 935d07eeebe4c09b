// The home page's own rules: when to ask for a review and how the answer
// moves the next reminder, and how the shown lists follow a game run, a
// deletion or a removal from a collection without reloading them.
module Home {
  import opened Common
  import opened Records
  import opened GameRepository
  import opened CollectionRepository
  import opened GameFilter

  // ---------------------------------------------------------------------
  // The review reminder

  /** One week in milliseconds. */
  const OneWeek := 7 * 24 * 60 * 60 * 1000

  /** The stored reminder; times are milliseconds since the epoch. */
  datatype ReviewReminder = ReviewReminder(date: int, periodWeek: int, complete: bool)

  /** What opening the home page does about the reminder. */
  datatype ReminderStep = Schedule(reminder: ReviewReminder) | Keep | AskForReview

  /** The first part of the reminder effect: schedule one, leave it, or show the review window. */
  function OnHomeOpened(stored: Option<ReviewReminder>, now: int): (r: ReminderStep)
    ensures r.Schedule? <==> stored.None?
    ensures r.Schedule? ==> r.reminder == ReviewReminder(now + 604800000, 1, false)
    ensures r.AskForReview? <==> stored.Some? && !stored.value.complete && now >= stored.value.date
  {
    if stored.None? then Schedule(ReviewReminder(now + OneWeek, 1, false))
    else if stored.value.complete then Keep
    else if now >= stored.value.date then AskForReview
    else Keep
  }

  /** The calls the review window's answer makes besides the new reminder. */
  datatype ReviewAction = NoAction | OpenReviewPage | SendFeedbackMail

  datatype AnswerOutcome = AnswerOutcome(action: ReviewAction, write: Option<ReviewReminder>)

  /** A window closed without a choice answers nothing, which counts as "not now". */
  predicate NotNow(answer: Option<string>) {
    answer == Some("notnow") || answer.None? || answer == Some("")
  }

  /** The answer handler of the review window, for the reminder that was due. */
  function OnReviewAnswer(stored: ReviewReminder, answer: Option<string>, now: int): (r: AnswerOutcome)
    ensures r.write.Some? <==> answer in {Some("yes"), Some("no"), Some("mailfeedback")} || NotNow(answer)
    ensures r.write.Some? ==> (r.write.value.complete <==> answer in {Some("yes"), Some("no")})
    ensures r.write.Some? && r.write.value.complete ==> r.write.value == ReviewReminder(now, 1, true)
    ensures r.write.Some? && !r.write.value.complete ==>
      r.write.value.periodWeek in {2, 4, 12}
      && r.write.value.date == now + r.write.value.periodWeek * OneWeek
    ensures NotNow(answer) ==> r.write.value.periodWeek == (if stored.periodWeek == 1 then 2 else 4)
    ensures answer == Some("mailfeedback") ==> r.write == Some(ReviewReminder(now + 12 * OneWeek, 12, false))
    ensures r.action == OpenReviewPage <==> answer == Some("yes")
    ensures r.action == SendFeedbackMail <==> answer == Some("mailfeedback")
  {
    if answer == Some("yes") then AnswerOutcome(OpenReviewPage, Some(ReviewReminder(now, 1, true)))
    else if NotNow(answer) then
      if stored.periodWeek == 1 then AnswerOutcome(NoAction, Some(ReviewReminder(now + 2 * OneWeek, 2, false)))
      else AnswerOutcome(NoAction, Some(ReviewReminder(now + 4 * OneWeek, 4, false)))
    else if answer == Some("no") then AnswerOutcome(NoAction, Some(ReviewReminder(now, 1, true)))
    else if answer == Some("mailfeedback") then
      AnswerOutcome(SendFeedbackMail, Some(ReviewReminder(now + 12 * OneWeek, 12, false)))
    else AnswerOutcome(NoAction, None)
  }

  /** A completed reminder is never shown again. */
  lemma CompletedReminderStaysQuiet(stored: ReviewReminder, now: int)
    requires stored.complete
    ensures OnHomeOpened(Some(stored), now) == Keep
  {
  }

  /**
   * After any answer that postpones, the window does not come back for at
   * least two weeks; after "yes" or "no" it never comes back.
   */
  lemma AnswerQuietensWindow(stored: ReviewReminder, answer: Option<string>, now: int, later: int)
    requires OnReviewAnswer(stored, answer, now).write.Some?
    requires now <= later
    ensures var w := OnReviewAnswer(stored, answer, now).write.value;
      (w.complete || later < now + 2 * OneWeek) ==> OnHomeOpened(Some(w), later) == Keep
  {
  }

  /** Saying "not now" again and again backs off from one week to two, then four weeks, and stays there. */
  lemma NotNowBacksOff(t0: int, t1: int, t2: int)
    ensures var first := OnHomeOpened(None, t0).reminder;
      var second := OnReviewAnswer(first, Some("notnow"), t1).write.value;
      var third := OnReviewAnswer(second, Some("notnow"), t2).write.value;
      first.periodWeek == 1 && second.periodWeek == 2 && third.periodWeek == 4
      && OnReviewAnswer(third, Some("notnow"), t2).write.value.periodWeek == 4
  {
  }

  // ---------------------------------------------------------------------
  // The shown lists

  /** The page's lists: every game, and the games the filter shows. */
  datatype GameLists = GameLists(games: seq<Game>, filteredGames: seq<Game>)

  /** `mappedGames`: one more play and a new last-played time for the game that ran. */
  function AfterGameRun(games: seq<Game>, id: string, now: Timestamp): (r: seq<Game>)
    ensures |r| == |games|
    ensures forall i | 0 <= i < |games| && games[i].id != id :: r[i] == games[i]
    ensures forall i | 0 <= i < |games| && games[i].id == id ::
      r[i].playCount == games[i].playCount + 1 && r[i].lastPlayed == now
      && r[i].(playCount := 0, lastPlayed := "") == games[i].(playCount := 0, lastPlayed := "")
  {
    seq(|games|, i requires 0 <= i < |games| =>
      if games[i].id == id then games[i].(playCount := games[i].playCount + 1, lastPlayed := now) else games[i])
  }

  /** The page's own update is the repository's two updates, `incrementPlayCount` then `setLastPlayedDate`, at the page's clock value. */
  lemma AfterGameRunIsRepositoryUpdates(games: seq<Game>, id: string, now: Timestamp)
    ensures AfterGameRun(games, id, now) == SetLastPlayed(PlayCountIncremented(games, id), id, now)
  {
  }

  /**
   * The store dates the run with the main process's clock and the page with
   * the renderer's, read separately: the page shows the store's list with the
   * run game's last-played time taken from the renderer, and equals it
   * exactly when the two reads agree (or no listed game ran).
   */
  lemma AfterGameRunMatchesStore(games: seq<Game>, id: string, storeNow: Timestamp, uiNow: Timestamp)
    ensures var stored := SetLastPlayed(PlayCountIncremented(games, id), id, storeNow);
      AfterGameRun(games, id, uiNow) == SetLastPlayed(stored, id, uiNow)
    ensures var stored := SetLastPlayed(PlayCountIncremented(games, id), id, storeNow);
      (exists i | 0 <= i < |games| :: games[i].id == id) ==>
        (AfterGameRun(games, id, uiNow) == stored <==> uiNow == storeNow)
  {
    var counted := PlayCountIncremented(games, id);
    var stored := SetLastPlayed(counted, id, storeNow);
    AfterGameRunIsRepositoryUpdates(games, id, uiNow);
    LastPlayedOverwritten(counted, id, storeNow, uiNow);
    if i :| 0 <= i < |games| && games[i].id == id {
      if AfterGameRun(games, id, uiNow) == stored {
        assert AfterGameRun(games, id, uiNow)[i].lastPlayed == uiNow;
        assert stored[i].lastPlayed == storeNow;
      }
    }
  }

  /** `updateUIAfterGameRun(game)`: both lists count the run and date it with the renderer's clock value. */
  function UiAfterGameRun(lists: GameLists, game: Game, now: Timestamp): (r: GameLists)
    ensures r.games == SetLastPlayed(PlayCountIncremented(lists.games, game.id), game.id, now)
    ensures r.filteredGames == SetLastPlayed(PlayCountIncremented(lists.filteredGames, game.id), game.id, now)
  {
    AfterGameRunIsRepositoryUpdates(lists.games, game.id, now);
    AfterGameRunIsRepositoryUpdates(lists.filteredGames, game.id, now);
    GameLists(AfterGameRun(lists.games, game.id, now), AfterGameRun(lists.filteredGames, game.id, now))
  }

  /** `updateUIAfterGameDelete(game)`: the game leaves both lists, the rest keep their order. */
  function UiAfterGameDelete(lists: GameLists, game: Game): (r: GameLists)
    ensures forall g | g in r.games || g in r.filteredGames :: g.id != game.id
    ensures forall g | g in lists.games && g.id != game.id :: g in r.games
    ensures forall g | g in lists.filteredGames && g.id != game.id :: g in r.filteredGames
    ensures IsSubsequence(r.games, lists.games) && IsSubsequence(r.filteredGames, lists.filteredGames)
  {
    WithoutGameMeaning(lists.games, game.id);
    WithoutGameMeaning(lists.filteredGames, game.id);
    GameLists(WithoutGame(lists.games, game.id), WithoutGame(lists.filteredGames, game.id))
  }

  /** What `updateUIAfterGameRemoveFromCollection` touches. */
  datatype HomeView = HomeView(
    collections: seq<Collection>,
    games: seq<Game>,
    selectedCollection: Option<Collection>,
    filterData: FilterData)

  /** `c.id === id ? { ...c, gameIds: c.gameIds.filter(gid => gid !== gameId) } : c` over the list. */
  function WithoutGameIn(collections: seq<Collection>, id: string, gameId: string): (r: seq<Collection>)
    ensures |r| == |collections|
    ensures forall i | 0 <= i < |collections| && collections[i].id != id :: r[i] == collections[i]
    ensures forall i | 0 <= i < |collections| && collections[i].id == id ::
      r[i] == collections[i].(gameIds := WithoutId(collections[i].gameIds, gameId))
  {
    seq(|collections|, i requires 0 <= i < |collections| =>
      if collections[i].id == id then collections[i].(gameIds := WithoutId(collections[i].gameIds, gameId))
      else collections[i])
  }

  /** `g.id === id ? { ...g, collectionIds: g.collectionIds.filter(cid => cid !== collectionId) } : g` */
  function WithoutCollectionIn(games: seq<Game>, id: string, collectionId: string): (r: seq<Game>)
    ensures |r| == |games|
    ensures forall i | 0 <= i < |games| && games[i].id != id :: r[i] == games[i]
    ensures forall i | 0 <= i < |games| && games[i].id == id ::
      r[i] == games[i].(collectionIds := WithoutId(games[i].collectionIds, collectionId))
  {
    seq(|games|, i requires 0 <= i < |games| =>
      if games[i].id == id then games[i].(collectionIds := WithoutId(games[i].collectionIds, collectionId))
      else games[i])
  }

  /**
   * `updateUIAfterGameRemoveFromCollection(game, collection)`: the game id
   * leaves that collection only, the collection id leaves that game only,
   * and a selected collection, with the filter that shows it, loses the game.
   */
  function UiAfterGameRemoveFromCollection(v: HomeView, game: Game, collection: Collection): (r: HomeView)
    ensures forall i | 0 <= i < |r.collections| && r.collections[i].id == collection.id ::
      game.id !in r.collections[i].gameIds
    ensures forall i | 0 <= i < |r.games| && r.games[i].id == game.id ::
      collection.id !in r.games[i].collectionIds
    ensures r.selectedCollection.Some? <==> v.selectedCollection.Some?
    ensures r.selectedCollection.Some? ==>
      r.selectedCollection.value == v.selectedCollection.value.(gameIds := WithoutId(v.selectedCollection.value.gameIds, game.id))
      && r.filterData == v.filterData.(collection := r.selectedCollection)
    ensures r.selectedCollection.None? ==> r.filterData == v.filterData
    ensures r.collections == WithoutGameIn(v.collections, collection.id, game.id)
    ensures r.games == WithoutCollectionIn(v.games, game.id, collection.id)
  {
    var collections := WithoutGameIn(v.collections, collection.id, game.id);
    var games := WithoutCollectionIn(v.games, game.id, collection.id);
    forall i | 0 <= i < |collections| && collections[i].id == collection.id
      ensures game.id !in collections[i].gameIds
    {
      WithoutIdMeaning(v.collections[i].gameIds, game.id);
    }
    forall i | 0 <= i < |games| && games[i].id == game.id
      ensures collection.id !in games[i].collectionIds
    {
      WithoutIdMeaning(v.games[i].collectionIds, collection.id);
    }
    if v.selectedCollection.Some? then
      var s := v.selectedCollection.value;
      var modified := s.(gameIds := WithoutId(s.gameIds, game.id));
      HomeView(collections, games, Some(modified), v.filterData.(collection := Some(modified)))
    else
      HomeView(collections, games, None, v.filterData)
  }

  /**
   * When the page's lists hold what the store holds, and the snapshots passed
   * in are the listed records, the page shows what `removeGameFromCollection`
   * writes to the store.
   */
  lemma RemoveFromCollectionMatchesStore(v: HomeView, game: Game, collection: Collection)
    requires forall c | c in v.collections && c.id == collection.id :: c == collection
    requires forall g | g in v.games && g.id == game.id :: g == game
    ensures UiAfterGameRemoveFromCollection(v, game, collection).collections
      == SetGameIds(v.collections, collection.id, WithoutId(collection.gameIds, game.id))
    ensures UiAfterGameRemoveFromCollection(v, game, collection).games
      == SetCollectionIds(v.games, game.id, WithoutId(game.collectionIds, collection.id))
  {
    var r := UiAfterGameRemoveFromCollection(v, game, collection);
    var expected := SetGameIds(v.collections, collection.id, WithoutId(collection.gameIds, game.id));
    forall i | 0 <= i < |v.collections| ensures r.collections[i] == expected[i] {
      if v.collections[i].id == collection.id {
        assert v.collections[i] in v.collections;
      }
    }
    var expectedGames := SetCollectionIds(v.games, game.id, WithoutId(game.collectionIds, collection.id));
    forall i | 0 <= i < |v.games| ensures r.games[i] == expectedGames[i] {
      if v.games[i].id == game.id {
        assert v.games[i] in v.games;
      }
    }
  }

  /**
   * `updateUIAfterCollectionDelete(collection)`, once the games are reloaded:
   * the collection leaves the list and the filter goes back to all games.
   */
  function UiAfterCollectionDelete(v: HomeView, collection: Collection, reloadedGames: seq<Game>): (r: HomeView)
    ensures forall c | c in r.collections :: c.id != collection.id
    ensures IsSubsequence(r.collections, v.collections)
    ensures r.games == reloadedGames && r.selectedCollection.None?
    ensures r.filterData == v.filterData.(allGames := AllGamesShown, collection := None,
      mostPlayedOnes := None, newOnes := None, searchQuery := None)
  {
    WithoutCollectionMeaning(v.collections, collection.id);
    HomeView(
      WithoutCollection(v.collections, collection.id),
      reloadedGames,
      None,
      v.filterData.(allGames := AllGamesShown, collection := None, mostPlayedOnes := None, newOnes := None, searchQuery := None))
  }
}
