// Which games the home and big-picture screens show: a search overrides
// everything, then "most played" and "new ones", and otherwise the
// installed-only and collection filters apply together.
module GameFilter {
  import opened Common
  import opened Records

  /** `'ALL_GAMES' | 'ALL_GAMES_COLLECTION'` */
  datatype AllGames = AllGamesShown | AllGamesCollection

  datatype FilterData = FilterData(
    installedOnes: bool,
    allGames: AllGames,
    mostPlayedOnes: Option<bool>,
    newOnes: Option<bool>,
    collection: Option<Collection>,
    searchQuery: Option<string>)

  /** The filter the big-picture screen starts with and returns to on "display all". */
  const DefaultFilterData := FilterData(true, AllGamesShown, None, None, None, None)

  /** `OrderTypes` */
  datatype OrderType = Alphabetic | CreatedAt | MostPlayed | RecentlyPlayed

  datatype Direction = Ascending | Descending

  datatype SortData = SortData(sortType: OrderType, direction: Direction)

  const DefaultSortData := SortData(Alphabetic, Ascending)

  function Flipped(d: Direction): (r: Direction)
    ensures r != d
  {
    if d == Ascending then Descending else Ascending
  }

  /** The search text in force: the trimmed query, when there is one and it is not blank. */
  function ActiveQuery(f: FilterData): (q: Option<string>)
    ensures q.Some? <==> f.searchQuery.Some? && !AllSpace(f.searchQuery.value)
    ensures q.Some? ==> q.value == Trim(f.searchQuery.value) && q.value != ""
  {
    if f.searchQuery.Some? then
      TrimEmptyIffAllSpace(f.searchQuery.value);
      if |Trim(f.searchQuery.value)| > 0 then Some(Trim(f.searchQuery.value)) else None
    else None
  }

  /** `g.name.toLowerCase().includes(query.toLowerCase())` */
  function NameMatches(query: string): Game -> bool {
    (g: Game) => Contains(ToLower(g.name), ToLower(query))
  }

  function Played(): Game -> bool {
    (g: Game) => g.playCount > 0
  }

  function InstalledFilter(installedOnes: bool): Game -> bool {
    (g: Game) => !installedOnes || g.isInstalled
  }

  /** The collection filter is in force only when a collection is set and `allGames` says to use it. */
  predicate CollectionInForce(f: FilterData) {
    f.collection.Some? && f.allGames == AllGamesCollection
  }

  /** The game ids the collection filter keeps, when it is in force. */
  function CollectionIds(f: FilterData): Option<seq<string>> {
    if CollectionInForce(f) then Some(f.collection.value.gameIds) else None
  }

  function CollectionFilter(ids: Option<seq<string>>): Game -> bool {
    (g: Game) => ids.None? || g.id in ids.value
  }

  /**
   * `filterAndSortGames(filters)` before its sort: `None` when there are no
   * games at all (the shown list is then left as it was).
   */
  function FilterGames(games: seq<Game>, f: FilterData): (r: Option<seq<Game>>)
    ensures r.Some? <==> games != []
  {
    if games == [] then None
    else if ActiveQuery(f).Some? then Some(Filter(games, NameMatches(ActiveQuery(f).value)))
    else if f.mostPlayedOnes == Some(true) then Some(Filter(games, Played()))
    else if f.newOnes == Some(true) then Some(games)
    else Some(Filter(Filter(games, InstalledFilter(f.installedOnes)), CollectionFilter(CollectionIds(f))))
  }

  /** An independent statement of which games a filter lets through. */
  predicate Shown(f: FilterData, g: Game) {
    match ActiveQuery(f)
    case Some(q) => Contains(ToLower(g.name), ToLower(q))
    case None =>
      if f.mostPlayedOnes == Some(true) then g.playCount > 0
      else f.newOnes == Some(true) || ((!f.installedOnes || g.isInstalled) && (!CollectionInForce(f) || g.id in f.collection.value.gameIds))
  }

  /**
   * On a non-empty list, a game is shown exactly when it is in the list and
   * passes the filter, and the shown games keep the list's order.
   */
  lemma FilterGamesMeaning(games: seq<Game>, f: FilterData)
    requires games != []
    ensures FilterGames(games, f).Some?
    ensures forall g :: g in FilterGames(games, f).value <==> g in games && Shown(f, g)
    ensures IsSubsequence(FilterGames(games, f).value, games)
  {
    var r := FilterGames(games, f).value;
    if ActiveQuery(f).Some? {
      var keep := NameMatches(ActiveQuery(f).value);
      forall g ensures g in r <==> g in games && Shown(f, g) {
        FilterMembership(games, keep, g);
      }
      FilterIsSubsequence(games, keep);
    } else if f.mostPlayedOnes == Some(true) {
      forall g ensures g in r <==> g in games && Shown(f, g) {
        FilterMembership(games, Played(), g);
      }
      FilterIsSubsequence(games, Played());
    } else if f.newOnes == Some(true) {
      SubsequenceOfItself(games);
    } else {
      var installed := InstalledFilter(f.installedOnes);
      var inCollection := CollectionFilter(CollectionIds(f));
      var first := Filter(games, installed);
      forall g ensures g in r <==> g in games && Shown(f, g) {
        FilterMembership(games, installed, g);
        FilterMembership(first, inCollection, g);
      }
      FilterIsSubsequence(games, installed);
      FilterIsSubsequence(first, inCollection);
      SubsequenceTransitive(r, first, games);
    }
  }

  /** A search in force decides alone: the other filters do not change what is shown. */
  lemma SearchOverridesOtherFilters(games: seq<Game>, f: FilterData, other: FilterData)
    requires ActiveQuery(f).Some? && other.searchQuery == f.searchQuery
    ensures FilterGames(games, f) == FilterGames(games, other)
  {
  }

  /** A collection set while `allGames` is `'ALL_GAMES'` does not filter anything. */
  lemma CollectionIgnoredUnlessSelected(games: seq<Game>, f: FilterData)
    requires f.allGames == AllGamesShown
    ensures FilterGames(games, f) == FilterGames(games, f.(collection := None))
  {
  }

  /** The starting filter shows the installed games, in their order. */
  lemma DefaultShowsInstalled(games: seq<Game>)
    requires games != []
    ensures FilterGames(games, DefaultFilterData) == Some(Filter(games, InstalledFilter(true)))
  {
    var installed := Filter(games, InstalledFilter(true));
    FilterKeepsAll(installed, CollectionFilter(None));
  }

  lemma {:induction false} SubsequenceOfItself<T>(s: seq<T>)
    ensures IsSubsequence(s, s)
    decreases |s|
  {
    if s != [] {
      SubsequenceOfItself(s[1..]);
    }
  }

  lemma {:induction false} SubsequenceTransitive<T>(a: seq<T>, b: seq<T>, c: seq<T>)
    requires IsSubsequence(a, b) && IsSubsequence(b, c)
    ensures IsSubsequence(a, c)
    decreases |c|
  {
    if a != [] && c != [] {
      if b[0] == c[0] {
        if a[0] == b[0] {
          SubsequenceTransitive(a[1..], b[1..], c[1..]);
        } else {
          SubsequenceTransitive(a, b[1..], c[1..]);
        }
      } else {
        SubsequenceTransitive(a, b, c[1..]);
        SubsequenceDropFront(a, c);
      }
    }
  }
}
