/** The season-level drivers: for every game number of the season, build the
    game ID, fetch that game's document, and run one record extractor over
    it inside a `try` whose `except` moves on to the next game number.

    Fetching is a parameter: `feed(id)` is the parsed document served for
    game ID `id`, or `None` when the request, its status check or the JSON
    decoding fails. */
module Season {
  import opened Json
  import opened Records
  import opened Yields
  import opened Schedule
  import opened Extract

  /** The five season-level extractors. */
  datatype RecordKind = GameResults | GameOfficials | TeamStats | PlayerStats(role: Role)

  /** The extractor of one kind run over one parsed document. */
  function GameYield(kind: RecordKind, doc: Json): Yield {
    match kind
    case GameResults => GameResultYield(doc)
    case GameOfficials => OfficialsYield(doc)
    case TeamStats => TeamStatsYield(doc)
    case PlayerStats(role) => PlayersYield(doc, role)
  }

  function Extractor(kind: RecordKind): Json -> Yield {
    doc => GameYield(kind, doc)
  }

  /** One `try` block: the fetch, then the extractor; a failed fetch raises
      before anything is yielded. */
  function FetchedYield(extract: Json -> Yield, fetched: Option<Json>): Yield {
    match fetched
    case None => Raised
    case Some(doc) => extract(doc)
  }

  /** The `try` block of one game, for each kind; also the whole body of the
      single-game variants, which fetch one given game ID. */
  method ExtractGame(kind: RecordKind, fetched: Option<Json>) returns (y: Yield)
    ensures y == FetchedYield(Extractor(kind), fetched)
  {
    if fetched.None? {
      return Raised;
    }
    var doc := fetched.value;
    match kind
    case GameResults =>
      var row := GameResultRow(doc);
      y := Emit(row);
    case GameOfficials =>
      y := ExtractOfficials(doc);
    case TeamStats =>
      y := ExtractTeamStats(doc);
    case PlayerStats(role) =>
      y := ExtractPlayers(doc, role);
  }

  /** What one game number contributes to the season's output: whatever its
      `try` block yielded before finishing or raising. */
  function GamesOf(extract: Json -> Yield, season: string, feed: string -> Option<Json>): nat -> seq<Row> {
    (n: nat) => FetchedYield(extract, feed(GameId(season, n))).rows
  }

  /** The records of the game numbers `ns`, taken in order, where game
      number `n` contributes `rowsOf(n)`. */
  function Collect(rowsOf: nat -> seq<Row>, ns: seq<nat>): seq<Row>
    decreases |ns|
  {
    if ns == [] then [] else Collect(rowsOf, ns[..|ns| - 1]) + rowsOf(ns[|ns| - 1])
  }

  /** The season loop, for any per-document extractor: `int(season)` picks
      the range and raises (before any record) on a season that is not an
      integer; every game number then contributes its records, in ascending
      order. */
  function SeasonRun(extract: Json -> Yield, season: string, feed: string -> Option<Json>): Option<seq<Row>> {
    var year :- ParseInt(season);
    Some(Collect(GamesOf(extract, season, feed), GameNumbers(year)))
  }

  /** The season-level extractor of one kind. */
  function SeasonOutput(kind: RecordKind, season: string, feed: string -> Option<Json>): Option<seq<Row>> {
    SeasonRun(Extractor(kind), season, feed)
  }

  method ExtractSeason(kind: RecordKind, season: string, feed: string -> Option<Json>)
    returns (out: Option<seq<Row>>)
    ensures out == SeasonOutput(kind, season, feed)
  {
    var year := ParseInt(season);
    if year.None? {
      return None;
    }
    var count: nat;
    if year.value == 2012 {
      count := 720;
    } else if year.value >= 2017 {
      count := 1271;
    } else {
      count := 1230;
    }
    assert count == GameCount(year.value);
    ghost var ns := GameNumbers(year.value);
    ghost var games := GamesOf(Extractor(kind), season, feed);
    var rows: seq<Row> := [];
    var n := 1;
    while n <= count
      invariant 1 <= n <= count + 1 && count == |ns|
      invariant rows == Collect(games, ns[..n - 1])
    {
      var y := ExtractGame(kind, feed(GameId(season, n)));
      CollectStep(games, ns, n);
      assert ns[n - 1] == n && y.rows == games(n);
      rows := rows + y.rows;
      n := n + 1;
    }
    assert ns[..count] == ns;
    out := Some(rows);
  }

  lemma CollectStep(rowsOf: nat -> seq<Row>, ns: seq<nat>, n: nat)
    requires 1 <= n <= |ns|
    ensures Collect(rowsOf, ns[..n]) == Collect(rowsOf, ns[..n - 1]) + rowsOf(ns[n - 1])
  {
    assert ns[..n][..n - 1] == ns[..n - 1];
  }

  /** The records of consecutive runs of game numbers are concatenated. */
  lemma {:induction false} CollectAppend(rowsOf: nat -> seq<Row>, ns: seq<nat>, ms: seq<nat>)
    ensures Collect(rowsOf, ns + ms) == Collect(rowsOf, ns) + Collect(rowsOf, ms)
    decreases |ms|
  {
    if ms != [] {
      var ms' := ms[..|ms| - 1];
      assert (ns + ms)[..|ns + ms| - 1] == ns + ms';
      CollectAppend(rowsOf, ns, ms');
    } else {
      assert ns + ms == ns;
    }
  }

  /** Only the game numbers in `ns` matter. */
  lemma {:induction false} CollectAgree(rowsOf: nat -> seq<Row>, rowsOf': nat -> seq<Row>, ns: seq<nat>)
    requires forall i :: 0 <= i < |ns| ==> rowsOf(ns[i]) == rowsOf'(ns[i])
    ensures Collect(rowsOf, ns) == Collect(rowsOf', ns)
    decreases |ns|
  {
    if ns != [] {
      var init := ns[..|ns| - 1];
      assert forall i :: 0 <= i < |init| ==> init[i] == ns[i];
      CollectAgree(rowsOf, rowsOf', init);
    }
  }

  /** At most `b` records per game number when no game gives more than `b`. */
  lemma {:induction false} CollectBound(rowsOf: nat -> seq<Row>, ns: seq<nat>, b: nat)
    requires forall i :: 0 <= i < |ns| ==> |rowsOf(ns[i])| <= b
    ensures |Collect(rowsOf, ns)| <= b * |ns|
    decreases |ns|
  {
    if ns != [] {
      var init := ns[..|ns| - 1];
      assert forall i :: 0 <= i < |init| ==> init[i] == ns[i];
      CollectBound(rowsOf, init, b);
      assert |rowsOf(ns[|ns| - 1])| <= b;
      assert b * |ns| == b * |init| + b;
    }
  }

  /** The output around one game: the games before it, that game, then the
      games after it. */
  lemma SeasonSplit(rowsOf: nat -> seq<Row>, pre: seq<nat>, g: nat, post: seq<nat>)
    ensures Collect(rowsOf, pre + [g] + post) == Collect(rowsOf, pre) + rowsOf(g) + Collect(rowsOf, post)
  {
    CollectAppend(rowsOf, pre + [g], post);
    CollectAppend(rowsOf, pre, [g]);
    assert [g][..0] == [];
  }

  /** Failure isolation, for every extractor: what game number `g`
      contributes sits between the records of the games before it and those
      of the games after it, and replacing its document (with a failed
      fetch, a document that raises part-way, or any other) changes that
      segment and nothing else. */
  lemma FailureIsolation(extract: Json -> Yield, season: string, year: int,
                         feed: string -> Option<Json>, feed': string -> Option<Json>, g: nat)
    requires ParseInt(season) == Some(year)
    requires 1 <= g <= GameCount(year)
    requires forall id :: id != GameId(season, g) ==> feed(id) == feed'(id)
    ensures var ns, games := GameNumbers(year), GamesOf(extract, season, feed);
      var before, after := Collect(games, ns[..g - 1]), Collect(games, ns[g..]);
      SeasonRun(extract, season, feed) ==
        Some(before + FetchedYield(extract, feed(GameId(season, g))).rows + after) &&
      SeasonRun(extract, season, feed') ==
        Some(before + FetchedYield(extract, feed'(GameId(season, g))).rows + after)
  {
    var ns := GameNumbers(year);
    var pre, post := ns[..g - 1], ns[g..];
    assert ns == pre + [g] + post;
    var games, games' := GamesOf(extract, season, feed), GamesOf(extract, season, feed');
    assert SeasonRun(extract, season, feed) == Some(Collect(games, ns));
    assert SeasonRun(extract, season, feed') == Some(Collect(games', ns));
    SeasonSplit(games, pre, g, post);
    SeasonSplit(games', pre, g, post);
    assert forall i :: 0 <= i < |pre| ==> pre[i] != g && pre[i] < 10000;
    assert forall i :: 0 <= i < |post| ==> post[i] != g && post[i] < 10000;
    OtherGames(extract, season, feed, feed', g, pre);
    OtherGames(extract, season, feed, feed', g, post);
  }

  /** A game whose fetch fails is skipped: the output is the other games'
      records, exactly as they would be with any document for it. */
  lemma FailedGameSkipped(extract: Json -> Yield, season: string, year: int,
                          feed: string -> Option<Json>, feed': string -> Option<Json>, g: nat)
    requires ParseInt(season) == Some(year)
    requires 1 <= g <= GameCount(year)
    requires forall id :: id != GameId(season, g) ==> feed(id) == feed'(id)
    requires feed'(GameId(season, g)).None?
    ensures var ns, games := GameNumbers(year), GamesOf(extract, season, feed);
      SeasonRun(extract, season, feed') == Some(Collect(games, ns[..g - 1]) + Collect(games, ns[g..]))
  {
    FailureIsolation(extract, season, year, feed, feed', g);
    var ns, games := GameNumbers(year), GamesOf(extract, season, feed);
    var before, after := Collect(games, ns[..g - 1]), Collect(games, ns[g..]);
    assert FetchedYield(extract, feed'(GameId(season, g))).rows == [];
    assert before + [] + after == before + after;
  }

  /** Game numbers other than `g` have other game IDs, so a feed changed
      only at `g`'s ID leaves their records as they were. */
  lemma OtherGames(extract: Json -> Yield, season: string,
                   feed: string -> Option<Json>, feed': string -> Option<Json>, g: nat, ns: seq<nat>)
    requires g < 10000 && forall i :: 0 <= i < |ns| ==> ns[i] != g && ns[i] < 10000
    requires forall id :: id != GameId(season, g) ==> feed(id) == feed'(id)
    ensures Collect(GamesOf(extract, season, feed), ns) == Collect(GamesOf(extract, season, feed'), ns)
  {
    var games, games' := GamesOf(extract, season, feed), GamesOf(extract, season, feed');
    forall i | 0 <= i < |ns| ensures games(ns[i]) == games'(ns[i]) {
      if GameId(season, ns[i]) == GameId(season, g) {
        GameIdInjective(season, ns[i], g);
      }
    }
    CollectAgree(games, games', ns);
  }

  /** At most one game-result record and at most two team records per game
      number of the season. */
  lemma SeasonSizes(season: string, year: int, feed: string -> Option<Json>)
    requires ParseInt(season) == Some(year)
    ensures |SeasonOutput(GameResults, season, feed).value| <= GameCount(year)
    ensures |SeasonOutput(TeamStats, season, feed).value| <= 2 * GameCount(year)
  {
    var ns := GameNumbers(year);
    var results := GamesOf(Extractor(GameResults), season, feed);
    var teams := GamesOf(Extractor(TeamStats), season, feed);
    forall i | 0 <= i < |ns| ensures |results(ns[i])| <= 1 {
      var fetched := feed(GameId(season, ns[i]));
      if fetched.Some? {
        GameResultRequired(fetched.value);
        assert results(ns[i]) == GameResultYield(fetched.value).rows;
      }
    }
    forall i | 0 <= i < |ns| ensures |teams(ns[i])| <= 2 {
      var fetched := feed(GameId(season, ns[i]));
      if fetched.Some? {
        TeamStatsShape(fetched.value);
        assert teams(ns[i]) == TeamStatsYield(fetched.value).rows;
      }
    }
    CollectBound(results, ns, 1);
    CollectBound(teams, ns, 2);
  }

  /** A season that `int()` rejects raises before any record; any other
      season gives an output. */
  lemma BadSeason(kind: RecordKind, season: string, feed: string -> Option<Json>)
    ensures SeasonOutput(kind, season, feed).None? <==> ParseInt(season).None?
  {
  }
}
