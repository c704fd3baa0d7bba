/** Flattening one parsed game document (the live feed of one game) into
    flat records of five kinds: game result, officials, team stats, skater
    stats and goalie stats.  Each kind has fixed columns, given here as a
    datatype whose `Row()` is the ordered dict the source builds key by
    key; team and player records then take every key of a stats block. */
module Extract {
  import opened Json
  import opened Records
  import opened Yields

  /** The fixed side order of every per-side loop. */
  const Sides: seq<string> := ["home", "away"]

  /** The fixed columns of each record kind, in the order they are set. */
  const ResultKeys: seq<string> := ["gameID", "season", "dateTime", "gameType", "homeTeamID",
    "homeTeamName", "awayTeamID", "awayTeamName", "homeGoals", "awayGoals", "homeTeamWin", "venue"]
  const OfficialKeys: seq<string> := ["gameID", "officialName", "officialType"]
  const TeamKeys: seq<string> := ["gameID", "homeAway", "homeTeamWin", "periodsPlayed",
    "headCoach", "teamID", "teamName"]
  const PlayerKeys: seq<string> := ["gameID", "playerID", "fullName", "position", "homeAway",
    "teamID", "teamName"]

  /** No record kind sets a fixed column twice. */
  lemma KeysDistinct()
    ensures Distinct(ResultKeys) && Distinct(OfficialKeys)
    ensures Distinct(TeamKeys) && Distinct(PlayerKeys)
  {
  }

  /** `game['liveData']['linescore']['teams']['home']['goals'] >
      game['liveData']['linescore']['teams']['away']['goals']`, the one
      derivation of `homeTeamWin` used by game-result and team records. */
  function HomeTeamWin(doc: Json): Option<bool> {
    var home :- Path(doc, ["liveData", "linescore", "teams", "home", "goals"]);
    var away :- Path(doc, ["liveData", "linescore", "teams", "away", "goals"]);
    Greater(home, away)
  }

  /** A record's stats columns: every key of the stats block copied after
      the fixed columns, or nothing when the block is not a mapping. */
  function WithStats(fixed: Row, stats: Json): Row {
    if stats.JObj? then Merged(fixed, stats.fields) else fixed
  }

  /** What the stats pass-through guarantees: the fixed columns come first
      and keep their values unless a stats key of the same name overwrites
      them; the new stats keys follow in the stats block's order; every stats
      key holds its stats value; a stats value that is not a mapping adds
      nothing. */
  lemma StatsPassThrough(fixed: Row, stats: Json, c: string)
    requires stats.JObj? ==> DistinctKeys(stats.fields)
    ensures Keys(fixed) <= Keys(WithStats(fixed, stats))
    ensures !stats.JObj? ==> WithStats(fixed, stats) == fixed
    ensures stats.JObj? && Lookup(stats.fields, c).Some? ==>
              Lookup(WithStats(fixed, stats), c) == Lookup(stats.fields, c)
    ensures !(stats.JObj? && Lookup(stats.fields, c).Some?) ==>
              Lookup(WithStats(fixed, stats), c) == Lookup(fixed, c)
    ensures stats.JObj? ==>
              Keys(WithStats(fixed, stats)) == Keys(fixed) + NewKeys(Keys(fixed), Keys(stats.fields))
  {
    if stats.JObj? {
      MergedLookup(fixed, stats.fields, c);
      MergedKeys(fixed, stats.fields);
    }
  }

  // ---------------------------------------------------------------------
  // Game results: one record per game, or none.

  datatype GameResult = GameResult(
    gameId: Json, season: Json, dateTime: Json, gameType: Json,
    homeTeamId: Json, homeTeamName: Json, awayTeamId: Json, awayTeamName: Json,
    homeGoals: Json, awayGoals: Json, homeTeamWin: bool, venue: Json)
  {
    function Row(): Row {
      [("gameID", gameId), ("season", season), ("dateTime", dateTime),
       ("gameType", gameType), ("homeTeamID", homeTeamId),
       ("homeTeamName", homeTeamName), ("awayTeamID", awayTeamId),
       ("awayTeamName", awayTeamName), ("homeGoals", homeGoals),
       ("awayGoals", awayGoals), ("homeTeamWin", JBool(homeTeamWin)), ("venue", venue)]
    }
  }

  /** The columns of a game-result record, none repeated, and the values of
      the ones the properties below speak about. */
  lemma GameResultColumns(g: GameResult)
    ensures Keys(g.Row()) == ResultKeys
    ensures Lookup(g.Row(), "gameID") == Some(g.gameId)
    ensures Lookup(g.Row(), "homeGoals") == Some(g.homeGoals)
    ensures Lookup(g.Row(), "awayGoals") == Some(g.awayGoals)
    ensures Lookup(g.Row(), "homeTeamWin") == Some(JBool(g.homeTeamWin))
  {
    var row := g.Row();
    assert Keys(row) == ResultKeys;
    KeysDistinct();
    LookupIndex(row, 0);
    LookupIndex(row, 8);
    LookupIndex(row, 9);
    LookupIndex(row, 10);
  }

  /** The twelve reads of one game-result record.  The reads have no side
      effects, so the record exists exactly when every read succeeds, which
      is when the source's sequence of reads reaches `yield`. */
  function GameResultOf(doc: Json): Option<GameResult> {
    var gameId := Subscript(doc, JStr("gamePk"));
    var season := Path(doc, ["gameData", "game", "season"]);
    var dateTime := Path(doc, ["gameData", "datetime", "dateTime"]);
    var gameType := Path(doc, ["gameData", "game", "type"]);
    var homeTeamId := Path(doc, ["gameData", "teams", "home", "id"]);
    var homeTeamName := Path(doc, ["gameData", "teams", "home", "name"]);
    var awayTeamId := Path(doc, ["gameData", "teams", "away", "id"]);
    var awayTeamName := Path(doc, ["gameData", "teams", "away", "name"]);
    var homeGoals := Path(doc, ["liveData", "linescore", "teams", "home", "goals"]);
    var awayGoals := Path(doc, ["liveData", "linescore", "teams", "away", "goals"]);
    var win := HomeTeamWin(doc);
    var venue := Path(doc, ["gameData", "venue", "name"]);
    if gameId.Some? && season.Some? && dateTime.Some? && gameType.Some? &&
       homeTeamId.Some? && homeTeamName.Some? && awayTeamId.Some? && awayTeamName.Some? &&
       homeGoals.Some? && awayGoals.Some? && win.Some? && venue.Some?
    then
      Some(GameResult(gameId.value, season.value, dateTime.value, gameType.value,
                      homeTeamId.value, homeTeamName.value, awayTeamId.value, awayTeamName.value,
                      homeGoals.value, awayGoals.value, win.value, venue.value))
    else None
  }

  function GameResultRow(doc: Json): Option<Row> {
    var g :- GameResultOf(doc);
    Some(g.Row())
  }

  function GameResultYield(doc: Json): Yield {
    Emit(GameResultRow(doc))
  }

  /** The record's `homeTeamWin` is `homeGoals > awayGoals` on its own goal
      columns: for integer goals, true exactly when the home side scored
      strictly more, so a tie gives false. */
  lemma GameResultWinner(doc: Json)
    requires GameResultOf(doc).Some?
    ensures var g := GameResultOf(doc).value;
      Lookup(g.Row(), "homeGoals") == Some(g.homeGoals) &&
      Lookup(g.Row(), "awayGoals") == Some(g.awayGoals) &&
      Lookup(g.Row(), "homeTeamWin") == Some(JBool(g.homeTeamWin)) &&
      Greater(g.homeGoals, g.awayGoals) == Some(g.homeTeamWin) &&
      (g.homeGoals.JInt? && g.awayGoals.JInt? ==> (g.homeTeamWin <==> g.homeGoals.i > g.awayGoals.i))
  {
    GameResultColumns(GameResultOf(doc).value);
  }

  /** A game yields its one result record exactly when every required field
      is present and the two goal values are comparable; otherwise it yields
      nothing. */
  lemma GameResultRequired(doc: Json)
    ensures GameResultRow(doc).Some? <==>
      Subscript(doc, JStr("gamePk")).Some? &&
      Path(doc, ["gameData", "game", "season"]).Some? &&
      Path(doc, ["gameData", "datetime", "dateTime"]).Some? &&
      Path(doc, ["gameData", "game", "type"]).Some? &&
      Path(doc, ["gameData", "teams", "home", "id"]).Some? &&
      Path(doc, ["gameData", "teams", "home", "name"]).Some? &&
      Path(doc, ["gameData", "teams", "away", "id"]).Some? &&
      Path(doc, ["gameData", "teams", "away", "name"]).Some? &&
      HomeTeamWin(doc).Some? &&
      Path(doc, ["gameData", "venue", "name"]).Some?
    ensures GameResultYield(doc).rows == if GameResultRow(doc).Some? then [GameResultRow(doc).value] else []
  {
  }

  // ---------------------------------------------------------------------
  // Officials: one record per entry of the boxscore's officials list.

  datatype Official = Official(gameId: Json, officialName: Json, officialType: Json) {
    function Row(): Row {
      [("gameID", gameId), ("officialName", officialName), ("officialType", officialType)]
    }
  }

  lemma OfficialColumns(o: Official)
    ensures Keys(o.Row()) == OfficialKeys
    ensures Lookup(o.Row(), "gameID") == Some(o.gameId)
    ensures Lookup(o.Row(), "officialName") == Some(o.officialName)
    ensures Lookup(o.Row(), "officialType") == Some(o.officialType)
  {
    var row := o.Row();
    assert Keys(row) == OfficialKeys;
    KeysDistinct();
    LookupIndex(row, 0);
    LookupIndex(row, 1);
    LookupIndex(row, 2);
  }

  function OfficialsPath(): seq<string> {
    ["liveData", "boxscore", "officials"]
  }

  /** The i-th official.  `game['gamePk']` is read inside the loop, once
      per official. */
  function OfficialOf(doc: Json, officials: Json, i: int): Option<Official> {
    var gameId := Subscript(doc, JStr("gamePk"));
    var entry :- Subscript(officials, JInt(i));
    var name := Path(entry, ["official", "fullName"]);
    var kind := Subscript(entry, JStr("officialType"));
    if gameId.Some? && name.Some? && kind.Some?
    then Some(Official(gameId.value, name.value, kind.value))
    else None
  }

  function OfficialRows(doc: Json, officials: Json, n: nat): seq<Option<Row>> {
    seq(n, i requires 0 <= i < n =>
      var o :- OfficialOf(doc, officials, i);
      Some(o.Row()))
  }

  /** `for i in range(len(officials)): yield the i-th official's record` */
  function OfficialsYield(doc: Json): Yield {
    match Path(doc, OfficialsPath())
    case None => Raised
    case Some(officials) =>
      match Len(officials)
      case None => Raised
      case Some(n) => EmitAll(OfficialRows(doc, officials, n))
  }

  method ExtractOfficials(doc: Json) returns (y: Yield)
    ensures y == OfficialsYield(doc)
  {
    var officials := Path(doc, OfficialsPath());
    if officials.None? {
      return Raised;
    }
    var n := Len(officials.value);
    if n.None? {
      return Raised;
    }
    ghost var rs := OfficialRows(doc, officials.value, n.value);
    var rows: seq<Row> := [];
    var i := 0;
    while i < n.value
      invariant 0 <= i <= n.value
      invariant Then(Yield(rows, true), EmitAll(rs[i..])) == OfficialsYield(doc)
    {
      EmitAllStep(rs, i);
      ThenStep(rows, Emit(rs[i]), EmitAll(rs[i + 1..]));
      var o := OfficialOf(doc, officials.value, i);
      if o.None? {
        return Yield(rows, false);
      }
      rows := rows + [o.value.Row()];
      i := i + 1;
    }
    assert rs[i..] == [];
    y := Yield(rows, true);
  }

  /** One record per entry of the officials list, in list order, each
      stamped with the document's `gamePk`; the game ends with one record
      per entry exactly when every entry is complete, and otherwise stops
      at the first incomplete entry. */
  lemma OfficialsPerEntry(doc: Json, items: seq<Json>)
    requires Path(doc, OfficialsPath()) == Some(JList(items))
    ensures var y := OfficialsYield(doc);
      |y.rows| <= |items| &&
      (y.completed <==> |y.rows| == |items|) &&
      (!y.completed ==> OfficialOf(doc, JList(items), |y.rows|).None?) &&
      (forall k :: 0 <= k < |y.rows| ==>
         OfficialOf(doc, JList(items), k).Some? &&
         y.rows[k] == OfficialOf(doc, JList(items), k).value.Row() &&
         Lookup(y.rows[k], "gameID") == Subscript(doc, JStr("gamePk")) &&
         Lookup(y.rows[k], "officialName") == Path(items[k], ["official", "fullName"]) &&
         Lookup(y.rows[k], "officialType") == Subscript(items[k], JStr("officialType")))
  {
    var officials := JList(items);
    var rs := OfficialRows(doc, officials, |items|);
    EmitAllRows(rs);
    var y := OfficialsYield(doc);
    assert y == EmitAll(rs);
    forall k | 0 <= k < |y.rows|
      ensures OfficialOf(doc, officials, k).Some?
      ensures y.rows[k] == OfficialOf(doc, officials, k).value.Row()
      ensures Lookup(y.rows[k], "gameID") == Subscript(doc, JStr("gamePk"))
      ensures Lookup(y.rows[k], "officialName") == Path(items[k], ["official", "fullName"])
      ensures Lookup(y.rows[k], "officialType") == Subscript(items[k], JStr("officialType"))
    {
      assert rs[k] == Some(y.rows[k]);
      OfficialEntry(doc, items, k);
    }
  }

  /** The record built from the k-th entry of an officials list. */
  lemma OfficialEntry(doc: Json, items: seq<Json>, k: nat)
    requires k < |items| && OfficialOf(doc, JList(items), k).Some?
    ensures var row := OfficialOf(doc, JList(items), k).value.Row();
      Lookup(row, "gameID") == Subscript(doc, JStr("gamePk")) &&
      Lookup(row, "officialName") == Path(items[k], ["official", "fullName"]) &&
      Lookup(row, "officialType") == Subscript(items[k], JStr("officialType"))
  {
    assert Subscript(JList(items), JInt(k)) == Some(items[k]);
    OfficialColumns(OfficialOf(doc, JList(items), k).value);
  }

  /** An officials value that is not a list (absent, a mapping, a string,
      ...) yields no record. */
  lemma OfficialsNotAList(doc: Json)
    requires !(Path(doc, OfficialsPath()).Some? && Path(doc, OfficialsPath()).value.JList?)
    ensures OfficialsYield(doc).rows == []
  {
    match Path(doc, OfficialsPath())
    case None =>
    case Some(officials) =>
      match Len(officials)
      case None =>
      case Some(n) =>
        if n > 0 {
          var rs := OfficialRows(doc, officials, n);
          assert rs[0].None? by {
            match officials
            case JStr(s) =>
              assert Subscript(JStr([s[0]]), JStr("official")).None?;
            case _ =>
          }
          assert EmitAll(rs) == Then(Emit(rs[0]), EmitAll(rs[1..]));
        }
  }

  // ---------------------------------------------------------------------
  // Team stats: one record per side, home then away.

  datatype TeamLine = TeamLine(
    gameId: Json, homeAway: string, homeTeamWin: bool, periodsPlayed: Json,
    headCoach: Json, teamId: Json, teamName: Json)
  {
    function Row(): Row {
      [("gameID", gameId), ("homeAway", JStr(homeAway)), ("homeTeamWin", JBool(homeTeamWin)),
       ("periodsPlayed", periodsPlayed), ("headCoach", headCoach), ("teamID", teamId),
       ("teamName", teamName)]
    }
  }

  lemma TeamLineColumns(t: TeamLine)
    ensures Keys(t.Row()) == TeamKeys
    ensures Lookup(t.Row(), "gameID") == Some(t.gameId)
    ensures Lookup(t.Row(), "homeAway") == Some(JStr(t.homeAway))
    ensures Lookup(t.Row(), "homeTeamWin") == Some(JBool(t.homeTeamWin))
    ensures Lookup(t.Row(), "periodsPlayed") == Some(t.periodsPlayed)
    ensures Lookup(t.Row(), "headCoach") == Some(t.headCoach)
  {
    var row := t.Row();
    assert Keys(row) == TeamKeys;
    KeysDistinct();
    LookupIndex(row, 0);
    LookupIndex(row, 1);
    LookupIndex(row, 2);
    LookupIndex(row, 3);
    LookupIndex(row, 4);
  }

  function TeamStatsOf(doc: Json, side: string): Option<Json> {
    Path(doc, ["liveData", "boxscore", "teams", side, "teamStats", "teamSkaterStats"])
  }

  function CoachesPath(side: string): seq<string> {
    ["liveData", "boxscore", "teams", side, "coaches"]
  }

  /** `...['coaches'][0]['person']['fullName']`: only the first coach. */
  function HeadCoach(doc: Json, side: string): Option<Json> {
    var coaches :- Path(doc, CoachesPath(side));
    var first :- Subscript(coaches, JInt(0));
    Path(first, ["person", "fullName"])
  }

  function TeamLineOf(doc: Json, side: string): Option<TeamLine> {
    var gameId := Subscript(doc, JStr("gamePk"));
    var win := HomeTeamWin(doc);
    var periods := Path(doc, ["liveData", "linescore", "currentPeriod"]);
    var coach := HeadCoach(doc, side);
    var teamId := Path(doc, ["gameData", "teams", side, "id"]);
    var teamName := Path(doc, ["gameData", "teams", side, "name"]);
    if gameId.Some? && win.Some? && periods.Some? && coach.Some? && teamId.Some? && teamName.Some?
    then Some(TeamLine(gameId.value, side, win.value, periods.value, coach.value,
                       teamId.value, teamName.value))
    else None
  }

  /** The team record of one side.  `.keys()` exists only on a mapping, so
      team stats of any other shape raise. */
  function TeamRow(doc: Json, side: string): Option<Row> {
    var line :- TeamLineOf(doc, side);
    var stats :- TeamStatsOf(doc, side);
    if stats.JObj? then Some(WithStats(line.Row(), stats)) else None
  }

  function TeamRows(doc: Json): seq<Option<Row>> {
    seq(|Sides|, s requires 0 <= s < |Sides| => TeamRow(doc, Sides[s]))
  }

  /** `for team in ['home', 'away']: yield that side's record` */
  function TeamStatsYield(doc: Json): Yield {
    EmitAll(TeamRows(doc))
  }

  /** The body of the side loop: the fixed columns, then the stats copy. */
  method ExtractTeamSide(doc: Json, side: string) returns (r: Option<Row>)
    ensures r == TeamRow(doc, side)
  {
    var line := TeamLineOf(doc, side);
    if line.None? {
      return None;
    }
    var stats := TeamStatsOf(doc, side);
    if stats.None? || !stats.value.JObj? {
      return None;
    }
    var row := CopyStats(line.value.Row(), stats.value.fields);
    r := Some(row);
  }

  method ExtractTeamStats(doc: Json) returns (y: Yield)
    ensures y == TeamStatsYield(doc)
  {
    ghost var rs := TeamRows(doc);
    var rows: seq<Row> := [];
    var s := 0;
    while s < |Sides|
      invariant 0 <= s <= |Sides|
      invariant Then(Yield(rows, true), EmitAll(rs[s..])) == TeamStatsYield(doc)
    {
      EmitAllStep(rs, s);
      ThenStep(rows, Emit(rs[s]), EmitAll(rs[s + 1..]));
      var row := ExtractTeamSide(doc, Sides[s]);
      if row.None? {
        return Yield(rows, false);
      }
      rows := rows + [row.value];
      s := s + 1;
    }
    assert rs[s..] == [];
    y := Yield(rows, true);
  }

  /** At most two records, home first and then away; a home record stands
      when the away side fails; both are there exactly when neither side
      fails. */
  lemma TeamStatsShape(doc: Json)
    ensures var y := TeamStatsYield(doc);
      var home, away := TeamRow(doc, "home"), TeamRow(doc, "away");
      |y.rows| <= 2 &&
      (y.completed <==> home.Some? && away.Some?) &&
      (home.None? ==> y.rows == []) &&
      (home.Some? && away.None? ==> y.rows == [home.value]) &&
      (home.Some? && away.Some? ==> y.rows == [home.value, away.value])
  {
    assert TeamRows(doc) == [TeamRow(doc, "home"), TeamRow(doc, "away")];
    EmitPair(TeamRow(doc, "home"), TeamRow(doc, "away"));
  }

  /** A side's record starts with the seven fixed columns, carries every key
      of the side's team stats with its value, and keeps the fixed value of
      every other column. */
  lemma TeamRowColumns(doc: Json, side: string, c: string)
    requires TeamRow(doc, side).Some?
    requires DistinctKeys(TeamStatsOf(doc, side).value.fields)
    ensures var row, stats := TeamRow(doc, side).value, TeamStatsOf(doc, side).value.fields;
      TeamKeys <= Keys(row) &&
      (Lookup(stats, c).Some? ==> Lookup(row, c) == Lookup(stats, c)) &&
      (Lookup(stats, c).None? ==> Lookup(row, c) == Lookup(TeamLineOf(doc, side).value.Row(), c))
  {
    var line := TeamLineOf(doc, side).value;
    var stats := TeamStatsOf(doc, side).value;
    StatsPassThrough(line.Row(), stats, c);
    TeamLineColumns(line);
  }

  /** The home and away records of a game agree on `gameID`, `homeTeamWin`
      and `periodsPlayed`, unless a team-stats key of that name overwrote
      the column. */
  lemma TeamRowsAgree(doc: Json, c: string)
    requires c == "gameID" || c == "homeTeamWin" || c == "periodsPlayed"
    requires TeamRow(doc, "home").Some? && TeamRow(doc, "away").Some?
    requires DistinctKeys(TeamStatsOf(doc, "home").value.fields)
    requires DistinctKeys(TeamStatsOf(doc, "away").value.fields)
    requires Lookup(TeamStatsOf(doc, "home").value.fields, c).None?
    requires Lookup(TeamStatsOf(doc, "away").value.fields, c).None?
    ensures Lookup(TeamRow(doc, "home").value, c).Some?
    ensures Lookup(TeamRow(doc, "home").value, c) == Lookup(TeamRow(doc, "away").value, c)
  {
    var home, away := TeamLineOf(doc, "home").value, TeamLineOf(doc, "away").value;
    TeamRowColumns(doc, "home", c);
    TeamRowColumns(doc, "away", c);
    assert home.gameId == away.gameId && home.homeTeamWin == away.homeTeamWin &&
           home.periodsPlayed == away.periodsPlayed;
    TeamLineColumns(home);
    TeamLineColumns(away);
  }

  /** `headCoach` is the first coach of the side's list, and an empty coaches
      list makes that side's record fail. */
  lemma HeadCoachIsFirst(doc: Json, side: string, coaches: seq<Json>)
    requires Path(doc, CoachesPath(side)) == Some(JList(coaches))
    ensures coaches == [] ==> TeamRow(doc, side).None?
    ensures coaches != [] ==> HeadCoach(doc, side) == Path(coaches[0], ["person", "fullName"])
  {
  }

  /** The game-result record and a team record of the same game carry the
      same `homeTeamWin`, unless a team-stats key overwrote it. */
  lemma SameWinner(doc: Json, side: string)
    requires GameResultRow(doc).Some? && TeamRow(doc, side).Some?
    requires DistinctKeys(TeamStatsOf(doc, side).value.fields)
    requires Lookup(TeamStatsOf(doc, side).value.fields, "homeTeamWin").None?
    ensures Lookup(GameResultRow(doc).value, "homeTeamWin") ==
            Lookup(TeamRow(doc, side).value, "homeTeamWin")
  {
    var line := TeamLineOf(doc, side).value;
    TeamRowColumns(doc, side, "homeTeamWin");
    assert GameResultOf(doc).value.homeTeamWin == line.homeTeamWin;
    GameResultColumns(GameResultOf(doc).value);
    TeamLineColumns(line);
  }

  // ---------------------------------------------------------------------
  // Skater and goalie stats: one record per selected roster entry.

  /** The two roster extractors. */
  datatype Role = Skaters | Goalies

  /** Position-code filter: skaters take every code but "N/A" and "G",
      goalies take only "G". */
  predicate Selects(role: Role, code: Json) {
    match role
    case Skaters => code != JStr("N/A") && code != JStr("G")
    case Goalies => code == JStr("G")
  }

  function StatsKey(role: Role): string {
    match role
    case Skaters => "skaterStats"
    case Goalies => "goalieStats"
  }

  /** Every position code goes to exactly one extractor, except "N/A",
      which goes to neither. */
  lemma SelectsPartition(code: Json)
    ensures Selects(Skaters, code) != Selects(Goalies, code) <==> code != JStr("N/A")
    ensures !(Selects(Skaters, code) && Selects(Goalies, code))
  {
  }

  datatype PlayerLine = PlayerLine(
    gameId: Json, playerId: Json, fullName: Json, position: Json,
    homeAway: string, teamId: Json, teamName: Json)
  {
    function Row(): Row {
      [("gameID", gameId), ("playerID", playerId), ("fullName", fullName),
       ("position", position), ("homeAway", JStr(homeAway)), ("teamID", teamId),
       ("teamName", teamName)]
    }
  }

  lemma PlayerLineColumns(p: PlayerLine)
    ensures Keys(p.Row()) == PlayerKeys
    ensures Lookup(p.Row(), "gameID") == Some(p.gameId)
    ensures Lookup(p.Row(), "playerID") == Some(p.playerId)
    ensures Lookup(p.Row(), "fullName") == Some(p.fullName)
    ensures Lookup(p.Row(), "position") == Some(p.position)
    ensures Lookup(p.Row(), "homeAway") == Some(JStr(p.homeAway))
  {
    var row := p.Row();
    assert Keys(row) == PlayerKeys;
    KeysDistinct();
    LookupIndex(row, 0);
    LookupIndex(row, 1);
    LookupIndex(row, 2);
    LookupIndex(row, 3);
    LookupIndex(row, 4);
  }

  function PlayerLineOf(doc: Json, side: string, entry: Json, code: Json): Option<PlayerLine> {
    var gameId := Subscript(doc, JStr("gamePk"));
    var playerId := Path(entry, ["person", "id"]);
    var fullName := Path(entry, ["person", "fullName"]);
    var teamId := Path(doc, ["gameData", "teams", side, "id"]);
    var teamName := Path(doc, ["gameData", "teams", side, "name"]);
    if gameId.Some? && playerId.Some? && fullName.Some? && teamId.Some? && teamName.Some?
    then Some(PlayerLine(gameId.value, playerId.value, fullName.value, code, side,
                         teamId.value, teamName.value))
    else None
  }

  /** A player record: the fixed columns, then the player's stats block if it
      is a mapping.  The block must be present (reading it raises otherwise)
      but may have any shape. */
  function PlayerRow(doc: Json, role: Role, side: string, entry: Json, code: Json): Option<Row> {
    var line :- PlayerLineOf(doc, side, entry, code);
    var stats :- Path(entry, ["stats", StatsKey(role)]);
    Some(WithStats(line.Row(), stats))
  }

  /** `players[key]['position']['code']` */
  function CodeOf(players: Json, key: Json): Option<Json> {
    var entry :- Subscript(players, key);
    Path(entry, ["position", "code"])
  }

  /** One roster entry: look it up, read its code, and yield its record if
      the role selects that code. */
  function EntryYield(doc: Json, role: Role, side: string, players: Json, key: Json): Yield {
    match Subscript(players, key)
    case None => Raised
    case Some(entry) =>
      match Path(entry, ["position", "code"])
      case None => Raised
      case Some(code) =>
        if Selects(role, code) then Emit(PlayerRow(doc, role, side, entry, code)) else Done
  }

  method ExtractEntry(doc: Json, role: Role, side: string, players: Json, key: Json)
    returns (y: Yield)
    ensures y == EntryYield(doc, role, side, players, key)
  {
    var entry := Subscript(players, key);
    if entry.None? {
      return Raised;
    }
    var code := Path(entry.value, ["position", "code"]);
    if code.None? {
      return Raised;
    }
    if !Selects(role, code.value) {
      return Done;
    }
    var line := PlayerLineOf(doc, side, entry.value, code.value);
    if line.None? {
      return Raised;
    }
    var stats := Path(entry.value, ["stats", StatsKey(role)]);
    if stats.None? {
      return Raised;
    }
    var row := line.value.Row();
    if stats.value.JObj? {
      row := CopyStats(row, stats.value.fields);
    }
    y := Yield([row], true);
  }

  function EntriesYield(doc: Json, role: Role, side: string, players: Json, keys: seq<Json>): Yield
    decreases |keys|
  {
    if keys == [] then Done
    else Then(EntryYield(doc, role, side, players, keys[0]),
              EntriesYield(doc, role, side, players, keys[1..]))
  }

  lemma EntriesStep(doc: Json, role: Role, side: string, players: Json, keys: seq<Json>, j: nat)
    requires j < |keys|
    ensures EntriesYield(doc, role, side, players, keys[j..]) ==
            Then(EntryYield(doc, role, side, players, keys[j]),
                 EntriesYield(doc, role, side, players, keys[j + 1..]))
  {
    assert keys[j..][0] == keys[j] && keys[j..][1..] == keys[j + 1..];
  }

  /** Roster order: the records of a run of keys followed by another are
      the first run's records, then (unless it raised) the second's. */
  lemma {:induction false} EntriesAppend(doc: Json, role: Role, side: string, players: Json,
                                         ks: seq<Json>, ms: seq<Json>)
    ensures EntriesYield(doc, role, side, players, ks + ms) ==
            Then(EntriesYield(doc, role, side, players, ks), EntriesYield(doc, role, side, players, ms))
    decreases |ks|
  {
    if ks == [] {
      assert ks + ms == ms;
    } else {
      assert (ks + ms)[0] == ks[0] && (ks + ms)[1..] == ks[1..] + ms;
      EntriesAppend(doc, role, side, players, ks[1..], ms);
      ThenAssoc(EntryYield(doc, role, side, players, ks[0]),
                EntriesYield(doc, role, side, players, ks[1..]),
                EntriesYield(doc, role, side, players, ms));
    }
  }

  function PlayersPath(side: string): seq<string> {
    ["liveData", "boxscore", "teams", side, "players"]
  }

  /** `for player in ...['players']: ...` for one side. */
  function SideYield(doc: Json, role: Role, side: string): Yield {
    match Path(doc, PlayersPath(side))
    case None => Raised
    case Some(players) =>
      match Iterate(players)
      case None => Raised
      case Some(keys) => EntriesYield(doc, role, side, players, keys)
  }

  function RoleSides(doc: Json, role: Role, sides: seq<string>): Yield
    decreases |sides|
  {
    if sides == [] then Done
    else Then(SideYield(doc, role, sides[0]), RoleSides(doc, role, sides[1..]))
  }

  lemma RoleSidesStep(doc: Json, role: Role, sides: seq<string>, s: nat)
    requires s < |sides|
    ensures RoleSides(doc, role, sides[s..]) ==
            Then(SideYield(doc, role, sides[s]), RoleSides(doc, role, sides[s + 1..]))
  {
    assert sides[s..][0] == sides[s] && sides[s..][1..] == sides[s + 1..];
  }

  /** `for team in ['home', 'away']: for player in ...: ...` */
  function PlayersYield(doc: Json, role: Role): Yield {
    RoleSides(doc, role, Sides)
  }

  /** The roster loop of one side. */
  method ExtractSide(doc: Json, role: Role, side: string) returns (y: Yield)
    ensures y == SideYield(doc, role, side)
  {
    var players := Path(doc, PlayersPath(side));
    if players.None? {
      return Raised;
    }
    var keys := Iterate(players.value);
    if keys.None? {
      return Raised;
    }
    assert SideYield(doc, role, side) == EntriesYield(doc, role, side, players.value, keys.value);
    var rows: seq<Row> := [];
    var j := 0;
    while j < |keys.value|
      invariant 0 <= j <= |keys.value|
      invariant Then(Yield(rows, true), EntriesYield(doc, role, side, players.value, keys.value[j..]))
                == SideYield(doc, role, side)
    {
      var key := keys.value[j];
      EntriesStep(doc, role, side, players.value, keys.value, j);
      var e := ExtractEntry(doc, role, side, players.value, key);
      ThenStep(rows, e, EntriesYield(doc, role, side, players.value, keys.value[j + 1..]));
      if !e.completed {
        return Yield(rows + e.rows, false);
      }
      rows := rows + e.rows;
      j := j + 1;
    }
    assert keys.value[j..] == [];
    y := Yield(rows, true);
  }

  method ExtractPlayers(doc: Json, role: Role) returns (y: Yield)
    ensures y == PlayersYield(doc, role)
  {
    var rows: seq<Row> := [];
    var s := 0;
    while s < |Sides|
      invariant 0 <= s <= |Sides|
      invariant Then(Yield(rows, true), RoleSides(doc, role, Sides[s..])) == PlayersYield(doc, role)
    {
      RoleSidesStep(doc, role, Sides, s);
      var e := ExtractSide(doc, role, Sides[s]);
      ThenStep(rows, e, RoleSides(doc, role, Sides[s + 1..]));
      if !e.completed {
        return Yield(rows + e.rows, false);
      }
      rows := rows + e.rows;
      s := s + 1;
    }
    y := Yield(rows, true);
  }

  /** Number of roster keys whose entry has position code `code`. */
  function CountCode(players: Json, keys: seq<Json>, code: Json): nat
    decreases |keys|
  {
    if keys == [] then 0
    else (if CodeOf(players, keys[0]) == Some(code) then 1 else 0) + CountCode(players, keys[1..], code)
  }

  /** One roster entry, seen by both extractors. */
  lemma EntryPartition(doc: Json, side: string, players: Json, key: Json)
    requires EntryYield(doc, Skaters, side, players, key).completed
    requires EntryYield(doc, Goalies, side, players, key).completed
    ensures |EntryYield(doc, Goalies, side, players, key).rows| ==
            if CodeOf(players, key) == Some(JStr("G")) then 1 else 0
    ensures |EntryYield(doc, Skaters, side, players, key).rows|
            + |EntryYield(doc, Goalies, side, players, key).rows|
            + (if CodeOf(players, key) == Some(JStr("N/A")) then 1 else 0) == 1
  {
  }

  /** The skater and goalie extractors partition a roster: when neither
      raises, every goalie entry gives one goalie record, and every entry
      other than the "N/A" ones gives exactly one record of one of the two
      kinds. */
  lemma {:induction false} EntriesPartition(doc: Json, side: string, players: Json, keys: seq<Json>)
    requires EntriesYield(doc, Skaters, side, players, keys).completed
    requires EntriesYield(doc, Goalies, side, players, keys).completed
    ensures |EntriesYield(doc, Goalies, side, players, keys).rows| == CountCode(players, keys, JStr("G"))
    ensures |EntriesYield(doc, Skaters, side, players, keys).rows|
            + |EntriesYield(doc, Goalies, side, players, keys).rows|
            + CountCode(players, keys, JStr("N/A")) == |keys|
    decreases |keys|
  {
    if keys != [] {
      EntryPartition(doc, side, players, keys[0]);
      EntriesPartition(doc, side, players, keys[1..]);
    }
  }

  /** The same partition for one side of a game document. */
  lemma SidePartition(doc: Json, side: string, players: Json, keys: seq<Json>)
    requires Path(doc, PlayersPath(side)) == Some(players)
    requires Iterate(players) == Some(keys)
    requires SideYield(doc, Skaters, side).completed && SideYield(doc, Goalies, side).completed
    ensures |SideYield(doc, Goalies, side).rows| == CountCode(players, keys, JStr("G"))
    ensures |SideYield(doc, Skaters, side).rows| + |SideYield(doc, Goalies, side).rows|
            + CountCode(players, keys, JStr("N/A")) == |keys|
  {
    EntriesPartition(doc, side, players, keys);
  }

  /** Side order, then roster order: a game's records are the home side's,
      followed by the away side's when the home side did not raise. */
  lemma PlayersBySide(doc: Json, role: Role)
    ensures var home, away := SideYield(doc, role, "home"), SideYield(doc, role, "away");
      PlayersYield(doc, role).rows == if home.completed then home.rows + away.rows else home.rows
  {
    assert Sides[1..] == ["away"];
    assert Sides[1..][1..] == [];
  }

  /** A player record starts with its seven fixed columns, and carries every
      key of the player's stats block with its value when that block is a
      mapping; otherwise it has only the fixed columns. */
  lemma PlayerRowColumns(doc: Json, role: Role, side: string, entry: Json, code: Json, c: string)
    requires PlayerRow(doc, role, side, entry, code).Some?
    requires var stats := Path(entry, ["stats", StatsKey(role)]).value;
      stats.JObj? ==> DistinctKeys(stats.fields)
    ensures var row, stats := PlayerRow(doc, role, side, entry, code).value,
                              Path(entry, ["stats", StatsKey(role)]).value;
      PlayerKeys <= Keys(row) &&
      (!stats.JObj? ==> Keys(row) == PlayerKeys) &&
      (stats.JObj? && Lookup(stats.fields, c).Some? ==> Lookup(row, c) == Lookup(stats.fields, c)) &&
      (!(stats.JObj? && Lookup(stats.fields, c).Some?) ==>
         Lookup(row, c) == Lookup(PlayerLineOf(doc, side, entry, code).value.Row(), c))
  {
    var line := PlayerLineOf(doc, side, entry, code).value;
    var stats := Path(entry, ["stats", StatsKey(role)]).value;
    StatsPassThrough(line.Row(), stats, c);
    PlayerLineColumns(line);
  }
}
