# NHL game-feed record extraction, modelled in Dafny

This project models the record-extraction layer of the NHL statistics
scraper in `final_project/game/game.py`. For one regular season, the scraper
works in three steps:

- It derives the game numbers to try from the season-start year: 1..720 for 2012, 1..1271 from 2017 on, and 1..1230 otherwise.
- It forms each game ID as the season, then `"02"`, then the game number zero-padded to four digits.
- It fetches that game's live-feed document and flattens it into flat records of one of five kinds: game result, officials, team stats, skater stats or goalie stats.

Every season-level extractor is a Python generator. It builds a dict key by key and
yields it. A `try`/`except` around each game drops the rest of that game on
any missing key or failed fetch, and the scraper moves on to the next game
number.

The model has five modules:

- `json.dfy` (`Json`): a parsed document as a JSON value, plus the Python operations the extractors apply to it. These are `x[k]` (dict key; list or string index, including negative indices and bools), `for e in x`, `len(x)` and `a > b`. An operation that would raise is `None`.
- `records.dfy` (`Records`): a record is the ordered dict `data`. It covers `data[k] = v` (`Put`), the stats copy loop `for key in stats.keys(): data[key] = stats[key]` (`CopyStats`, specified by `Merged`) and its properties.
- `schedule.dfy` (`Schedule`): the season range tiers. It also models `str(n)`, `int(season)`, Python's `str.zfill` and the game ID.
- `yields.dfy` (`Yields`): what a generator body produces for one game. That is the records yielded so far and whether the body ran to its end. Records yielded before an exception are kept.
- `extract.dfy` (`Extract`): the per-document extractors.
  - Each record kind has a datatype whose `Row()` is the dict in the source's key order.
  - A specification function gives the records a document yields (`GameResultYield`, `OfficialsYield`, `TeamStatsYield`, `PlayersYield`).
  - A method with the source's loops (`ExtractOfficials`, `ExtractTeamStats`, `ExtractPlayers`) is proved equal to that function.
- `season.dfy` (`Season`): the season-level driver, one for all five kinds. `ExtractSeason` loops over the game numbers, and `SeasonOutput` specifies it.

The document fetch is a parameter, `feed: string -> Option<Json>`, keyed
by game ID. `None` stands for a failed request, a failed status check or
failed JSON decoding.

## Model

| member | source | states |
|---|---|---|
| Json.LookupKeys | final_project/game/game.py:182-183 | reading `stats[key]` for a key taken from `stats.keys()` always finds a value: a key has a value exactly when it is one of the keys |
| Json.Position | final_project/game/game.py:179 | Python indexing of a length-n sequence: defined exactly on [-n, n), negative indices count from the end, so `coaches[0]` fails exactly on an empty list |
| Json.Greater | final_project/game/game.py:49 | `a > b`: numbers (ints, bools) compare numerically, strings in code-point order, any other pair raises |
| Json.GreaterAsymmetric | final_project/game/game.py:49 | `a > b` raises for a pair exactly when it raises for the swapped pair, never holds both ways, and never holds for equal values, so two teams can never both "win" and equal goals give false |
| Records.Put | final_project/game/game.py:174-181 | `data[k] = v`: afterwards `k` holds `v`, every other key keeps its value, and `k` is appended to the key order only when it was new |
| Records.LookupIndex | final_project/game/game.py:174-181 | in a dict built with distinct keys, the i-th key holds the i-th value |
| Records.CopyStats | final_project/game/game.py:182-183 | the copy loop over `stats.keys()` computes `Merged(row, stats)`, one `data[key] = stats[key]` per key in order |
| Records.MergedLookup | final_project/game/game.py:182-183 | after the copy every stats key holds its stats value unchanged (overwriting a fixed column of that name) and every other column keeps its fixed value |
| Records.MergedPrefix | final_project/game/game.py:182-183 | after the copy the fixed columns still come first, in their order |
| Records.MergedKeys | final_project/game/game.py:182-183 | after the copy the columns are the fixed columns in their places, then each stats key that was not a column yet, in the stats block's order; a stats key naming a fixed column keeps that column's place |
| Records.MergedKeySet | final_project/game/game.py:182-183 | the columns after the copy are exactly the fixed columns plus the stats keys |
| Records.MergedDistinct | final_project/game/game.py:182-183 | the copy never produces a repeated column |
| Schedule.GameNumbers | final_project/game/game.py:70-75 | `list(range(1, count + 1))`: ascending, no gaps, element i is i + 1, length is the tier's game count |
| Schedule.SeasonRange | final_project/game/game.py:70-75 | membership: 1..720 exactly for 2012 (tested first), 1..1271 for years from 2017, 1..1230 otherwise |
| Schedule.Decimal | final_project/game/game.py:77 | `str(n)`: non-empty decimal digits, no leading zero, at most four digits below 10000 |
| Schedule.DecimalValue | final_project/game/game.py:77 | reading back the digits of `str(n)` gives n |
| Schedule.ParseDecimal | final_project/game/game.py:70-72 | `int(str(year))` is `year` for every year, negative years included |
| Schedule.ZFill | final_project/game/game.py:77 | `zfill(width)`: result length is the larger of the two lengths; a string already that long is unchanged (no truncation); otherwise zeros are put in front, after a leading `+` or `-` when there is one |
| Schedule.ZerosValue | final_project/game/game.py:77 | leading zeros do not change the value a digit string denotes |
| Schedule.GameIdShape | final_project/game/game.py:77-79 | for every game number below 10000, the ID has length `len(season) + 6`: the season, then `"02"`, then exactly four digits whose value is the game number |
| Schedule.GameIdInjective | final_project/game/game.py:77-79 | within a season, different game numbers give different game IDs |
| Yields.ThenAssoc | final_project/game/game.py:296-310 | running the side loop, the roster loop and the entry body in sequence does not depend on grouping |
| Yields.ThenStep | final_project/game/game.py:81-101 | a step that raises ends the game's body with the records yielded so far plus its own |
| Yields.EmitAllRows | final_project/game/game.py:133-138 | a loop that builds and yields records one at a time yields exactly the buildable prefix, in order, and finishes exactly when every record was built |
| Yields.EmitPair | final_project/game/game.py:173-184 | with two records to yield: neither if the first fails, only the first if the second fails, both otherwise |
| Extract.KeysDistinct | final_project/game/game.py:85-97 | none of the four record kinds sets a fixed column twice |
| Extract.StatsPassThrough | final_project/game/game.py:307-309 | the `isinstance(stats, dict)` guard: a mapping has its new keys appended after the fixed columns in the stats block's order, every stats key holding its value, and anything else adds no column |
| Extract.GameResultColumns | final_project/game/game.py:85-97 | a game result has the twelve columns in the source's order, and `gameID`, `homeGoals`, `awayGoals` and `homeTeamWin` hold the values read |
| Extract.GameResultWinner | final_project/game/game.py:94-96 | the record's `homeTeamWin` is `homeGoals > awayGoals` on its own goal columns; for integer goals it is true exactly when home scored strictly more, so a tie gives false |
| Extract.GameResultRequired | final_project/game/game.py:85-98 | a game yields its result record exactly when every field read succeeds and the goals are comparable, and otherwise yields nothing |
| Extract.OfficialColumns | final_project/game/game.py:134-137 | an official record has the columns `gameID`, `officialName`, `officialType`, holding the values read |
| Extract.ExtractOfficials | final_project/game/game.py:133-138 | the `for i in range(len(officials))` loop yields what `OfficialsYield` specifies |
| Extract.OfficialsPerEntry | final_project/game/game.py:133-138 | one record per entry of the officials list, in list order, each stamped with the document's `gamePk`, with the entry's name and type; it finishes exactly when every entry is complete, otherwise it stops at the first incomplete entry |
| Extract.OfficialEntry | final_project/game/game.py:135-137 | the k-th official record holds `gamePk`, `officials[k]['official']['fullName']` and `officials[k]['officialType']` |
| Extract.OfficialsNotAList | final_project/game/game.py:133 | an officials value that is absent or not a list yields no official record |
| Extract.TeamLineColumns | final_project/game/game.py:174-181 | a team record's fixed columns are the seven of the source, in order, and `gameID`, `homeAway`, `homeTeamWin`, `periodsPlayed` and `headCoach` hold the values read |
| Extract.ExtractTeamSide | final_project/game/game.py:174-184 | the body of the side loop builds exactly `TeamRow`, and fails when the team stats are not a mapping |
| Extract.ExtractTeamStats | final_project/game/game.py:173-184 | the `for team in ['home', 'away']` loop yields what `TeamStatsYield` specifies |
| Extract.TeamStatsShape | final_project/game/game.py:173-184 | at most two team records per game, home first then away; the home record stands when the away side fails; both are there exactly when neither side fails |
| Extract.TeamRowColumns | final_project/game/game.py:182-183 | a team record starts with the fixed columns, carries every team-stats key with its value, and keeps the fixed value of every other column |
| Extract.TeamRowsAgree | final_project/game/game.py:175-178 | the home and away records agree on `gameID`, `homeTeamWin` and `periodsPlayed` unless a team-stats key of that name overwrote the column |
| Extract.HeadCoachIsFirst | final_project/game/game.py:179 | `headCoach` is the first coach of the list, and an empty coaches list makes that side fail |
| Extract.SameWinner | final_project/game/game.py:177 | when both records exist, the game-result record and a team record of the same game carry the same `homeTeamWin`, unless a team-stats key named `homeTeamWin` overwrote the column |
| Extract.SelectsPartition | final_project/game/game.py:298 | each position code goes to at most one extractor, and to exactly one unless it is "N/A" |
| Extract.EntryPartition | final_project/game/game.py:388 | one roster entry gives a goalie record exactly when its code is "G", and one record in total across the two extractors unless its code is "N/A" |
| Extract.PlayerLineColumns | final_project/game/game.py:299-306 | a player record's fixed columns are the seven of the source, in order, holding the values read |
| Extract.ExtractEntry | final_project/game/game.py:298-310 | the body for one roster entry: code check, fixed columns, stats copy, as `EntryYield` specifies |
| Extract.EntriesAppend | final_project/game/game.py:297 | roster order: the records of consecutive runs of roster keys follow each other |
| Extract.ExtractSide | final_project/game/game.py:297-312 | the roster loop of one side yields what `SideYield` specifies |
| Extract.ExtractPlayers | final_project/game/game.py:296-312 | the side loop around the roster loop yields what `PlayersYield` specifies, for skaters and for goalies |
| Extract.EntriesPartition | final_project/game/game.py:297-298 | when neither extractor raises, a roster gives one goalie record per "G" entry, and skater plus goalie records plus "N/A" entries equal the number of entries |
| Extract.SidePartition | final_project/game/game.py:386-388 | the same partition for one side of a document |
| Extract.PlayersBySide | final_project/game/game.py:296-297 | the player records of a game are the home side's, then the away side's when the home side did not raise |
| Extract.PlayerRowColumns | final_project/game/game.py:307-309 | a player record starts with its fixed columns and carries every key of a mapping stats block with its value; with a non-mapping block it has only the fixed columns |
| Season.ExtractGame | final_project/game/game.py:81-98 | one game's `try` block (fetch, then one extractor) yields what `FetchedYield` specifies; a failed fetch yields nothing |
| Season.ExtractSeason | final_project/game/game.py:76-101 | the loop over game numbers returns what `SeasonOutput` specifies: the per-game records concatenated in ascending game-number order |
| Season.CollectAppend | final_project/game/game.py:76 | the records of consecutive runs of game numbers are concatenated |
| Season.FailureIsolation | final_project/game/game.py:81-101 | a game's records sit between those of earlier and later games, and changing its document changes that segment and nothing else |
| Season.FailedGameSkipped | final_project/game/game.py:139-141 | a game whose fetch fails is skipped: the output is exactly the other games' records |
| Season.OtherGames | final_project/game/game.py:313-314 | a feed changed only at one game's ID leaves the records of every other game number as they were |
| Season.SeasonSizes | final_project/game/game.py:173 | a season gives at most one game-result record and at most two team records per game number |
| Season.BadSeason | final_project/game/game.py:70 | a season string that `int()` rejects raises before any record; any other gives an output |

## Left out

- HTTP fetching (`requests.get`, `raise_for_status`, `.json()`) is a parameter: each game ID maps to a parsed document, or to a failure.
- The `print` diagnostics of every `except` handler are left out. They only write to the console.
- `print_game_keys` (`final_project/game/game.py:7-14`) is left out. It is a console pretty-printer.
- The single-game variants (`get_game_result`, `get_team_stats_game`, `get_player_stats_game`, `get_goalie_stats_game`) are not modelled separately. Their `try` body is the season variant's per-game body, and `Season.ExtractGame` models it for one fetched document; `get_game_result` returns the record that `Extract.GameResultRow` gives.
- The `except` handler of `get_player_stats_game` (`final_project/game/game.py:264`) refers to `season` and `game_id`, which are not defined there, so any failure in that variant escapes as a NameError instead of being printed. The model gives that variant the season variant's skip behaviour and does not reproduce the crash.
- `final_project/game/model_building.py`, `midterm_project/nhl/player.py` and the driver scripts are not part of this model. They cover pandas/sklearn work, HTML scraping, CSV output and timing.
- JSON floats are left out. Numbers are integers, so `>` on floats, and between lists, is not modelled; those pairs fail as other non-comparable pairs do.
- `Schedule.ParseInt`: `int()` is modelled for an optional sign followed by ASCII digits. Surrounding whitespace, `_` separators and non-ASCII digits, which Python also accepts, are left out; such a season is treated as rejected.
- JSON objects are assumed to have distinct keys, as a Python dict does. Lemmas about lookups in stats blocks take that as a precondition (`DistinctKeys`).
- `['stats']['skaterStats']` and `['stats']['goalieStats']` are read unconditionally (`final_project/game/game.py:307`, `final_project/game/game.py:397`), so a missing stats block raises and ends that game; the `isinstance` check only skips a block that is present but not a mapping. The model does the same (`Extract.PlayerRow`).
- The docstring at `final_project/game/game.py:150` says "One row for home, one for away." The code yields none, only the home record, or both, depending on which side fails. The model follows the code (`Extract.TeamStatsShape`).
