/** The per-element extractors of the two loaders (`gameloader.py` and
    `breakingball/load.py`): each turns one element of a parsed document into the keyword
    arguments of one ORM instance, or into the exception it raises. Where the two
    loaders differ, the difference is a parameter. */
module Extract {
  import opened Wrappers
  import opened Calendar
  import opened Doc
  import opened Records
  import opened Rules
  import opened Schema
  import Utils
  import Seqs

  /** `dt.datetime.strptime(text, '%I:%M %p').time()` as seconds since midnight; `None` is the
      ValueError. */
  type Clock = string -> Option<int>

  /** A timestamp parser followed by the conversion to America/New_York; `None` is the
      ValueError. */
  type StampParser = string -> Option<Stamp>

  /** What a loader's constructor derives from the game id: `game_id`, `game_date`, `season`
      and `base_url`. */
  datatype GameRef = GameRef(id: string, date: Date, season: int, url: string)

  /** `gid_to_date` succeeded on the id, `season` is its year and `base_url` is
      `gid_to_url` of it. */
  predicate ValidRef(ref: GameRef) {
    && Utils.GidToDate(ref.id) == Some(ref.date)
    && ref.season == ref.date.year
    && Utils.GidToUrl(ref.id) == Some(ref.url)
  }

  /** What a constructor derives from a game id `gid_to_date` accepts: the date, its year
      as the season, and the game's URL. */
  function RefOf(gameId: string): (ref: GameRef)
    requires Utils.GidToDate(gameId).Some?
    ensures ref.id == gameId && ValidRef(ref)
  {
    var date := Utils.GidToDate(gameId).value;
    GameRef(gameId, date, date.year, Utils.GidToUrl(gameId).value)
  }

  /** The two ways the loaders test a flag attribute: `get(key, default) == expected`
      or `(get(key) is not None) & (get(key) == expected)`. */
  datatype FlagRule = DefaultRule | PresentRule

  function FlagValue(rule: FlagRule, n: Node, key: string, default: string, expected: string): bool {
    match rule
    case DefaultRule => Flag(n, key, default, expected)
    case PresentRule => PresentAndEquals(n, key, expected)
  }

  /** Both rules give the same flag when the default is not the expected text. */
  lemma FlagRulesAgree(n: Node, key: string, default: string, expected: string)
    requires default != expected
    ensures FlagValue(DefaultRule, n, key, default, expected) == FlagValue(PresentRule, n, key, default, expected)
    ensures FlagValue(DefaultRule, n, key, default, expected) <==> Get(n, key) == Some(expected)
  {
    FlagForms(n, key, default, expected);
  }

  /** A parsed timestamp, or `None` when the parser raised. */
  function StampOf(parse: StampParser, n: Node, key: string): Option<Value> {
    match parse(GetOr(n, key, ""))
    case Some(t) => Some(StampV(t))
    case None => None
  }

  /** The record of one element: `None` values dropped. */
  function AsRow(t: Table, d: Result<Draft, Fault>): (r: Result<Row, Fault>)
    ensures r.Success? <==> d.Success?
    ensures r.Success? ==> r.value.table == t && r.value.fields == DropNone(d.value)
    ensures r.Failure? ==> r.error == d.error
  {
    match d
    case Success(v) => Success(Row(t, DropNone(v)))
    case Failure(e) => Failure(e)
  }

  // ---------------------------------------------------------------- games

  const GameCols: seq<Column> := [
    Column("venue", "venue", AsText),
    Column("inning", "inning", AsInt),
    Column("outs", "outs", AsInt),
    Column("status", "status", AsText),
    Column("home_team_id", "home_team_id", AsInt),
    Column("away_team_id", "away_team_id", AsInt),
    Column("home_team_runs", "home_team_runs", AsInt),
    Column("away_team_runs", "away_team_runs", AsInt),
    Column("home_team_hits", "home_team_hits", AsInt),
    Column("away_team_hits", "away_team_hits", AsInt),
    Column("home_team_errors", "home_team_errors", AsInt),
    Column("away_team_errors", "away_team_errors", AsInt)
  ]

  /** `game_datetime`: the game date at the parsed start time, `None` when the time text
      (`'{} {}'.format(time, ampm)`) does not parse. */
  function StartOf(ref: GameRef, ls: Node, clock: Clock): (r: Option<Value>)
    ensures r.Some? <==> clock(FormatPair(Get(ls, "time"), Get(ls, "ampm"))).Some?
    ensures r.Some? ==> r.value.StampV? && r.value.t.date == ref.date
  {
    match clock(FormatPair(Get(ls, "time"), Get(ls, "ampm")))
    case Some(s) => Some(StampV(Stamp(ref.date, s)))
    case None => None
  }

  /** The columns `parse_game` sets itself. */
  function GameOwn(ref: GameRef, start: Option<Value>, gameType: string, topInning: bool): (d: Draft)
    ensures Sets(d, "game_id", Some(TextV(ref.id))) && Sets(d, "url", Some(TextV(ref.url)))
    ensures Sets(d, "game_date", Some(DateV(ref.date))) && Sets(d, "season", Some(IntV(ref.season)))
    ensures Sets(d, "game_datetime", start) && Sets(d, "game_type", Some(TextV(gameType)))
    ensures Sets(d, "top_inning", Some(BoolV(topInning)))
  {
    map["game_id" := Some(TextV(ref.id)), "url" := Some(TextV(ref.url)),
        "game_date" := Some(DateV(ref.date)), "season" := Some(IntV(ref.season)),
        "game_datetime" := start, "game_type" := Some(TextV(gameType)),
        "top_inning" := Some(BoolV(topInning))]
  }

  /** `parse_game`: the linescore's `game` element and the constructor's values. */
  function GameDraft(ref: GameRef, ls: Node, clock: Clock, rule: FlagRule): (d: Draft)
    ensures Sets(d, "game_id", Some(TextV(ref.id))) && Sets(d, "url", Some(TextV(ref.url)))
    ensures Sets(d, "game_date", Some(DateV(ref.date))) && Sets(d, "season", Some(IntV(ref.season)))
    ensures Sets(d, "top_inning", Some(BoolV(FlagValue(rule, ls, "top_inning", "", "Y"))))
    ensures Sets(d, "game_type", Some(TextV(GetOr(ls, "game_type", ""))))
    ensures Sets(d, "game_datetime", StartOf(ref, ls, clock))
  {
    Columns(ls, GameCols) + GameOwn(ref, StartOf(ref, ls, clock), GetOr(ls, "game_type", ""),
                                    FlagValue(rule, ls, "top_inning", "", "Y"))
  }

  /** The `Game` record `parse_game` appends. */
  function GameRow(ref: GameRef, ls: Node, clock: Clock, rule: FlagRule): (row: Row)
    ensures row.table == Games && row.fields == DropNone(GameDraft(ref, ls, clock, rule))
  {
    Row(Games, DropNone(GameDraft(ref, ls, clock, rule)))
  }

  /** The `Game` of a game is keyed by its id. */
  lemma GameRowKey(ref: GameRef, ls: Node, clock: Clock, rule: FlagRule)
    ensures KeyOf(GameRow(ref, ls, clock, rule)) == Some(RowKey(Games, [TextV(ref.id)]))
  {
    var row := GameRow(ref, ls, clock, rule);
    assert row.fields["game_id"] == TextV(ref.id);
    assert KeyColumns(Games) == ["game_id"];
    assert KeyOf(row).value.values == [TextV(ref.id)];
  }

  /** The `Game` of a game is always accepted by the database: the date, the season and
      the URL are always set. */
  lemma GameRowAdmissible(ref: GameRef, ls: Node, clock: Clock, rule: FlagRule)
    ensures Admissible(Games, WithDefaults(GameRow(ref, ls, clock, rule)))
  {
    var row := GameRow(ref, ls, clock, rule);
    assert "game_date" in row.fields && "season" in row.fields && "url" in row.fields;
    GameAdmissible(row);
  }

  /** The stored season is the constructor's, `top_inning` is true exactly when the
      attribute is `'Y'` under either flag rule, and the start time is left out exactly
      when it does not parse. */
  lemma GameRowColumns(ref: GameRef, ls: Node, clock: Clock, rule: FlagRule)
    ensures var row := GameRow(ref, ls, clock, rule);
      && "season" in row.fields && row.fields["season"] == IntV(ref.season)
      && "top_inning" in row.fields
      && (row.fields["top_inning"] == BoolV(true) <==> Get(ls, "top_inning") == Some("Y"))
      && ("game_datetime" in row.fields <==> clock(FormatPair(Get(ls, "time"), Get(ls, "ampm"))).Some?)
  {
    var row := GameRow(ref, ls, clock, rule);
    assert row.fields["top_inning"] == BoolV(FlagValue(rule, ls, "top_inning", "", "Y"));
    FlagRulesAgree(ls, "top_inning", "", "Y");
  }

  /** The game keeps the linescore's `status` text, the column `load` tests for
      `'Final'`. */
  lemma GameRowStatus(ref: GameRef, ls: Node, clock: Clock, rule: FlagRule)
    ensures var row := GameRow(ref, ls, clock, rule);
      && ("status" in row.fields <==> Get(ls, "status").Some?)
      && (Get(ls, "status").Some? ==> row.fields["status"] == TextV(Get(ls, "status").value))
  {
    var own := GameOwn(ref, StartOf(ref, ls, clock), GetOr(ls, "game_type", ""),
                       FlagValue(rule, ls, "top_inning", "", "Y"));
    assert GameCols[3] == Column("status", "status", AsText);
    assert LastNamed(GameCols, 3);
    assert "status" !in own;
    ColumnKept(ls, GameCols, 3, own);
  }

  // ---------------------------------------------------------------- teams

  /** `parse_team` up to the `None` drop: the team of one role in the boxscore, with the
      loader's season and the league letter from the linescore. */
  function TeamDraft(season: int, bs: Node, ls: Node, role: Role): (r: Result<Draft, Fault>)
    ensures r.Failure? <==> League(ls, role).Failure?
    ensures r.Failure? ==> r.error == IndexOutOfRange
    ensures r.Success? ==>
      && r.value.Keys == {"team_id", "season", "name", "short_name", "league", "division"}
      && Sets(r.value, "team_id", Coerce(AsInt, Get(bs, role.Prefix() + "_id")))
      && Sets(r.value, "season", Some(IntV(season)))
      && Sets(r.value, "league", Some(TextV(League(ls, role).value)))
      && Sets(r.value, "division", Some(TextV(GetOr(ls, role.Prefix() + "_division", ""))))
  {
    match League(ls, role)
    case Failure(e) => Failure(e)
    case Success(league) =>
      Success(map[
        "team_id" := Coerce(AsInt, Get(bs, role.Prefix() + "_id")),
        "season" := Some(IntV(season)),
        "name" := Coerce(AsText, Get(bs, role.Prefix() + "_fname")),
        "short_name" := Coerce(AsText, Get(bs, role.Prefix() + "_sname")),
        "league" := Some(TextV(league)),
        "division" := Some(TextV(GetOr(ls, role.Prefix() + "_division", "")))])
  }

  /** The team record is accepted once the boxscore names the team in full and in short. */
  lemma TeamRecordAdmissible(season: int, bs: Node, ls: Node, role: Role)
    requires TeamDraft(season, bs, ls, role).Success?
    requires Get(bs, role.Prefix() + "_fname").Some? && Get(bs, role.Prefix() + "_sname").Some?
    ensures var row := AsRow(Teams, TeamDraft(season, bs, ls, role)).value;
      row.table == Teams && Admissible(Teams, WithDefaults(row))
  {
    var row := AsRow(Teams, TeamDraft(season, bs, ls, role)).value;
    assert "name" in row.fields && "short_name" in row.fields;
  }

  /** The team record keeps `team_id` exactly when the boxscore's `<role>_id` is an
      integer, and then it is keyed by that id and the season. */
  lemma TeamRecordKey(season: int, bs: Node, ls: Node, role: Role)
    requires TeamDraft(season, bs, ls, role).Success?
    ensures var row := AsRow(Teams, TeamDraft(season, bs, ls, role)).value;
      && ("team_id" in row.fields <==> Utils.TryInt(Get(bs, role.Prefix() + "_id")).Some?)
      && (KeyOf(row).Some? <==> "team_id" in row.fields)
      && ("team_id" in row.fields ==>
            KeyOf(row) == Some(RowKey(Teams, [IntV(Utils.TryInt(Get(bs, role.Prefix() + "_id")).value), IntV(season)])))
  {
    var row := AsRow(Teams, TeamDraft(season, bs, ls, role)).value;
    assert "season" in row.fields;
    assert KeyColumns(Teams) == ["team_id", "season"];
    if "team_id" in row.fields {
      assert HasKey(row);
      assert KeyOf(row).value.values == [row.fields["team_id"], row.fields["season"]];
    } else {
      assert KeyColumns(row.table)[0] !in row.fields;
    }
  }

  // ---------------------------------------------------------------- team stats

  const TeamBattingCols: seq<Column> := [
    Column("avg", "avg", AsFloat),
    Column("at_bats", "ab", AsInt),
    Column("runs", "r", AsInt),
    Column("hits", "h", AsInt),
    Column("doubles", "d", AsInt),
    Column("triples", "t", AsInt),
    Column("home_runs", "hr", AsInt),
    Column("rbis", "rbi", AsInt),
    Column("walks", "bb", AsInt),
    Column("putouts", "po", AsInt),
    Column("da", "da", AsInt),
    Column("strikeouts", "so", AsInt),
    Column("left_on_base", "lob", AsInt)
  ]

  /** The value a count or a rate takes in a record. */
  function IntVal(x: Option<int>): (r: Option<Value>)
    ensures r.Some? <==> x.Some?
  {
    match x
    case Some(i) => Some(IntV(i))
    case None => None
  }

  /** The columns `parse_team_stats` sets itself. */
  function StatsOwn(gameId: string, teamId: Option<Value>, atHome: bool, gb: Option<Value>, wc: Option<Value>,
                    wins: Option<Value>, losses: Option<Value>, rate: Value, era: Option<Value>): (d: Draft)
    ensures Sets(d, "game_id", Some(TextV(gameId))) && Sets(d, "team_id", teamId) && Sets(d, "at_home", Some(BoolV(atHome)))
    ensures Sets(d, "games_back", gb) && Sets(d, "games_back_wildcard", wc)
    ensures Sets(d, "wins", wins) && Sets(d, "losses", losses) && Sets(d, "winrate", Some(rate)) && Sets(d, "era", era)
  {
    map["game_id" := Some(TextV(gameId)), "team_id" := teamId, "at_home" := Some(BoolV(atHome)),
        "games_back" := gb, "games_back_wildcard" := wc, "wins" := wins, "losses" := losses,
        "winrate" := Some(rate), "era" := era]
  }

  /** The record of `parse_team_stats` once the win rate and both elements are known. */
  function StatsRecord(gameId: string, box: Node, ls: Node, role: Role, batting: Node, pitching: Node,
                       wins: Option<int>, losses: Option<int>, rate: Value): (d: Draft)
    ensures
      var t := Get(ls, role.Prefix() + "_games_back");
      && Sets(d, "game_id", Some(TextV(gameId)))
      && Sets(d, "team_id", Coerce(AsInt, Get(box, role.Prefix() + "_id")))
      && Sets(d, "at_home", Some(BoolV(role == Home)))
      && Sets(d, "games_back", GamesBack(t, t).0)
      && Sets(d, "games_back_wildcard", GamesBack(t, t).1)
      && Sets(d, "wins", IntVal(wins)) && Sets(d, "losses", IntVal(losses))
      && Sets(d, "winrate", Some(rate))
      && Sets(d, "era", Coerce(AsFloat, Get(pitching, "era")))
  {
    var t := Get(ls, role.Prefix() + "_games_back");
    var gb := GamesBack(t, t);
    Columns(batting, TeamBattingCols)
      + StatsOwn(gameId, Coerce(AsInt, Get(box, role.Prefix() + "_id")), role == Home, gb.0, gb.1,
                 IntVal(wins), IntVal(losses), rate, Coerce(AsFloat, Get(pitching, "era")))
  }

  /** `parse_team_stats`: the `batting` and `pitching` elements are the first whose
      `team_flag` is the role. The win rate is computed before either element is read, so
      a missing count is reported first, then a missing element. */
  function TeamStatsDraft(gameId: string, box: Hit, ls: Node, role: Role): (r: Result<Draft, Fault>)
    ensures
      var rate := WinRate(CountOr0(box.node, role.Prefix() + "_wins"), CountOr0(box.node, role.Prefix() + "_loss"));
      var batting := FindWith(box, "batting", "team_flag", role.Prefix());
      var pitching := FindWith(box, "pitching", "team_flag", role.Prefix());
      && (rate.Failure? ==> r == Failure(NoneOperand))
      && (rate.Success? && (batting.None? || pitching.None?) ==> r == Failure(AttributeOfNone))
      && (rate.Success? && batting.Some? && pitching.Some? ==>
            r == Success(StatsRecord(gameId, box.node, ls, role, batting.value.node, pitching.value.node,
                                     CountOr0(box.node, role.Prefix() + "_wins"),
                                     CountOr0(box.node, role.Prefix() + "_loss"), rate.value)))
  {
    var p := role.Prefix();
    var wins := CountOr0(box.node, p + "_wins");
    var losses := CountOr0(box.node, p + "_loss");
    var batting := FindWith(box, "batting", "team_flag", p);
    var pitching := FindWith(box, "pitching", "team_flag", p);
    match WinRate(wins, losses)
    case Failure(e) => Failure(e)
    case Success(rate) =>
      if batting.None? || pitching.None? then Failure(AttributeOfNone)
      else Success(StatsRecord(gameId, box.node, ls, role, batting.value.node, pitching.value.node, wins, losses, rate))
  }

  /** Both games-back columns come from the same attribute, so they are always equal;
      `'-'` makes both 0. */
  lemma TeamStatsGamesBack(gameId: string, box: Hit, ls: Node, role: Role)
    requires TeamStatsDraft(gameId, box, ls, role).Success?
    ensures var d := TeamStatsDraft(gameId, box, ls, role).value;
      && "games_back" in d && Sets(d, "games_back_wildcard", d["games_back"])
      && (Get(ls, role.Prefix() + "_games_back") == Some("-") ==> Sets(d, "games_back", Some(IntV(0))))
  {
    GamesBackSameKey(ls, role);
  }

  /** The one record `parse_team_stats` appends for a role. */
  function StatsResult(gameId: string, box: Hit, ls: Node, role: Role): seq<Result<Row, Fault>> {
    [AsRow(TeamStats, TeamStatsDraft(gameId, box, ls, role))]
  }

  // ---------------------------------------------------------------- players

  /** The team a player element belongs to: its parent's `team_flag`. A missing flag is
      `None + '_id'` (TypeError). */
  function TeamFlag(h: Hit): (r: Result<string, Fault>)
    ensures r.Success? <==> Parent(h).Some? && Get(Parent(h).value, "team_flag").Some?
    ensures r.Success? ==> r.value == Get(Parent(h).value, "team_flag").value
  {
    match Parent(h)
    case None => Failure(AttributeOfNone)
    case Some(p) =>
      match Get(p, "team_flag")
      case None => Failure(NoneOperand)
      case Some(f) => Success(f)
  }

  const BatterCols: seq<Column> := [
    Column("name", "name", AsText),
    Column("full_name", "name_display_first_last", AsText),
    Column("avg", "avg", AsFloat),
    Column("batting_order", "bo", AsInt),
    Column("at_bats", "ab", AsInt),
    Column("strikeouts", "so", AsInt),
    Column("flyouts", "ao", AsInt),
    Column("hits", "h", AsInt),
    Column("doubles", "d", AsInt),
    Column("triples", "t", AsInt),
    Column("home_runs", "hr", AsInt),
    Column("walks", "bb", AsInt),
    Column("hit_by_pitch", "hbp", AsInt),
    Column("sac_bunts", "sac", AsInt),
    Column("sac_flys", "fs", AsInt),
    Column("rbi", "rbi", AsInt),
    Column("assists", "a", AsInt),
    Column("runs", "r", AsInt),
    Column("left_on_base", "lob", AsInt),
    Column("caught_stealing", "cs", AsInt),
    Column("stolen_bases", "sb", AsInt),
    Column("season_walks", "s_bb", AsInt),
    Column("season_hits", "s_h", AsInt),
    Column("season_home_runs", "s_hr", AsInt),
    Column("season_runs", "s_r", AsInt),
    Column("season_rbi", "s_rbi", AsInt),
    Column("season_strikeouts", "s_so", AsInt),
    Column("position", "pos", AsText),
    Column("putouts", "po", AsInt),
    Column("errors", "e", AsInt),
    Column("fielding", "fldg", AsFloat)
  ]

  /** The key columns of a batter record. */
  function BatterOwn(id: Option<Value>, gameId: string, teamId: Option<Value>): (d: Draft)
    ensures Sets(d, "batter_id", id) && Sets(d, "game_id", Some(TextV(gameId))) && Sets(d, "team_id", teamId)
  {
    map["batter_id" := id, "game_id" := Some(TextV(gameId)), "team_id" := teamId]
  }

  /** One `batter` element of the boxscore (`parse_batters`). */
  function BatterDraft(gameId: string, bs: Node, batter: Hit): (r: Result<Draft, Fault>)
    ensures r.Success? <==> TeamFlag(batter).Success?
    ensures r.Failure? ==> r.error == TeamFlag(batter).error
    ensures r.Success? ==>
      && Sets(r.value, "game_id", Some(TextV(gameId)))
      && Sets(r.value, "team_id", Coerce(AsInt, Get(bs, TeamFlag(batter).value + "_id")))
      && Sets(r.value, "batter_id", Coerce(AsInt, Get(batter.node, "id")))
  {
    match TeamFlag(batter)
    case Failure(e) => Failure(e)
    case Success(flag) =>
      Success(Columns(batter.node, BatterCols)
        + BatterOwn(Coerce(AsInt, Get(batter.node, "id")), gameId, Coerce(AsInt, Get(bs, flag + "_id"))))
  }

  const PitcherCols: seq<Column> := [
    Column("name", "name", AsText),
    Column("full_name", "name_display_first_last", AsText),
    Column("position", "pos", AsText),
    Column("outs", "out", AsInt),
    Column("batters_faced", "bf", AsInt),
    Column("home_runs", "hr", AsInt),
    Column("walks", "bb", AsInt),
    Column("strikeouts", "so", AsInt),
    Column("earned_runs", "er", AsInt),
    Column("runs", "r", AsInt),
    Column("hits", "h", AsInt),
    Column("wins", "w", AsInt),
    Column("losses", "l", AsInt),
    Column("saves", "sv", AsInt),
    Column("era", "era", AsFloat),
    Column("pitches_thrown", "np", AsInt),
    Column("strikes", "s", AsInt),
    Column("blown_saves", "bs", AsInt),
    Column("holds", "hld", AsInt),
    Column("season_innings_pitched", "s_ip", AsFloat),
    Column("season_hits", "s_h", AsInt),
    Column("season_runs", "s_r", AsInt),
    Column("season_earned_runs", "s_er", AsInt),
    Column("season_walks", "s_bb", AsInt),
    Column("season_strikeouts", "s_so", AsInt),
    Column("game_score", "game_score", AsInt)
  ]

  /** The key columns of a pitcher record and its four decision flags. */
  function PitcherOwn(id: Option<Value>, gameId: string, teamId: Option<Value>,
                      win: Option<Value>, loss: Option<Value>, save: Option<Value>, blownSave: Option<Value>): (d: Draft)
    ensures Sets(d, "pitcher_id", id) && Sets(d, "game_id", Some(TextV(gameId))) && Sets(d, "team_id", teamId)
    ensures Sets(d, "win", win) && Sets(d, "loss", loss) && Sets(d, "save", save) && Sets(d, "blown_save", blownSave)
  {
    map["pitcher_id" := id, "game_id" := Some(TextV(gameId)), "team_id" := teamId,
        "win" := win, "loss" := loss, "save" := save, "blown_save" := blownSave]
  }

  /** One `pitcher` element of the boxscore (`parse_pitchers`). The `blown_save`, `save`,
      `loss` and `win` attributes are passed on as raw text. */
  function PitcherDraft(gameId: string, bs: Node, pitcher: Hit): (r: Result<Draft, Fault>)
    ensures r.Success? <==> TeamFlag(pitcher).Success?
    ensures r.Failure? ==> r.error == TeamFlag(pitcher).error
    ensures r.Success? ==>
      && Sets(r.value, "pitcher_id", Coerce(AsInt, Get(pitcher.node, "id")))
      && Sets(r.value, "game_id", Some(TextV(gameId)))
      && Sets(r.value, "team_id", Coerce(AsInt, Get(bs, TeamFlag(pitcher).value + "_id")))
      && Sets(r.value, "win", Coerce(AsText, Get(pitcher.node, "win")))
      && Sets(r.value, "loss", Coerce(AsText, Get(pitcher.node, "loss")))
      && Sets(r.value, "save", Coerce(AsText, Get(pitcher.node, "save")))
      && Sets(r.value, "blown_save", Coerce(AsText, Get(pitcher.node, "blown_save")))
  {
    match TeamFlag(pitcher)
    case Failure(e) => Failure(e)
    case Success(flag) =>
      var n := pitcher.node;
      Success(Columns(n, PitcherCols)
        + PitcherOwn(Coerce(AsInt, Get(n, "id")), gameId, Coerce(AsInt, Get(bs, flag + "_id")),
                     Coerce(AsText, Get(n, "win")), Coerce(AsText, Get(n, "loss")),
                     Coerce(AsText, Get(n, "save")), Coerce(AsText, Get(n, "blown_save"))))
  }

  /** A pitcher element without a `win` attribute is stored with `win` False. */
  lemma PitcherWinDefault(gameId: string, bs: Node, pitcher: Hit)
    requires PitcherDraft(gameId, bs, pitcher).Success? && Get(pitcher.node, "win").None?
    ensures var row := AsRow(Pitchers, PitcherDraft(gameId, bs, pitcher)).value;
      "win" in WithDefaults(row) && WithDefaults(row)["win"] == BoolV(false)
  {
    var row := AsRow(Pitchers, PitcherDraft(gameId, bs, pitcher)).value;
    PitcherFlagsDefault(row, "win");
  }

  // ---------------------------------------------------------------- at-bats

  /** `int(text)`: `int(None)` is a TypeError, an ill-formed text a ValueError. */
  function StrictInt(x: Option<string>): (r: Result<int, Fault>)
    ensures x.None? ==> r == Failure(NoneOperand)
    ensures x.Some? ==> (r.Success? <==> Utils.IntOf(x.value).Some?)
    ensures r.Success? ==> Utils.TryInt(x) == Some(r.value)
    ensures x.Some? && r.Failure? ==> r.error == NotANumber
  {
    match x
    case None => Failure(NoneOperand)
    case Some(t) =>
      match Utils.IntOf(t)
      case Some(v) => Success(v)
      case None => Failure(NotANumber)
  }

  const AtBatCols: seq<Column> := [
    Column("balls", "b", AsInt),
    Column("strikes", "s", AsInt),
    Column("outs", "o", AsInt),
    Column("batter_id", "batter", AsInt),
    Column("pitcher_id", "pitcher", AsInt),
    Column("stands", "stand", AsText),
    Column("p_throws", "p_throws", AsText),
    Column("description", "des", AsText),
    Column("event_num", "event_num", AsInt),
    Column("event", "event", AsText),
    Column("home_team_runs", "home_team_runs", AsInt),
    Column("away_team_runs", "away_team_runs", AsInt)
  ]

  /** The columns `parse_atbats` sets itself. */
  function AtBatOwn(num: int, gameId: string, inning: Option<Value>, half: string, score: bool, start: Option<Value>): (d: Draft)
    ensures Sets(d, "at_bat_number", Some(IntV(num))) && Sets(d, "game_id", Some(TextV(gameId)))
    ensures Sets(d, "inning", inning) && Sets(d, "inning_half", Some(TextV(half)))
    ensures Sets(d, "score", Some(BoolV(score))) && Sets(d, "start_time", start)
  {
    map["at_bat_number" := Some(IntV(num)), "game_id" := Some(TextV(gameId)), "inning" := inning,
        "inning_half" := Some(TextV(half)), "score" := Some(BoolV(score)), "start_time" := start]
  }

  /** One `atbat` element (`parse_atbats`): its number must be an integer, its inning is
      the number of its grandparent (`inning`), its half the name of its parent (`top` or
      `bottom`). */
  function AtBatDraft(gameId: string, atbat: Hit, parse: StampParser): (r: Result<Draft, Fault>)
    ensures r.Success? <==> StrictInt(Get(atbat.node, "num")).Success? && Grandparent(atbat).Some?
    ensures StrictInt(Get(atbat.node, "num")).Failure? ==> r == Failure(StrictInt(Get(atbat.node, "num")).error)
    ensures StrictInt(Get(atbat.node, "num")).Success? && Grandparent(atbat).None? ==> r == Failure(AttributeOfNone)
    ensures r.Success? ==>
      && Sets(r.value, "at_bat_number", Some(IntV(StrictInt(Get(atbat.node, "num")).value)))
      && Sets(r.value, "game_id", Some(TextV(gameId)))
      && Sets(r.value, "inning", Coerce(AsInt, Get(Grandparent(atbat).value, "num")))
      && Sets(r.value, "inning_half", Some(TextV(Parent(atbat).value.name)))
      && Sets(r.value, "score", Some(BoolV(Flag(atbat.node, "score", "F", "T"))))
      && Sets(r.value, "start_time", StampOf(parse, atbat.node, "start_tfs_zulu"))
  {
    match StrictInt(Get(atbat.node, "num"))
    case Failure(e) => Failure(e)
    case Success(num) =>
      match Grandparent(atbat)
      case None => Failure(AttributeOfNone)
      case Some(inning) =>
        Success(Columns(atbat.node, AtBatCols)
          + AtBatOwn(num, gameId, Coerce(AsInt, Get(inning, "num")), atbat.ancestors[0].name,
                     Flag(atbat.node, "score", "F", "T"), StampOf(parse, atbat.node, "start_tfs_zulu")))
  }

  // ---------------------------------------------------------------- pitches

  const PitchCols: seq<Column> := [
    Column("description", "des", AsText),
    Column("type", "type", AsText),
    Column("x", "x", AsFloat),
    Column("y", "y", AsFloat),
    Column("event_num", "event_num", AsInt),
    Column("sv_id", "sv_id", AsText),
    Column("play_guid", "play_guid", AsText),
    Column("start_speed", "start_speed", AsFloat),
    Column("end_speed", "end_speed", AsFloat),
    Column("sz_top", "sz_top", AsFloat),
    Column("sz_bottom", "sz_bot", AsFloat),
    Column("pfx_x", "pfx_x", AsFloat),
    Column("pfx_z", "pfx_z", AsFloat),
    Column("x0", "x0", AsFloat),
    Column("y0", "y0", AsFloat),
    Column("z0", "z0", AsFloat),
    Column("vx0", "vx0", AsFloat),
    Column("vy0", "vy0", AsFloat),
    Column("vz0", "vz0", AsFloat),
    Column("ax", "ax", AsFloat),
    Column("ay", "ay", AsFloat),
    Column("az", "az", AsFloat),
    Column("break_y", "break_y", AsFloat),
    Column("break_angle", "break_angle", AsFloat),
    Column("break_length", "break_length", AsFloat),
    Column("pitch_type", "pitch_type", AsText),
    Column("type_confidence", "type_confidence", AsFloat),
    Column("zone", "zone", AsInt),
    Column("nasty", "nasty", AsInt),
    Column("spin_dir", "spin_dir", AsFloat),
    Column("spin_rate", "spin_rate", AsFloat)
  ]

  /** `int(pitch.get('id', next(pitch_counter)))` of `gameloader.py`, where `position` is
      the value the counter hands out: the pitch's own `id` when present (a ValueError when
      it is not an integer), otherwise the position. */
  function CounterPitchId(n: Node, position: nat): (r: Result<Value, Fault>)
    ensures Get(n, "id").None? ==> r == Success(IntV(position))
    ensures Get(n, "id").Some? ==>
      (r.Success? <==> Utils.IntOf(Get(n, "id").value).Some?)
      && (r.Success? ==> r.value == IntV(Utils.IntOf(Get(n, "id").value).value))
      && (r.Failure? ==> r.error == NotANumber)
  {
    match Get(n, "id")
    case None => Success(IntV(position))
    case Some(t) =>
      match Utils.IntOf(t)
      case Some(v) => Success(IntV(v))
      case None => Failure(NotANumber)
  }

  /** The columns `parse_pitches` sets itself. */
  function PitchOwn(gameId: string, pitchId: Option<Value>, atBat: Option<Value>, stamp: Option<Value>): (d: Draft)
    ensures Sets(d, "game_id", Some(TextV(gameId))) && Sets(d, "pitch_id", pitchId)
    ensures Sets(d, "at_bat_number", atBat) && Sets(d, "timestamp", stamp)
  {
    map["game_id" := Some(TextV(gameId)), "pitch_id" := pitchId, "at_bat_number" := atBat, "timestamp" := stamp]
  }

  /** One `pitch` element with its `pitch_id` already computed: its at-bat number is the
      number of its parent `atbat`. */
  function PitchDraft(gameId: string, pitch: Hit, pitchId: Option<Value>, parse: StampParser): (r: Result<Draft, Fault>)
    ensures r.Success? <==> Parent(pitch).Some?
    ensures r.Failure? ==> r.error == AttributeOfNone
    ensures r.Success? ==>
      && Sets(r.value, "game_id", Some(TextV(gameId)))
      && Sets(r.value, "pitch_id", pitchId)
      && Sets(r.value, "at_bat_number", Coerce(AsInt, Get(Parent(pitch).value, "num")))
      && Sets(r.value, "timestamp", StampOf(parse, pitch.node, "tfs_zulu"))
  {
    match Parent(pitch)
    case None => Failure(AttributeOfNone)
    case Some(atbat) =>
      Success(Columns(pitch.node, PitchCols)
        + PitchOwn(gameId, pitchId, Coerce(AsInt, Get(atbat, "num")), StampOf(parse, pitch.node, "tfs_zulu")))
  }

  /** `parse_pitches` of `gameloader.py` for the pitch at `position` among all pitches. */
  function CounterPitch(gameId: string, pitch: Hit, position: nat, parse: StampParser): (r: Result<Row, Fault>)
    ensures r.Success? ==> r.value.table == Pitches
  {
    match CounterPitchId(pitch.node, position)
    case Failure(e) => Failure(e)
    case Success(id) => AsRow(Pitches, PitchDraft(gameId, pitch, Some(id), parse))
  }

  /** `parse_pitches` of `breakingball/load.py`: `try_int(pitch.get('id'))`, no fallback. */
  function TryIntPitch(gameId: string, pitch: Hit, parse: StampParser): (r: Result<Row, Fault>)
    ensures r.Success? ==> r.value.table == Pitches
  {
    AsRow(Pitches, PitchDraft(gameId, pitch, Coerce(AsInt, Get(pitch.node, "id")), parse))
  }

  /** A pitch without an `id` gets its position among the pitches as `pitch_id` in
      `gameloader.py`, and no `pitch_id` (so no complete key) in `breakingball/load.py`. */
  lemma PitchIdFallback(gameId: string, pitch: Hit, position: nat, parse: StampParser)
    requires Get(pitch.node, "id").None? && Parent(pitch).Some?
    ensures CounterPitch(gameId, pitch, position, parse).Success?
    ensures "pitch_id" in CounterPitch(gameId, pitch, position, parse).value.fields
    ensures CounterPitch(gameId, pitch, position, parse).value.fields["pitch_id"] == IntV(position)
    ensures TryIntPitch(gameId, pitch, parse).Success?
    ensures "pitch_id" !in TryIntPitch(gameId, pitch, parse).value.fields
    ensures !HasKey(TryIntPitch(gameId, pitch, parse).value)
  {
    assert CounterPitchId(pitch.node, position) == Success(IntV(position));
    assert CounterPitch(gameId, pitch, position, parse) == AsRow(Pitches, PitchDraft(gameId, pitch, Some(IntV(position)), parse));
    PitchIdColumn(gameId, pitch, Some(IntV(position)), parse);
    assert Coerce(AsInt, Get(pitch.node, "id")) == None;
    assert TryIntPitch(gameId, pitch, parse) == AsRow(Pitches, PitchDraft(gameId, pitch, None, parse));
    PitchIdColumn(gameId, pitch, None, parse);
    var row := TryIntPitch(gameId, pitch, parse).value;
    assert row.table == Pitches && KeyColumns(row.table)[1] == "pitch_id" && "pitch_id" !in row.fields;
    MissingKeyColumn(row, 1);
  }

  /** The stored `pitch_id` of a pitch record is the computed one, absent when that is
      `None`. */
  lemma PitchIdColumn(gameId: string, pitch: Hit, pitchId: Option<Value>, parse: StampParser)
    requires Parent(pitch).Some?
    ensures var r := AsRow(Pitches, PitchDraft(gameId, pitch, pitchId, parse));
      && r.Success?
      && ("pitch_id" in r.value.fields <==> pitchId.Some?)
      && (pitchId.Some? ==> r.value.fields["pitch_id"] == pitchId.value)
  {
  }

  /** When the `id` is an integer both loaders build the same pitch record, whatever the
      counter says. */
  lemma PitchRecordsAgree(gameId: string, pitch: Hit, position: nat, parse: StampParser)
    requires Get(pitch.node, "id").Some? && Utils.IntOf(Get(pitch.node, "id").value).Some?
    ensures CounterPitch(gameId, pitch, position, parse) == TryIntPitch(gameId, pitch, parse)
  {
  }

  /** A non-integer `id` makes `gameloader.py` raise and `breakingball/load.py` drop the
      key column. */
  lemma PitchIdNotANumber(gameId: string, pitch: Hit, position: nat, parse: StampParser)
    requires Get(pitch.node, "id").Some? && Utils.IntOf(Get(pitch.node, "id").value).None?
    requires Parent(pitch).Some?
    ensures CounterPitch(gameId, pitch, position, parse) == Failure(NotANumber)
    ensures "pitch_id" !in TryIntPitch(gameId, pitch, parse).value.fields
  {
  }

  // ---------------------------------------------------------------- runners

  const RunnerCols: seq<Column> := [
    Column("runner_id", "id", AsInt),
    Column("start", "start", AsText),
    Column("end", "end", AsText),
    Column("event", "event", AsText),
    Column("event_num", "event_num", AsText)
  ]

  /** The columns `parse_runners` sets itself. */
  function RunnerOwn(gameId: string, atBat: Option<Value>, score: bool, rbi: bool, earned: bool): (d: Draft)
    ensures Sets(d, "game_id", Some(TextV(gameId))) && Sets(d, "at_bat_number", atBat)
    ensures Sets(d, "score", Some(BoolV(score))) && Sets(d, "rbi", Some(BoolV(rbi))) && Sets(d, "earned", Some(BoolV(earned)))
  {
    map["game_id" := Some(TextV(gameId)), "at_bat_number" := atBat, "score" := Some(BoolV(score)),
        "rbi" := Some(BoolV(rbi)), "earned" := Some(BoolV(earned))]
  }

  /** One `runner` element (`parse_runners`): its at-bat number is its parent's, its
      `event_num` stays text, and its flags are `'T'` tests. */
  function RunnerDraft(gameId: string, runner: Hit, rule: FlagRule): (r: Result<Draft, Fault>)
    ensures r.Success? <==> Parent(runner).Some?
    ensures r.Failure? ==> r.error == AttributeOfNone
    ensures r.Success? ==>
      && Sets(r.value, "game_id", Some(TextV(gameId)))
      && Sets(r.value, "at_bat_number", Coerce(AsInt, Get(Parent(runner).value, "num")))
      && Sets(r.value, "score", Some(BoolV(FlagValue(rule, runner.node, "score", "", "T"))))
      && Sets(r.value, "rbi", Some(BoolV(FlagValue(rule, runner.node, "rbi", "", "T"))))
      && Sets(r.value, "earned", Some(BoolV(FlagValue(rule, runner.node, "earned", "", "T"))))
  {
    match Parent(runner)
    case None => Failure(AttributeOfNone)
    case Some(atbat) =>
      Success(Columns(runner.node, RunnerCols)
        + RunnerOwn(gameId, Coerce(AsInt, Get(atbat, "num")), FlagValue(rule, runner.node, "score", "", "T"),
                    FlagValue(rule, runner.node, "rbi", "", "T"), FlagValue(rule, runner.node, "earned", "", "T")))
  }

  /** The two loaders' runner records agree, and each flag is true exactly when its
      attribute is `'T'`. */
  lemma RunnerFlags(gameId: string, runner: Hit)
    requires Parent(runner).Some?
    ensures RunnerDraft(gameId, runner, DefaultRule) == RunnerDraft(gameId, runner, PresentRule)
    ensures var d := RunnerDraft(gameId, runner, DefaultRule).value;
      && (Sets(d, "score", Some(BoolV(true))) <==> Get(runner.node, "score") == Some("T"))
      && (Sets(d, "rbi", Some(BoolV(true))) <==> Get(runner.node, "rbi") == Some("T"))
      && (Sets(d, "earned", Some(BoolV(true))) <==> Get(runner.node, "earned") == Some("T"))
  {
    FlagRulesAgree(runner.node, "score", "", "T");
    FlagRulesAgree(runner.node, "rbi", "", "T");
    FlagRulesAgree(runner.node, "earned", "", "T");
  }

  // ---------------------------------------------------------------- loops

  /** What a `parse_*` loop leaves: the records appended before the first element that
      raised, and that exception. */
  datatype Gathered = Gathered(rows: seq<Row>, fault: Option<Fault>)

  function Gather(rs: seq<Result<Row, Fault>>): (g: Gathered)
    ensures |g.rows| <= |rs|
    ensures forall i :: 0 <= i < |g.rows| ==> rs[i] == Success(g.rows[i])
    ensures g.fault.None? ==> |g.rows| == |rs|
    ensures g.fault.Some? ==> |g.rows| < |rs| && rs[|g.rows|] == Failure(g.fault.value)
    decreases |rs|
  {
    if rs == [] then Gathered([], None)
    else
      var g := Gather(rs[..|rs| - 1]);
      if g.fault.Some? then g
      else
        match rs[|rs| - 1]
        case Success(v) => Gathered(g.rows + [v], None)
        case Failure(e) => Gathered(g.rows, Some(e))
  }

  /** One more element: nothing changes after a fault, otherwise a record is appended or
      the element's exception recorded. */
  lemma GatherSnoc(rs: seq<Result<Row, Fault>>, i: nat)
    requires i < |rs|
    ensures Gather(rs[..i + 1]) ==
      var g := Gather(rs[..i]);
      if g.fault.Some? then g
      else match rs[i]
        case Success(v) => Gathered(g.rows + [v], None)
        case Failure(e) => Gathered(g.rows, Some(e))
  {
    assert rs[..i + 1][..i] == rs[..i];
  }

  /** Two loops run one after the other, the second only when the first raised nothing,
      leave what one loop over both sequences leaves. */
  lemma {:induction false} GatherAppend(a: seq<Result<Row, Fault>>, b: seq<Result<Row, Fault>>)
    ensures Gather(a + b) ==
      if Gather(a).fault.Some? then Gather(a)
      else Gathered(Gather(a).rows + Gather(b).rows, Gather(b).fault)
    decreases |b|
  {
    if b == [] {
      assert a + b == a;
    } else {
      var front := b[..|b| - 1];
      GatherAppend(a, front);
      assert (a + b)[..|a + b| - 1] == a + front;
      assert (a + b)[|a + b| - 1] == b[|b| - 1];
    }
  }

  /** Once an element raised, the rest of the loop never runs. */
  lemma GatherStops(rs: seq<Result<Row, Fault>>, i: nat)
    requires i < |rs| && Gather(rs[..i + 1]).fault.Some?
    ensures Gather(rs) == Gather(rs[..i + 1])
  {
    GatherAppend(rs[..i + 1], rs[i + 1..]);
    Seqs.SplitAt(rs, i + 1);
  }

  /** A loop reports a fault exactly when some element raised, and then the first one. */
  lemma {:induction false} GatherFault(rs: seq<Result<Row, Fault>>)
    ensures Gather(rs).fault.None? <==> forall i :: 0 <= i < |rs| ==> rs[i].Success?
    ensures Gather(rs).fault.Some? ==> forall i :: 0 <= i < |Gather(rs).rows| ==> rs[i].Success?
    decreases |rs|
  {
    if rs != [] {
      var front := rs[..|rs| - 1];
      GatherFault(front);
      assert forall i :: 0 <= i < |front| ==> front[i] == rs[i];
    }
  }

  function BatterResults(gameId: string, bs: Node, hits: seq<Hit>): (rs: seq<Result<Row, Fault>>)
    ensures |rs| == |hits| && forall i :: 0 <= i < |hits| ==> rs[i] == AsRow(Batters, BatterDraft(gameId, bs, hits[i]))
  {
    seq(|hits|, i requires 0 <= i < |hits| => AsRow(Batters, BatterDraft(gameId, bs, hits[i])))
  }

  function PitcherResults(gameId: string, bs: Node, hits: seq<Hit>): (rs: seq<Result<Row, Fault>>)
    ensures |rs| == |hits| && forall i :: 0 <= i < |hits| ==> rs[i] == AsRow(Pitchers, PitcherDraft(gameId, bs, hits[i]))
  {
    seq(|hits|, i requires 0 <= i < |hits| => AsRow(Pitchers, PitcherDraft(gameId, bs, hits[i])))
  }

  function AtBatResults(gameId: string, hits: seq<Hit>, parse: StampParser): (rs: seq<Result<Row, Fault>>)
    ensures |rs| == |hits| && forall i :: 0 <= i < |hits| ==> rs[i] == AsRow(AtBats, AtBatDraft(gameId, hits[i], parse))
  {
    seq(|hits|, i requires 0 <= i < |hits| => AsRow(AtBats, AtBatDraft(gameId, hits[i], parse)))
  }

  /** `gameloader.py`: the counter hands the `i`-th pitch the value `i`. */
  function CounterPitchResults(gameId: string, hits: seq<Hit>, parse: StampParser): (rs: seq<Result<Row, Fault>>)
    ensures |rs| == |hits| && forall i :: 0 <= i < |hits| ==> rs[i] == CounterPitch(gameId, hits[i], i, parse)
  {
    seq(|hits|, i requires 0 <= i < |hits| => CounterPitch(gameId, hits[i], i, parse))
  }

  function TryIntPitchResults(gameId: string, hits: seq<Hit>, parse: StampParser): (rs: seq<Result<Row, Fault>>)
    ensures |rs| == |hits| && forall i :: 0 <= i < |hits| ==> rs[i] == TryIntPitch(gameId, hits[i], parse)
  {
    seq(|hits|, i requires 0 <= i < |hits| => TryIntPitch(gameId, hits[i], parse))
  }

  function RunnerResults(gameId: string, hits: seq<Hit>, rule: FlagRule): (rs: seq<Result<Row, Fault>>)
    ensures |rs| == |hits| && forall i :: 0 <= i < |hits| ==> rs[i] == AsRow(Runners, RunnerDraft(gameId, hits[i], rule))
  {
    seq(|hits|, i requires 0 <= i < |hits| => AsRow(Runners, RunnerDraft(gameId, hits[i], rule)))
  }
}
