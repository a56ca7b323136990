/** The ORM classes of the top-level `models.py`: `Game`, whose constructor derives the
    date, the season and the URL from the game id and whose `from_soup` fills its columns
    from a linescore one assignment at a time, and the record `Team_Stats.from_soup` builds.
    `Team.from_soup` of this file is the same code as in `breakingball/models.py` and is
    modelled once, as `Schema.TeamFromSoup`. */
module SoupModels {
  import opened Wrappers
  import opened Calendar
  import opened Doc
  import opened Records
  import opened Rules
  import opened Schema
  import opened Extract
  import Utils
  import LegacyUtils

  // ---------------------------------------------------------------- Game.__init__

  /** The mapped columns of `Game`: the only keyword arguments its constructor accepts. */
  const GameNames: set<string> := {
    "game_id", "game_date", "game_datetime", "season", "venue", "game_type", "inning",
    "outs", "top_inning", "status", "home_team_id", "away_team_id", "home_team_runs",
    "away_team_runs", "home_team_hits", "away_team_hits", "home_team_errors",
    "away_team_errors", "url"
  }

  /** The columns the constructor derives from `game_id`. */
  const Derived: set<string> := {"game_date", "season", "url"}

  /** `self.game_id` once the keyword arguments are set: its text, or `None` when the
      argument is missing, `None` or not text (then `gid_to_date` raises a TypeError). */
  function IdOf(kwargs: Draft): (id: Option<string>)
    ensures id.Some? ==> Sets(kwargs, "game_id", Some(TextV(id.value)))
    ensures id.None? ==> !("game_id" in kwargs && kwargs["game_id"].Some? && kwargs["game_id"].value.TextV?)
  {
    if "game_id" in kwargs && kwargs["game_id"].Some? && kwargs["game_id"].value.TextV?
    then Some(kwargs["game_id"].value.s)
    else None
  }

  /** The keyword arguments with the derived columns assigned over them: `season` is the
      year of `game_date`, and every other argument is kept as given. */
  function Derive(kwargs: Draft, date: Date, url: string): (d: Draft)
    ensures d.Keys == kwargs.Keys + Derived
    ensures forall k :: k in kwargs && k !in Derived ==> d[k] == kwargs[k]
    ensures Sets(d, "game_date", Some(DateV(date))) && Sets(d, "season", Some(IntV(date.year)))
    ensures Sets(d, "url", Some(TextV(url)))
  {
    kwargs["game_date" := Some(DateV(date))]["season" := Some(IntV(date.year))]["url" := Some(TextV(url))]
  }

  /** Whatever the arguments say about the derived columns is lost: deriving gives the
      same columns with or without them, and the id is read the same way. */
  lemma DeriveOverwrites(kwargs: Draft, date: Date, url: string)
    ensures Derive(kwargs, date, url) == Derive(kwargs - Derived, date, url)
    ensures IdOf(kwargs - Derived) == IdOf(kwargs)
  {
    var a, b := Derive(kwargs, date, url), Derive(kwargs - Derived, date, url);
    assert a.Keys == b.Keys;
    assert "game_id" !in Derived;
  }

  /** `Game(**kwargs)`: the arguments, then `game_date`, `season` and `url` derived from
      `game_id` by `gid_to_date` and `gid_to_url`. A missing id is a TypeError, an id
      `gid_to_date` cannot read a ValueError. */
  function GameInit(kwargs: Draft): (r: Result<Draft, Fault>)
    ensures IdOf(kwargs).None? ==> r == Failure(NoneOperand)
    ensures IdOf(kwargs).Some? ==>
      var id := IdOf(kwargs).value;
      && (Utils.GidToDate(id).None? ==> r == Failure(BadGameId))
      && (Utils.GidToDate(id).Some? ==>
            r == Success(Derive(kwargs, Utils.GidToDate(id).value, LegacyUtils.GidToUrl(id).value)))
  {
    match IdOf(kwargs)
    case None => Failure(NoneOperand)
    case Some(id) =>
      match Utils.GidToDate(id)
      case None => Failure(BadGameId)
      case Some(date) => Success(Derive(kwargs, date, LegacyUtils.GidToUrl(id).value))
  }

  /** For an id written as `gid_YYYY_MM_DD...`, the game falls on that date, in that year's
      season, under that date's directory of the GameDay tree. */
  lemma GameInitOfGid(d: Date, rest: string, kwargs: Draft)
    requires ValidDate(d) && Sets(kwargs, "game_id", Some(TextV(Utils.GidOf(d, rest))))
    ensures GameInit(kwargs) == Success(Derive(kwargs, d, Utils.DateToUrl(d) + Utils.GidOf(d, rest) + "/"))
  {
    Utils.GidRoundTrip(d, rest);
    LegacyUtils.GidToUrlOfGid(d, rest);
  }

  /** A `Game` instance: the column attributes set so far. An attribute never set reads
      as `None`, like one set to `None`. */
  class Game {
    var columns: Draft

    /** `Game(**kwargs)` once `gid_to_date` and `gid_to_url` have read the id:
        `super().__init__` sets the arguments, then the three derived columns are
        assigned in turn. */
    constructor(kwargs: Draft, date: Date, url: string)
      requires kwargs.Keys <= GameNames
      ensures columns == Derive(kwargs, date, url)
    {
      columns := kwargs;
      new;
      columns := columns["game_date" := Some(DateV(date))];
      columns := columns["season" := Some(IntV(date.year))];
      columns := columns["url" := Some(TextV(url))];
    }

    /** `self.<name> = value`. */
    method Assign(name: string, value: Option<Value>)
      modifies this
      ensures columns == old(columns)[name := value]
    {
      columns := columns[name := value];
    }

    /** `self.<name> = <conv>(element.get(<attr>))` for each column of the table in turn,
        as `Columns` runs them. */
    method AssignColumns(n: Node, cols: seq<Column>)
      modifies this
      ensures columns == old(columns) + Columns(n, cols)
    {
      columns := columns + Columns(n, cols);
    }

    /** The assignments `from_soup` makes after constructing the game: the start time when
        it parses, the attribute columns of the `game` element, and the `top_inning` flag.
        The source writes one statement per column; each sets a different attribute, so
        their order does not change the result. */
    method Fill(ls: Node, date: Date, clock: Clock)
      modifies this
      ensures columns == Filled(old(columns), ls, date, clock)
    {
      ghost var init := columns;
      match clock(FormatPair(Get(ls, "time"), Get(ls, "ampm"))) {
        case Some(s) => Assign("game_datetime", Some(StampV(Stamp(date, s))));
        case None =>
      }
      assert columns == init + StartColumn(ls, date, clock);
      ghost var started := columns;
      AssignColumns(ls, GameCols);
      var gameType := Coerce(AsText, Get(ls, "game_type"));
      Assign("game_type", gameType);
      UpdateAfterMerge(started, Columns(ls, GameCols), "game_type", gameType);
      var top := Some(BoolV(PresentAndEquals(ls, "top_inning", "Y")));
      Assign("top_inning", top);
      UpdateAfterMerge(started, Columns(ls, GameCols)["game_type" := gameType], "top_inning", top);
    }
  }

  /** Assigning after a merge is assigning in the merged map. */
  lemma UpdateAfterMerge<K, V>(m: map<K, V>, n: map<K, V>, k: K, v: V)
    ensures (m + n)[k := v] == m + n[k := v]
  {
  }

  /** `Game(**kwargs)`, or the exception the constructor raises. */
  method NewGame(kwargs: Draft) returns (r: Result<Game, Fault>)
    requires kwargs.Keys <= GameNames
    ensures r.Failure? <==> GameInit(kwargs).Failure?
    ensures r.Failure? ==> r.error == GameInit(kwargs).error
    ensures r.Success? ==> fresh(r.value) && r.value.columns == GameInit(kwargs).value
  {
    var id := IdOf(kwargs);
    if id.None? {
      return Failure(NoneOperand);
    }
    var date := Utils.GidToDate(id.value);
    if date.None? {
      return Failure(BadGameId);
    }
    var g := new Game(kwargs, date.value, LegacyUtils.GidToUrl(id.value).value);
    r := Success(g);
  }

  // ---------------------------------------------------------------- Game.from_soup

  /** `game_datetime`: set to the game date at the start time only when the time text
      parses; otherwise the attribute is never assigned. */
  function StartColumn(ls: Node, date: Date, clock: Clock): (d: Draft)
    ensures "game_datetime" in d <==> clock(FormatPair(Get(ls, "time"), Get(ls, "ampm"))).Some?
    ensures d.Keys <= {"game_datetime"}
    ensures "game_datetime" in d ==>
      d["game_datetime"] == Some(StampV(Stamp(date, clock(FormatPair(Get(ls, "time"), Get(ls, "ampm"))).value)))
  {
    match clock(FormatPair(Get(ls, "time"), Get(ls, "ampm")))
    case Some(s) => map["game_datetime" := Some(StampV(Stamp(date, s)))]
    case None => map[]
  }

  /** The columns `from_soup` assigns from the `game` element: the twelve attribute
      columns the loaders read the same way, then `game_type` as it is, with no default,
      then the `top_inning` flag. None of them is the id, a derived column or the start
      time. */
  function LinescoreColumns(ls: Node): (d: Draft)
    ensures "game_id" !in d && "game_datetime" !in d && forall k :: k in Derived ==> k !in d
    ensures Sets(d, "game_type", Coerce(AsText, Get(ls, "game_type")))
    ensures Sets(d, "top_inning", Some(BoolV(PresentAndEquals(ls, "top_inning", "Y"))))
  {
    GameColsApart(ls);
    Columns(ls, GameCols)["game_type" := Coerce(AsText, Get(ls, "game_type"))]
                         ["top_inning" := Some(BoolV(PresentAndEquals(ls, "top_inning", "Y")))]
  }

  /** A constructed game after the assignments of `from_soup`: the id and the derived
      columns stay as the constructor set them, `game_type` has no default, `top_inning`
      is true exactly for a present `'Y'`, and `game_datetime` is set only when the time
      parses. */
  function Filled(init: Draft, ls: Node, date: Date, clock: Clock): (d: Draft)
    ensures forall k :: k in init && (k == "game_id" || k in Derived) ==> k in d && d[k] == init[k]
    ensures Sets(d, "game_type", Coerce(AsText, Get(ls, "game_type")))
    ensures Sets(d, "top_inning", Some(BoolV(PresentAndEquals(ls, "top_inning", "Y"))))
    ensures "game_datetime" in d <==> "game_datetime" in init || clock(FormatPair(Get(ls, "time"), Get(ls, "ampm"))).Some?
  {
    init + StartColumn(ls, date, clock) + LinescoreColumns(ls)
  }

  /** `Game.from_soup(linescore_soup)`: the game of id `'gid_' + gameday_link`, built by
      the constructor and then filled from the `game` element. A missing element is an
      AttributeError, a missing link a TypeError, an unreadable id the constructor's
      ValueError. */
  function GameFromSoup(linescoreDoc: Node, clock: Clock): (r: Result<Draft, Fault>)
    ensures var game := Find(Root(linescoreDoc), "game");
      && (game.None? ==> r == Failure(AttributeOfNone))
      && (game.Some? && Get(game.value.node, "gameday_link").None? ==> r == Failure(NoneOperand))
      && (game.Some? && Get(game.value.node, "gameday_link").Some? ==>
            var id := "gid_" + Get(game.value.node, "gameday_link").value;
            var kwargs := map["game_id" := Some(TextV(id))];
            && (GameInit(kwargs).Failure? ==> r == Failure(GameInit(kwargs).error))
            && (GameInit(kwargs).Success? ==>
                  r == Success(Filled(GameInit(kwargs).value, game.value.node, Utils.GidToDate(id).value, clock))))
  {
    match Find(Root(linescoreDoc), "game")
    case None => Failure(AttributeOfNone)
    case Some(game) =>
      match Get(game.node, "gameday_link")
      case None => Failure(NoneOperand)
      case Some(link) =>
        var kwargs := map["game_id" := Some(TextV("gid_" + link))];
        match GameInit(kwargs)
        case Failure(e) => Failure(e)
        case Success(init) => Success(Filled(init, game.node, Utils.GidToDate("gid_" + link).value, clock))
  }

  /** `from_soup` run on a `Game` instance: the constructor, then `Fill`. */
  method FromSoup(linescoreDoc: Node, clock: Clock) returns (r: Result<Game, Fault>)
    ensures r.Failure? <==> GameFromSoup(linescoreDoc, clock).Failure?
    ensures r.Failure? ==> r.error == GameFromSoup(linescoreDoc, clock).error
    ensures r.Success? ==> fresh(r.value) && r.value.columns == GameFromSoup(linescoreDoc, clock).value
  {
    var lsGame := Find(Root(linescoreDoc), "game");
    if lsGame.None? {
      return Failure(AttributeOfNone);
    }
    var ls := lsGame.value.node;
    var link := Get(ls, "gameday_link");
    if link.None? {
      return Failure(NoneOperand);
    }
    var gameId := "gid_" + link.value;
    var made := NewGame(map["game_id" := Some(TextV(gameId))]);
    if made.Failure? {
      return Failure(made.error);
    }
    var g := made.value;
    g.Fill(ls, Utils.GidToDate(gameId).value, clock);
    r := Success(g);
  }

  /** Two records that agree on every present value outside `skip` agree once `None`
      values are dropped, outside `skip`. */
  lemma DropNoneAgree(a: Draft, b: Draft, skip: set<string>)
    requires forall k :: k !in skip ==> (k in a && a[k].Some? <==> k in b && b[k].Some?)
    requires forall k :: k !in skip && k in a && a[k].Some? ==> a[k] == b[k]
    ensures DropNone(a) - skip == DropNone(b) - skip
  {
    var x, y := DropNone(a) - skip, DropNone(b) - skip;
    assert x.Keys == y.Keys;
  }

  /** None of the twelve columns the loaders read is the id, a derived column, the start
      time, `game_type` or the flag. */
  lemma GameColsApart(ls: Node)
    ensures forall k :: k in Columns(ls, GameCols) ==>
      k !in {"game_id", "game_date", "season", "url", "game_datetime", "game_type", "top_inning"}
  {
    assert forall i :: 0 <= i < |GameCols| ==>
      GameCols[i].name !in {"game_id", "game_date", "season", "url", "game_datetime", "game_type", "top_inning"};
  }

  /** The shape both records share: columns read from the element, which meet no key set
      otherwise, beside columns that agree wherever both records set them. */
  lemma MergedAgree(init: Draft, start: Draft, cols: Draft, gt: Option<Value>, top: Option<Value>,
                    own: Draft, skip: set<string>)
    requires forall k :: k in cols ==> k !in own && k !in init && k !in start
    requires init.Keys + start.Keys + {"game_type", "top_inning"} <= own.Keys
    requires forall k :: k in init && k !in {"game_type", "top_inning"} && k !in start ==> init[k] == own[k]
    requires forall k :: k in start && k !in {"game_type", "top_inning"} ==> start[k] == own[k]
    requires forall k :: k in own && k !in init && k !in start && k !in {"game_type", "top_inning"} ==> own[k].None?
    requires own["top_inning"] == top
    requires "game_type" !in skip ==> own["game_type"] == gt
    ensures DropNone(init + start + cols["game_type" := gt]["top_inning" := top]) - skip ==
            DropNone(cols + own) - skip
  {
    var a := init + start + cols["game_type" := gt]["top_inning" := top];
    var b := cols + own;
    forall k | k !in skip
      ensures (k in a && a[k].Some? <==> k in b && b[k].Some?)
      ensures k in a && a[k].Some? ==> a[k] == b[k]
    {
    }
    DropNoneAgree(a, b, skip);
  }

  /** The two records of one game, for any columns read from the element: the constructor's
      columns, the start time, the element's columns, `game_type` and the flag, against the
      element's columns followed by the columns `parse_game` sets. */
  lemma GameRecordsAgree(id: string, date: Date, url: string, start: Draft, startOwn: Option<Value>,
                         cols: Draft, gameType: Option<string>, top: bool, skip: set<string>)
    requires forall k :: k in cols ==>
      k !in {"game_id", "game_date", "season", "url", "game_datetime", "game_type", "top_inning"}
    requires start.Keys <= {"game_datetime"}
    requires "game_datetime" in start ==> start["game_datetime"] == startOwn
    requires "game_datetime" !in start ==> startOwn.None?
    requires skip == {} ==> gameType.Some?
    requires skip == {} || skip == {"game_type"}
    ensures DropNone(Derive(map["game_id" := Some(TextV(id))], date, url) + start
                       + cols["game_type" := Coerce(AsText, gameType)]["top_inning" := Some(BoolV(top))]) - skip
         == DropNone(cols + GameOwn(GameRef(id, date, date.year, url), startOwn,
                                    if gameType.Some? then gameType.value else "", top)) - skip
  {
    var init := Derive(map["game_id" := Some(TextV(id))], date, url);
    var own := GameOwn(GameRef(id, date, date.year, url), startOwn, if gameType.Some? then gameType.value else "", top);
    assert init.Keys == {"game_id", "game_date", "season", "url"};
    assert own.Keys == {"game_id", "url", "game_date", "season", "game_datetime", "game_type", "top_inning"};
    MergedAgree(init, start, cols, Coerce(AsText, gameType), Some(BoolV(top)), own, skip);
  }

  /** `from_soup` and `parse_game` read the start time the same way. */
  lemma StartAgree(ref: GameRef, ls: Node, clock: Clock)
    ensures var start := StartColumn(ls, ref.date, clock);
      && ("game_datetime" in start ==> start["game_datetime"] == StartOf(ref, ls, clock))
      && ("game_datetime" !in start ==> StartOf(ref, ls, clock).None?)
  {
  }

  /** For the same game, the game `from_soup` builds holds, once its `None` values are
      dropped, the record `parse_game` of `breakingball/load.py` appends, except for
      `game_type`: `parse_game` defaults it to `''`, so the two agree on it too exactly
      when the linescore has one. */
  lemma FilledMatchesParseGame(ref: GameRef, ls: Node, clock: Clock)
    requires ref.season == ref.date.year
    ensures var mine := DropNone(Filled(Derive(map["game_id" := Some(TextV(ref.id))], ref.date, ref.url), ls, ref.date, clock));
      var theirs := GameRow(ref, ls, clock, PresentRule).fields;
      && mine - {"game_type"} == theirs - {"game_type"}
      && (Get(ls, "game_type").Some? ==> mine == theirs)
  {
    var gameType := Get(ls, "game_type");
    var top := PresentAndEquals(ls, "top_inning", "Y");
    FilledAsMerge(ref, ls, clock);
    ParseGameAsMerge(ref, ls, clock);
    GameColsApart(ls);
    StartAgree(ref, ls, clock);
    GameRecordsAgree(ref.id, ref.date, ref.url, StartColumn(ls, ref.date, clock), StartOf(ref, ls, clock),
                     Columns(ls, GameCols), gameType, top, {"game_type"});
    if gameType.Some? {
      GameRecordsAgree(ref.id, ref.date, ref.url, StartColumn(ls, ref.date, clock), StartOf(ref, ls, clock),
                       Columns(ls, GameCols), gameType, top, {});
      assert forall m: Fields :: m - {} == m;
    }
  }

  /** The game `from_soup` builds, in the shape `GameRecordsAgree` compares. */
  lemma FilledAsMerge(ref: GameRef, ls: Node, clock: Clock)
    ensures Filled(Derive(map["game_id" := Some(TextV(ref.id))], ref.date, ref.url), ls, ref.date, clock)
         == Derive(map["game_id" := Some(TextV(ref.id))], ref.date, ref.url) + StartColumn(ls, ref.date, clock)
              + Columns(ls, GameCols)["game_type" := Coerce(AsText, Get(ls, "game_type"))]
                                     ["top_inning" := Some(BoolV(PresentAndEquals(ls, "top_inning", "Y")))]
  {
  }

  /** The record `parse_game` appends, in the shape `GameRecordsAgree` compares. */
  lemma ParseGameAsMerge(ref: GameRef, ls: Node, clock: Clock)
    requires ref.season == ref.date.year
    ensures var gameType := Get(ls, "game_type");
      GameRow(ref, ls, clock, PresentRule).fields
        == DropNone(Columns(ls, GameCols) + GameOwn(GameRef(ref.id, ref.date, ref.date.year, ref.url),
                      StartOf(ref, ls, clock), if gameType.Some? then gameType.value else "",
                      PresentAndEquals(ls, "top_inning", "Y")))
  {
    var gameType := Get(ls, "game_type");
    assert GetOr(ls, "game_type", "") == if gameType.Some? then gameType.value else "";
    assert FlagValue(PresentRule, ls, "top_inning", "", "Y") == PresentAndEquals(ls, "top_inning", "Y");
    assert ref == GameRef(ref.id, ref.date, ref.date.year, ref.url);
  }

  // ---------------------------------------------------------------- Team_Stats.from_soup

  /** The batting columns of `Team_Stats.from_soup`, each read from the `batting` element
      with `try_float` or `try_int`. */
  const StatsBattingCols: seq<Column> := [
    Column("batting_avg", "avg", AsFloat),
    Column("ab", "ab", AsInt),
    Column("r", "r", AsInt),
    Column("h", "h", AsInt),
    Column("d", "d", AsInt),
    Column("t", "t", AsInt),
    Column("hr", "hr", AsInt),
    Column("rbi", "rbi", AsInt),
    Column("bb", "bb", AsInt),
    Column("po", "po", AsInt),
    Column("da", "da", AsInt),
    Column("so", "so", AsInt),
    Column("lob", "lob", AsInt)
  ]

  /** The columns of `Team_Stats.from_soup` that are not read from the `batting` element,
      once both counts are known. */
  function StatsOwnColumns(gameId: string, box: Node, ls: Node, role: Role, wins: int, losses: int, rate: Value): (d: Draft)
    ensures var t := Get(ls, role.Prefix() + "_games_back");
      && Sets(d, "game_id", Some(TextV(gameId)))
      && Sets(d, "team_id", Coerce(AsInt, Get(box, role.Prefix() + "_id")))
      && Sets(d, "at_home", Some(BoolV(role == Home)))
      && Sets(d, "games_back", GamesBack(t, t).0) && Sets(d, "games_back_wildcard", GamesBack(t, t).1)
      && Sets(d, "wins", Some(IntV(wins))) && Sets(d, "losses", Some(IntV(losses)))
      && Sets(d, "winrate", Some(rate))
    ensures d.Keys == {"game_id", "team_id", "at_home", "games_back", "games_back_wildcard", "wins", "losses", "winrate"}
  {
    var t := Get(ls, role.Prefix() + "_games_back");
    var gb := GamesBack(t, t);
    StatsRow(Some(TextV(gameId)), Coerce(AsInt, Get(box, role.Prefix() + "_id")), Some(BoolV(role == Home)),
             gb.0, gb.1, Some(IntV(wins)), Some(IntV(losses)), Some(rate))
  }

  /** The columns `Team_Stats.from_soup` computes itself, by name. */
  function StatsRow(gameId: Option<Value>, teamId: Option<Value>, atHome: Option<Value>, gamesBack: Option<Value>,
                    wildcard: Option<Value>, wins: Option<Value>, losses: Option<Value>, rate: Option<Value>): (d: Draft)
    ensures d.Keys == {"game_id", "team_id", "at_home", "games_back", "games_back_wildcard", "wins", "losses", "winrate"}
    ensures d["game_id"] == gameId && d["team_id"] == teamId && d["at_home"] == atHome
    ensures d["games_back"] == gamesBack && d["games_back_wildcard"] == wildcard
    ensures d["wins"] == wins && d["losses"] == losses && d["winrate"] == rate
  {
    map["game_id" := gameId, "team_id" := teamId, "at_home" := atHome, "games_back" := gamesBack,
        "games_back_wildcard" := wildcard, "wins" := wins, "losses" := losses, "winrate" := rate]
  }

  /** `Team_Stats.from_soup`: the keyword arguments it passes to the constructor, or the
      exception it raises. The `batting` element is searched for in the whole boxscore. An
      absent `game` element fails first, then an absent link, then an absent `boxscore`
      element, then a count that is not a number, and last an absent `batting` element. */
  function StatsFromSoup(boxscoreDoc: Node, linescoreDoc: Node, role: Role): (r: Result<Draft, Fault>)
    ensures Find(Root(linescoreDoc), "game").None? ==> r == Failure(AttributeOfNone)
    ensures Find(Root(linescoreDoc), "game").Some? && Get(Find(Root(linescoreDoc), "game").value.node, "gameday_link").None? ==>
      r == Failure(NoneOperand)
    ensures var game := Find(Root(linescoreDoc), "game");
      var box := Find(Root(boxscoreDoc), "boxscore");
      var p := role.Prefix();
      game.Some? && Get(game.value.node, "gameday_link").Some? ==>
        && (box.None? ==> r == Failure(AttributeOfNone))
        && (box.Some? && WinRate(Utils.TryInt(Get(box.value.node, p + "_wins")),
                                 Utils.TryInt(Get(box.value.node, p + "_loss"))).Failure? ==>
              r == Failure(NoneOperand))
        && (box.Some? && WinRate(Utils.TryInt(Get(box.value.node, p + "_wins")),
                                 Utils.TryInt(Get(box.value.node, p + "_loss"))).Success? &&
            FindWith(Root(boxscoreDoc), "batting", "team_flag", p).None? ==>
              r == Failure(AttributeOfNone))
    ensures r.Success? <==>
      && Find(Root(linescoreDoc), "game").Some?
      && Get(Find(Root(linescoreDoc), "game").value.node, "gameday_link").Some?
      && Find(Root(boxscoreDoc), "boxscore").Some?
      && Utils.TryInt(Get(Find(Root(boxscoreDoc), "boxscore").value.node, role.Prefix() + "_wins")).Some?
      && Utils.TryInt(Get(Find(Root(boxscoreDoc), "boxscore").value.node, role.Prefix() + "_loss")).Some?
      && FindWith(Root(boxscoreDoc), "batting", "team_flag", role.Prefix()).Some?
    ensures r.Failure? ==> r.error in {AttributeOfNone, NoneOperand}
  {
    var p := role.Prefix();
    match Find(Root(linescoreDoc), "game")
    case None => Failure(AttributeOfNone)
    case Some(game) =>
      match Get(game.node, "gameday_link")
      case None => Failure(NoneOperand)
      case Some(link) =>
        match Find(Root(boxscoreDoc), "boxscore")
        case None => Failure(AttributeOfNone)
        case Some(box) =>
          var wins := Utils.TryInt(Get(box.node, p + "_wins"));
          var losses := Utils.TryInt(Get(box.node, p + "_loss"));
          match WinRate(wins, losses)
          case Failure(e) => Failure(e)
          case Success(rate) =>
            match FindWith(Root(boxscoreDoc), "batting", "team_flag", p)
            case None => Failure(AttributeOfNone)
            case Some(batting) =>
              Success(Columns(batting.node, StatsBattingCols)
                        + StatsOwnColumns("gid_" + link, box.node, game.node, role, wins.value, losses.value, rate))
  }

  /** The batting columns are never the columns `from_soup` computes itself. */
  lemma StatsBattingApart(n: Node)
    ensures forall k :: k in Columns(n, StatsBattingCols) ==>
      k !in {"game_id", "team_id", "at_home", "games_back", "games_back_wildcard", "wins", "losses", "winrate"}
  {
    assert forall i :: 0 <= i < |StatsBattingCols| ==>
      StatsBattingCols[i].name !in {"game_id", "team_id", "at_home", "games_back", "games_back_wildcard", "wins", "losses", "winrate"};
  }

  /** A record `Team_Stats.from_soup` builds belongs to the game of the linescore and the
      team of the boxscore, says whether that team is at home, has two equal games-back
      columns that are 0 for `'-'`, holds both counts as numbers, and has win rate 0 when
      both counts are 0. */
  lemma StatsFromSoupRecord(boxscoreDoc: Node, linescoreDoc: Node, role: Role)
    requires StatsFromSoup(boxscoreDoc, linescoreDoc, role).Success?
    ensures var d := StatsFromSoup(boxscoreDoc, linescoreDoc, role).value;
      var game := Find(Root(linescoreDoc), "game").value.node;
      var box := Find(Root(boxscoreDoc), "boxscore").value.node;
      var t := Get(game, role.Prefix() + "_games_back");
      && Sets(d, "game_id", Some(TextV("gid_" + Get(game, "gameday_link").value)))
      && Sets(d, "team_id", Coerce(AsInt, Get(box, role.Prefix() + "_id")))
      && Sets(d, "at_home", Some(BoolV(role == Home)))
      && "games_back" in d && Sets(d, "games_back_wildcard", d["games_back"])
      && (t == Some("-") ==> Sets(d, "games_back", Some(IntV(0))))
      && Utils.TryInt(Get(box, role.Prefix() + "_wins")).Some?
      && Utils.TryInt(Get(box, role.Prefix() + "_loss")).Some?
      && Sets(d, "wins", Some(IntV(Utils.TryInt(Get(box, role.Prefix() + "_wins")).value)))
      && (Utils.TryInt(Get(box, role.Prefix() + "_wins")).value + Utils.TryInt(Get(box, role.Prefix() + "_loss")).value == 0 ==>
            Sets(d, "winrate", Some(IntV(0))))
  {
    var game := Find(Root(linescoreDoc), "game").value;
    var box := Find(Root(boxscoreDoc), "boxscore").value;
    var batting := FindWith(Root(boxscoreDoc), "batting", "team_flag", role.Prefix()).value;
    StatsBattingApart(batting.node);
    GamesBackSameKey(game.node, role);
  }

  /** Unlike the loaders, which count a missing `wins` or `loss` attribute as 0,
      `from_soup` fails on it: `try_int` gives `None` and the sum raises. */
  lemma StatsMissingWins(boxscoreDoc: Node, linescoreDoc: Node, role: Role)
    requires Find(Root(linescoreDoc), "game").Some?
    requires Get(Find(Root(linescoreDoc), "game").value.node, "gameday_link").Some?
    requires Find(Root(boxscoreDoc), "boxscore").Some?
    requires role.Prefix() + "_wins" !in Find(Root(boxscoreDoc), "boxscore").value.node.attrs
    ensures StatsFromSoup(boxscoreDoc, linescoreDoc, role) == Failure(NoneOperand)
    ensures CountOr0(Find(Root(boxscoreDoc), "boxscore").value.node, role.Prefix() + "_wins") == Some(0)
  {
  }
}
