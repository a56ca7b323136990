/** The tables of `breakingball/models.py`: their natural primary keys, the NOT NULL
    columns that have no default, the column defaults, and `Team.from_soup`. */
module Schema {
  import opened Wrappers
  import opened Text
  import opened Doc
  import opened Records
  import opened Rules
  import Utils

  datatype Table = Games | Teams | TeamStats | Pitchers | Batters | AtBats | Pitches | Runners

  /** The primary-key columns of each table, in declaration order. */
  function KeyColumns(t: Table): (r: seq<string>)
    ensures 1 <= |r| <= 3
  {
    match t
    case Games => ["game_id"]
    case Teams => ["team_id", "season"]
    case TeamStats => ["game_id", "team_id"]
    case Pitchers => ["pitcher_id", "game_id"]
    case Batters => ["game_id", "team_id", "batter_id"]
    case AtBats => ["at_bat_number", "game_id"]
    case Pitches => ["game_id", "pitch_id"]
    case Runners => ["game_id", "at_bat_number", "runner_id"]
  }

  /** An ORM instance, `Batter(**b)`: the table and the keyword arguments it was built with. */
  datatype Row = Row(table: Table, fields: Fields)

  /** The identity of a stored row: its table and the values of its key columns in order. */
  datatype RowKey = RowKey(table: Table, values: seq<Value>)

  predicate HasKey(row: Row) {
    forall i :: 0 <= i < |KeyColumns(row.table)| ==> KeyColumns(row.table)[i] in row.fields
  }

  /** A row that leaves out one key column has no complete key. */
  lemma MissingKeyColumn(row: Row, i: nat)
    requires i < |KeyColumns(row.table)| && KeyColumns(row.table)[i] !in row.fields
    ensures !HasKey(row)
  {
  }

  /** The identity of a row, or `None` when a key column was left out (a NULL key). */
  function KeyOf(row: Row): (r: Option<RowKey>)
    ensures r.Some? <==> HasKey(row)
    ensures r.Some? ==> r.value.table == row.table && |r.value.values| == |KeyColumns(row.table)|
  {
    var cols := KeyColumns(row.table);
    if HasKey(row) then Some(RowKey(row.table, seq(|cols|, i requires 0 <= i < |cols| => row.fields[cols[i]])))
    else None
  }

  /** Two rows with complete keys denote the same stored row exactly when they belong to
      the same table and agree on every key column. */
  lemma SameKey(a: Row, b: Row)
    requires HasKey(a) && HasKey(b)
    ensures KeyOf(a) == KeyOf(b) <==>
      a.table == b.table
      && forall i :: 0 <= i < |KeyColumns(a.table)| ==>
           a.fields[KeyColumns(a.table)[i]] == b.fields[KeyColumns(a.table)[i]]
  {
    var cols := KeyColumns(a.table);
    if KeyOf(a) == KeyOf(b) {
      forall i | 0 <= i < |cols|
        ensures a.fields[cols[i]] == b.fields[cols[i]]
      {
        assert KeyOf(a).value.values[i] == a.fields[cols[i]];
        assert KeyOf(b).value.values[i] == b.fields[cols[i]];
      }
    }
    if a.table == b.table && forall i :: 0 <= i < |cols| ==> a.fields[cols[i]] == b.fields[cols[i]] {
      assert KeyOf(a).value.values == KeyOf(b).value.values;
    }
  }

  /** The key of a row is decided by its key columns alone: changing or adding any other
      column keeps it. */
  lemma KeyIgnoresOtherColumns(row: Row, extra: Fields)
    requires forall c :: c in extra ==> c !in KeyColumns(row.table)
    ensures KeyOf(Row(row.table, row.fields + extra)) == KeyOf(row)
  {
    var cols := KeyColumns(row.table);
    var grown := Row(row.table, row.fields + extra);
    assert forall i :: 0 <= i < |cols| ==> cols[i] !in extra;
    if HasKey(row) {
      assert KeyOf(grown).value.values == KeyOf(row).value.values;
    }
  }

  /** The NOT NULL columns that have no default; the key columns are NOT NULL as well. */
  function Required(t: Table): set<string> {
    match t
    case Games => {"game_date", "season", "url"}
    case Teams => {"name", "short_name"}
    case Pitches => {"at_bat_number"}
    case _ => {}
  }

  /** The `default=` values of each table's columns. */
  function Defaults(t: Table): Fields {
    match t
    case Games => map["venue" := TextV(""), "game_type" := TextV(""), "status" := TextV("")]
    case Teams => map["league" := TextV(""), "division" := TextV("")]
    case TeamStats => map[]
    case Pitchers =>
      map["name" := TextV(""), "full_name" := TextV(""), "position" := TextV(""),
          "blown_save" := BoolV(false), "save" := BoolV(false), "loss" := BoolV(false), "win" := BoolV(false)]
    case Batters => map["name" := TextV(""), "full_name" := TextV("")]
    case AtBats =>
      map["inning_half" := TextV(""), "stands" := TextV(""), "p_throws" := TextV(""),
          "description" := TextV(""), "event" := TextV("")]
    case Pitches =>
      map["description" := TextV(""), "type" := TextV(""), "sv_id" := TextV(""),
          "play_guid" := TextV(""), "pitch_type" := TextV("")]
    case Runners => map["start" := TextV(""), "end" := TextV(""), "event" := TextV("")]
  }

  /** What an INSERT of the row stores: each column it leaves out that has a default takes
      the default, every column it sets keeps its value. */
  function WithDefaults(row: Row): (r: Fields)
    ensures r.Keys == row.fields.Keys + Defaults(row.table).Keys
    ensures forall c :: c in row.fields ==> r[c] == row.fields[c]
    ensures forall c :: c in Defaults(row.table) && c !in row.fields ==> r[c] == Defaults(row.table)[c]
  {
    Defaults(row.table) + row.fields
  }

  /** The database accepts the stored columns of a new row: no NOT NULL column without a
      default is missing. */
  predicate Admissible(t: Table, stored: Fields) {
    Required(t) <= stored.Keys
  }

  /** A game record is accepted once its date, season and URL are set. */
  lemma GameAdmissible(row: Row)
    requires row.table == Games && "game_date" in row.fields && "season" in row.fields && "url" in row.fields
    ensures Admissible(Games, WithDefaults(row))
  {
  }

  /** A pitcher record that leaves `blown_save`, `save`, `loss` or `win` out is stored with
      that flag False. */
  lemma PitcherFlagsDefault(row: Row, flag: string)
    requires row.table == Pitchers && flag in ["blown_save", "save", "loss", "win"] && flag !in row.fields
    ensures flag in WithDefaults(row) && WithDefaults(row)[flag] == BoolV(false)
  {
  }

  /** `Team.from_soup(boxscore_soup, linescore_soup, homeaway)`: `box` is
      `boxscore_soup.find('boxscore')` and `game` is `linescore_soup.find('game')`. The result
      is the keyword arguments of the new `Team`, `None` values included. Reading an
      attribute of a missing element is an `AttributeError`, slicing a missing `game_id` a
      `TypeError`, and a league code too short for the role an `IndexError`. */
  function TeamFromTags(box: Option<Hit>, game: Option<Hit>, role: Role): (r: Result<Draft, Fault>)
    ensures box.None? ==> r == Failure(AttributeOfNone)
    ensures box.Some? && Get(box.value.node, "game_id").None? ==> r == Failure(NoneOperand)
    ensures r.Failure? <==>
      || box.None?
      || Get(box.value.node, "game_id").None?
      || game.None?
      || League(game.value.node, role).Failure?
    ensures r.Success? ==>
      && r.value.Keys == {"team_id", "season", "name", "short_name", "league", "division"}
      && r.value["league"] == Some(TextV(League(game.value.node, role).value))
      && r.value["division"] == Some(TextV(GetOr(game.value.node, role.Prefix() + "_division", "")))
  {
    match box
    case None => Failure(AttributeOfNone)
    case Some(b) =>
      var bs := b.node;
      var teamId := Coerce(AsInt, Get(bs, role.Prefix() + "_id"));
      match Get(bs, "game_id")
      case None => Failure(NoneOperand)
      case Some(gid) =>
        var season := Coerce(AsInt, Some(Slice(gid, 0, 4)));
        var name := Coerce(AsText, Get(bs, role.Prefix() + "_fname"));
        var shortName := Coerce(AsText, Get(bs, role.Prefix() + "_sname"));
        match game
        case None => Failure(AttributeOfNone)
        case Some(g) =>
          match League(g.node, role)
          case Failure(e) => Failure(e)
          case Success(league) =>
            var division := GetOr(g.node, role.Prefix() + "_division", "");
            Success(TeamRow(teamId, season, name, shortName, league, division))
  }

  /** The keyword arguments of a new `Team`. */
  function TeamRow(teamId: Option<Value>, season: Option<Value>, name: Option<Value>,
                   shortName: Option<Value>, league: string, division: string): (d: Draft)
    ensures d.Keys == {"team_id", "season", "name", "short_name", "league", "division"}
    ensures d["team_id"] == teamId && d["season"] == season && d["name"] == name
    ensures d["short_name"] == shortName && d["league"] == Some(TextV(league))
    ensures d["division"] == Some(TextV(division))
  {
    map["team_id" := teamId, "season" := season, "name" := name, "short_name" := shortName,
        "league" := Some(TextV(league)), "division" := Some(TextV(division))]
  }

  /** The team's id and season are read as integers, its names as text, each `None` when the
      attribute is missing or the conversion fails. */
  lemma TeamFromTagsValues(box: Option<Hit>, game: Option<Hit>, role: Role)
    requires TeamFromTags(box, game, role).Success?
    ensures var r := TeamFromTags(box, game, role).value;
      && r["team_id"] == Coerce(AsInt, Get(box.value.node, role.Prefix() + "_id"))
      && r["season"] == Coerce(AsInt, Some(Slice(Get(box.value.node, "game_id").value, 0, 4)))
      && r["name"] == Coerce(AsText, Get(box.value.node, role.Prefix() + "_fname"))
      && r["short_name"] == Coerce(AsText, Get(box.value.node, role.Prefix() + "_sname"))
  {
    var bs := box.value.node;
    assert TeamFromTags(box, game, role).value ==
      TeamRow(Coerce(AsInt, Get(bs, role.Prefix() + "_id")),
              Coerce(AsInt, Some(Slice(Get(bs, "game_id").value, 0, 4))),
              Coerce(AsText, Get(bs, role.Prefix() + "_fname")),
              Coerce(AsText, Get(bs, role.Prefix() + "_sname")),
              League(game.value.node, role).value,
              GetOr(game.value.node, role.Prefix() + "_division", ""));
  }

  /** The two parsed documents, before any `find`. */
  function TeamFromSoup(boxscoreDoc: Node, linescoreDoc: Node, role: Role): Result<Draft, Fault> {
    TeamFromTags(Find(Root(boxscoreDoc), "boxscore"), Find(Root(linescoreDoc), "game"), role)
  }

  /** A boxscore `game_id` that starts with the four-digit year gives that year as the
      season. */
  lemma TeamSeasonOfYear(year: nat, rest: string)
    requires 1 <= year < 10000
    ensures Coerce(AsInt, Some(Slice(ZeroPad(year, 4) + rest, 0, 4))) == Some(IntV(year))
  {
    ZeroPadValue(year, 4);
    assert Slice(ZeroPad(year, 4) + rest, 0, 4) == ZeroPad(year, 4);
    Utils.IntOfZeroPad(year, 4);
  }

  /** A boxscore `game_id` written as `gid_...` gives no season: its first four characters
      are `gid_`, which `try_int` rejects. */
  lemma TeamSeasonOfGid(rest: string)
    ensures Coerce(AsInt, Some(Slice("gid_" + rest, 0, 4))) == None
  {
    assert Slice("gid_" + rest, 0, 4) == "gid_";
  }
}
