/** `gameloader.py`: the `GameLoader` class. It fetches the linescore, the boxscore and the
    innings of one game, parses them into records appended to `to_load` (merging and
    committing each team on the way), and stores the records with `add_all`, falling back
    to a merge of every record when the insert is refused. */
module LegacyLoader {
  import opened Wrappers
  import opened Doc
  import opened Records
  import opened Rules
  import opened Schema
  import opened Store
  import opened Extract
  import opened Loading
  import Utils
  import LegacyUtils
  import opened Seqs

  /** What `fetch_all` downloads and parses: `linescore.xml`, `boxscore.xml`, and every
      listed `inning_N.xml`, their texts joined and parsed as one document. */
  datatype Pages = Pages(linescore: Node, boxscore: Node, innings: Node)

  /** The empty document `innings` holds before `fetch_innings`. */
  const NoInnings: Node := Node(DocumentName, map[], [])

  /** `parse_team(homeaway)` once both documents are there: the team record is merged and
      committed only when it has a `team_id`. */
  function TeamStep(db: Db, season: int, bs: Node, ls: Node, role: Role): (r: (Db, Option<Fault>))
    ensures League(ls, role).Failure? ==> r == (db, Some(IndexOutOfRange))
    ensures League(ls, role).Success? && Utils.TryInt(Get(bs, role.Prefix() + "_id")).None? ==> r == (db, None)
    ensures db.rows.Keys <= r.0.rows.Keys
    ensures r.1.Some? ==> r.1 == Some(IndexOutOfRange) || r.1 == Some(Integrity)
  {
    match TeamDraft(season, bs, ls, role)
    case Failure(e) => (db, Some(e))
    case Success(d) =>
      var team := DropNone(d);
      if "team_id" in team then MergeCommit(db, Row(Teams, team)) else (db, None)
  }

  /** On a session with nothing pending, a team whose id is an integer and whose full and
      short names are present is stored under its id and the season, with every column
      the record sets. */
  lemma TeamStepStores(db: Db, season: int, bs: Node, ls: Node, role: Role)
    requires db.pending == [] && League(ls, role).Success?
    requires Utils.TryInt(Get(bs, role.Prefix() + "_id")).Some?
    requires Get(bs, role.Prefix() + "_fname").Some? && Get(bs, role.Prefix() + "_sname").Some?
    ensures var r := TeamStep(db, season, bs, ls, role);
      var k := RowKey(Teams, [IntV(Utils.TryInt(Get(bs, role.Prefix() + "_id")).value), IntV(season)]);
      var row := AsRow(Teams, TeamDraft(season, bs, ls, role)).value;
      && r.1.None? && r.0.pending == []
      && k in r.0.rows && r.0.rows.Keys == db.rows.Keys + {k}
      && (forall c :: c in row.fields ==> c in r.0.rows[k] && r.0.rows[k][c] == row.fields[c])
      && forall j :: j in db.rows && j != k ==> r.0.rows[j] == db.rows[j]
  {
    var row := AsRow(Teams, TeamDraft(season, bs, ls, role)).value;
    TeamRecordKey(season, bs, ls, role);
    TeamRecordAdmissible(season, bs, ls, role);
    MergeCommitWrites(db, row);
  }

  /** The next `parse_team`, run only when nothing has raised yet. It is written per loader
      because it calls this loader's `TeamStep`, and the newer loader merges unconditionally. */
  function TeamThen(p: Parsed, season: int, bs: Node, ls: Node, role: Role): (q: Parsed)
    ensures q.toLoad == p.toLoad && p.db.rows.Keys <= q.db.rows.Keys
    ensures p.fault.Some? ==> q == p
    ensures p.db.pending == [] && q.fault.None? ==> q.db.pending == []
  {
    if p.fault.Some? then p
    else
      var (db, fault) := TeamStep(p.db, season, bs, ls, role);
      Parsed(db, p.toLoad, fault)
  }

  /** The first half of `parse_all`: `parse_game`, then `parse_team` for each role. */
  function TeamsSpec(ref: GameRef, clock: Clock, db: Db, toLoad: seq<Row>, ls: Node, bs: Node): (p: Parsed)
    ensures |p.toLoad| == |toLoad| + 1 && Extends(p.toLoad, toLoad)
    ensures p.toLoad[|toLoad|] == GameRow(ref, ls, clock, DefaultRule)
    ensures db.rows.Keys <= p.db.rows.Keys
    ensures db.pending == [] && p.fault.None? ==> p.db.pending == []
  {
    var game := Parsed(db, toLoad + [GameRow(ref, ls, clock, DefaultRule)], None);
    TeamThen(TeamThen(game, ref.season, bs, ls, Home), ref.season, bs, ls, Away)
  }

  /** The second half of `parse_all`: the team stats of each role, then the pitchers,
      batters, at-bats, pitches and runners, each loop run only when nothing has raised. */
  function RecordsSpec(p: Parsed, ref: GameRef, ls: Node, box: Hit, innings: Hit, parse: StampParser): Parsed {
    var homeStats := Then(p, StatsResult(ref.id, box, ls, Home));
    var awayStats := Then(homeStats, StatsResult(ref.id, box, ls, Away));
    var pitchers := Then(awayStats, PitcherResults(ref.id, box.node, FindAll(box, "pitcher")));
    var batters := Then(pitchers, BatterResults(ref.id, box.node, FindAll(box, "batter")));
    var atBats := Then(batters, AtBatResults(ref.id, FindAll(innings, "atbat"), parse));
    var pitches := Then(atBats, CounterPitchResults(ref.id, FindAll(innings, "pitch"), parse));
    Then(pitches, RunnerResults(ref.id, FindAll(innings, "runner"), DefaultRule))
  }

  /** Every record `parse_all` builds after the teams, in the order it appends them. */
  function LaterResults(ref: GameRef, ls: Node, box: Hit, innings: Hit, parse: StampParser): seq<Result<Row, Fault>> {
    StatsResult(ref.id, box, ls, Home)
    + StatsResult(ref.id, box, ls, Away)
    + PitcherResults(ref.id, box.node, FindAll(box, "pitcher"))
    + BatterResults(ref.id, box.node, FindAll(box, "batter"))
    + AtBatResults(ref.id, FindAll(innings, "atbat"), parse)
    + CounterPitchResults(ref.id, FindAll(innings, "pitch"), parse)
    + RunnerResults(ref.id, FindAll(innings, "runner"), DefaultRule)
  }

  /** The loops after the teams leave what one loop over all their elements leaves: the
      records of a prefix of them, up to the first element that raised. */
  lemma RecordsGather(p: Parsed, ref: GameRef, ls: Node, box: Hit, innings: Hit, parse: StampParser)
    ensures RecordsSpec(p, ref, ls, box, innings, parse) == Then(p, LaterResults(ref, ls, box, innings, parse))
  {
    var s1 := StatsResult(ref.id, box, ls, Home);
    var s2 := StatsResult(ref.id, box, ls, Away);
    var s3 := PitcherResults(ref.id, box.node, FindAll(box, "pitcher"));
    var s4 := BatterResults(ref.id, box.node, FindAll(box, "batter"));
    var s5 := AtBatResults(ref.id, FindAll(innings, "atbat"), parse);
    var s6 := CounterPitchResults(ref.id, FindAll(innings, "pitch"), parse);
    var s7 := RunnerResults(ref.id, FindAll(innings, "runner"), DefaultRule);
    ThenThen(p, s1, s2);
    ThenThen(p, s1 + s2, s3);
    ThenThen(p, s1 + s2 + s3, s4);
    ThenThen(p, s1 + s2 + s3 + s4, s5);
    ThenThen(p, s1 + s2 + s3 + s4 + s5, s6);
    ThenThen(p, s1 + s2 + s3 + s4 + s5 + s6, s7);
  }

  /** `parse_all` on the fetched documents: nothing when the linescore or the boxscore is
      missing; otherwise the game record comes first, and the parsers stop at the first
      exception. */
  function ParseSpec(ref: GameRef, clock: Clock, parse: StampParser, db: Db, toLoad: seq<Row>,
                     linescore: Option<Hit>, boxscore: Option<Hit>, innings: Hit): (p: Parsed)
    ensures linescore.None? || boxscore.None? ==> p == Parsed(db, toLoad, None)
    ensures linescore.Some? && boxscore.Some? ==>
      |p.toLoad| > |toLoad| && p.toLoad[|toLoad|] == GameRow(ref, linescore.value.node, clock, DefaultRule)
    ensures Extends(p.toLoad, toLoad)
    ensures db.rows.Keys <= p.db.rows.Keys
    ensures db.pending == [] && p.fault.None? ==> p.db.pending == []
  {
    if linescore.None? || boxscore.None? then Parsed(db, toLoad, None)
    else
      Then(TeamsSpec(ref, clock, db, toLoad, linescore.value.node, boxscore.value.node),
           LaterResults(ref, linescore.value.node, boxscore.value, innings, parse))
  }

  /** `parse_all` after `fetch_all` of the pages. */
  function ParsePages(ref: GameRef, clock: Clock, parse: StampParser, db: Db, toLoad: seq<Row>, pages: Pages): Parsed {
    ParseSpec(ref, clock, parse, db, toLoad,
              Find(Root(pages.linescore), "game"), Find(Root(pages.boxscore), "boxscore"), Root(pages.innings))
  }

  /** `load(skip_if_final)`: a final game is skipped and the session closed; otherwise
      the pages are fetched and parsed, and the records stored. */
  function LoadSpec(ref: GameRef, clock: Clock, parse: StampParser, db: Db, closed: bool, toLoad: seq<Row>,
                    skip: bool, pages: Pages): (l: Loaded)
    ensures l.outcome == Skipped <==> skip && FinalExists(db.rows, ref.id)
    ensures l.outcome == Skipped ==> l == Loaded(Db(db.rows, []), true, toLoad, Skipped)
    ensures db.rows.Keys <= l.db.rows.Keys
  {
    if skip && FinalExists(db.rows, ref.id) then Loaded(Db(db.rows, []), true, toLoad, Skipped)
    else Finish(ParsePages(ref, clock, parse, db, toLoad, pages), closed)
  }

  /** On a fresh session, a load that ends with `add_all` stored every record of `to_load`
      as a new row with the column defaults, on top of the rows the team merges left. */
  lemma LoadAddedStores(ref: GameRef, clock: Clock, parse: StampParser, db: Db, closed: bool, toLoad: seq<Row>,
                        skip: bool, pages: Pages)
    requires db.pending == []
    requires LoadSpec(ref, clock, parse, db, closed, toLoad, skip, pages).outcome == Added
    ensures var l := LoadSpec(ref, clock, parse, db, closed, toLoad, skip, pages);
      var teams := ParsePages(ref, clock, parse, db, toLoad, pages).db.rows;
      && Insertable(teams, l.toLoad)
      && l.db.rows.Keys == teams.Keys + KeySet(l.toLoad)
      && (forall k :: k in teams ==> l.db.rows[k] == teams[k])
      && forall i :: 0 <= i < |l.toLoad| ==> l.db.rows[KeyOf(l.toLoad[i]).value] == WithDefaults(l.toLoad[i])
  {
    FinishAdded(ParsePages(ref, clock, parse, db, toLoad, pages), closed);
  }

  /** A load that falls back to merging leaves every record of `to_load` stored under its
      key, the last record with each key written in full, and the other rows as they were. */
  lemma LoadUpsertedStores(ref: GameRef, clock: Clock, parse: StampParser, db: Db, closed: bool, toLoad: seq<Row>,
                           skip: bool, pages: Pages)
    requires LoadSpec(ref, clock, parse, db, closed, toLoad, skip, pages).outcome == Upserted
    ensures var l := LoadSpec(ref, clock, parse, db, closed, toLoad, skip, pages);
      var p := ParsePages(ref, clock, parse, db, toLoad, pages);
      && Flush(p.db.rows, p.db.pending + Inserts(l.toLoad)).Failure?
      && Merged(p.db.rows, l.toLoad, l.db.rows)
  {
    FinishUpserted(ParsePages(ref, clock, parse, db, toLoad, pages), closed);
  }

  /** A game whose linescore has no `game` element or whose boxscore has no `boxscore`
      element adds nothing: on a fresh loader the load stores nothing and closes. */
  lemma LoadWithoutGame(ref: GameRef, clock: Clock, parse: StampParser, db: Db, closed: bool,
                        skip: bool, pages: Pages)
    requires db.pending == []
    requires Find(Root(pages.linescore), "game").None? || Find(Root(pages.boxscore), "boxscore").None?
    requires !(skip && FinalExists(db.rows, ref.id))
    ensures LoadSpec(ref, clock, parse, db, closed, [], skip, pages) == Loaded(Db(db.rows, []), true, [], Added)
  {
    assert db.pending + Inserts([]) == [];
  }

  /** A game stored with `add_all` whose linescore says it is final is skipped by the next
      load that asks to skip final games. */
  lemma LoadedFinalIsSkipped(ref: GameRef, clock: Clock, parse: StampParser, db: Db, closed: bool,
                             pages: Pages, next: Pages)
    requires db.pending == []
    requires Find(Root(pages.linescore), "game").Some? && Find(Root(pages.boxscore), "boxscore").Some?
    requires Get(Find(Root(pages.linescore), "game").value.node, "status") == Some("Final")
    requires LoadSpec(ref, clock, parse, db, closed, [], false, pages).outcome == Added
    ensures var l := LoadSpec(ref, clock, parse, db, closed, [], false, pages);
      LoadSpec(ref, clock, parse, l.db, l.closed, l.toLoad, true, next).outcome == Skipped
  {
    var p := ParsePages(ref, clock, parse, db, [], pages);
    var ls := Find(Root(pages.linescore), "game").value.node;
    GameRowKey(ref, ls, clock, DefaultRule);
    GameRowStatus(ref, ls, clock, DefaultRule);
    FinishAddedFinal(p, closed, ref.id);
  }

  /** The loader: the values its constructor derives from the game id, the session, the
      fetched documents and the records waiting to be stored. The clock and the timestamp
      parser stand for `strptime` and `dateutil` with the New York time zone. */
  class GameLoader {
    const ref: GameRef
    const session: Session
    const clock: Clock
    const parse: StampParser
    /** `linescore.xml`'s `game` element. */
    var linescore: Option<Hit>
    /** `boxscore.xml`'s `boxscore` element. */
    var boxscore: Option<Hit>
    /** The joined inning documents. */
    var innings: Hit
    var toLoad: seq<Row>

    /** The body of `GameLoader(game_id, sessionmaker)` once `gid_to_date` has accepted the
        id: `ref` holds what was derived from it. */
    constructor(ref: GameRef, db: Rows, clock: Clock, parse: StampParser)
      ensures this.ref == ref
      ensures fresh(session) && session.rows == db && session.pending == [] && !session.closed
      ensures linescore.None? && boxscore.None? && innings == Root(NoInnings) && toLoad == []
      ensures this.clock == clock && this.parse == parse
    {
      this.ref := ref;
      session := new Session(db);
      this.clock := clock;
      this.parse := parse;
      linescore := None;
      boxscore := None;
      innings := Root(NoInnings);
      toLoad := [];
    }

    /** `fetch_all`: the three documents, parsed. */
    method FetchAll(pages: Pages)
      modifies this
      ensures linescore == Find(Root(pages.linescore), "game")
      ensures boxscore == Find(Root(pages.boxscore), "boxscore")
      ensures innings == Root(pages.innings)
      ensures toLoad == old(toLoad)
    {
      linescore := Find(Root(pages.linescore), "game");
      boxscore := Find(Root(pages.boxscore), "boxscore");
      innings := Root(pages.innings);
    }

    /** `parse_game`: the game record is appended; reading a missing linescore raises. */
    method ParseGame() returns (fault: Option<Fault>)
      modifies this
      ensures linescore.None? ==> fault == Some(AttributeOfNone) && toLoad == old(toLoad)
      ensures linescore.Some? ==> fault.None? && toLoad == old(toLoad) + [GameRow(ref, linescore.value.node, clock, DefaultRule)]
      ensures linescore == old(linescore) && boxscore == old(boxscore) && innings == old(innings)
    {
      if linescore.None? {
        return Some(AttributeOfNone);
      }
      toLoad := toLoad + [GameRow(ref, linescore.value.node, clock, DefaultRule)];
      fault := None;
    }

    /** `parse_team(homeaway)`: nothing without a boxscore; the team is merged and committed. */
    method ParseTeam(role: Role) returns (fault: Option<Fault>)
      modifies session
      ensures boxscore.None? ==>
        fault.None? && session.rows == old(session.rows) && session.pending == old(session.pending)
      ensures boxscore.Some? && linescore.None? ==>
        fault == Some(AttributeOfNone) && session.rows == old(session.rows) && session.pending == old(session.pending)
      ensures boxscore.Some? && linescore.Some? ==>
        (Db(session.rows, session.pending), fault)
          == TeamStep(Db(old(session.rows), old(session.pending)), ref.season, boxscore.value.node, linescore.value.node, role)
      ensures session.closed == old(session.closed)
    {
      if boxscore.None? {
        return None;
      }
      if linescore.None? {
        return Some(AttributeOfNone);
      }
      match TeamDraft(ref.season, boxscore.value.node, linescore.value.node, role)
      case Failure(e) =>
        fault := Some(e);
      case Success(d) =>
        var team := DropNone(d);
        fault := None;
        if "team_id" in team {
          session.Merge(Row(Teams, team));
          fault := session.Commit();
        }
    }

    /** A `parse_*` loop appending to `to_load`. */
    method AppendAll(rs: seq<Result<Row, Fault>>) returns (fault: Option<Fault>)
      modifies this
      ensures toLoad == old(toLoad) + Gather(rs).rows && fault == Gather(rs).fault
      ensures linescore == old(linescore) && boxscore == old(boxscore) && innings == old(innings)
    {
      toLoad, fault := Collect(toLoad, rs);
    }

    /** `parse_team_stats(homeaway)`: reading a missing document raises. */
    method ParseTeamStats(role: Role) returns (fault: Option<Fault>)
      modifies this
      ensures boxscore.None? || linescore.None? ==> fault == Some(AttributeOfNone) && toLoad == old(toLoad)
      ensures boxscore.Some? && linescore.Some? ==>
        var g := Gather(StatsResult(ref.id, boxscore.value, linescore.value.node, role));
        toLoad == old(toLoad) + g.rows && fault == g.fault
      ensures linescore == old(linescore) && boxscore == old(boxscore) && innings == old(innings)
    {
      if boxscore.None? || linescore.None? {
        return Some(AttributeOfNone);
      }
      fault := AppendAll(StatsResult(ref.id, boxscore.value, linescore.value.node, role));
    }

    /** `parse_pitchers`: one record per `pitcher` element of the boxscore. */
    method ParsePitchers() returns (fault: Option<Fault>)
      modifies this
      ensures boxscore.None? ==> fault == Some(AttributeOfNone) && toLoad == old(toLoad)
      ensures boxscore.Some? ==>
        var g := Gather(PitcherResults(ref.id, boxscore.value.node, FindAll(boxscore.value, "pitcher")));
        toLoad == old(toLoad) + g.rows && fault == g.fault
      ensures linescore == old(linescore) && boxscore == old(boxscore) && innings == old(innings)
    {
      if boxscore.None? {
        return Some(AttributeOfNone);
      }
      fault := AppendAll(PitcherResults(ref.id, boxscore.value.node, FindAll(boxscore.value, "pitcher")));
    }

    /** `parse_batters`: one record per `batter` element of the boxscore. */
    method ParseBatters() returns (fault: Option<Fault>)
      modifies this
      ensures boxscore.None? ==> fault == Some(AttributeOfNone) && toLoad == old(toLoad)
      ensures boxscore.Some? ==>
        var g := Gather(BatterResults(ref.id, boxscore.value.node, FindAll(boxscore.value, "batter")));
        toLoad == old(toLoad) + g.rows && fault == g.fault
      ensures linescore == old(linescore) && boxscore == old(boxscore) && innings == old(innings)
    {
      if boxscore.None? {
        return Some(AttributeOfNone);
      }
      fault := AppendAll(BatterResults(ref.id, boxscore.value.node, FindAll(boxscore.value, "batter")));
    }

    /** `parse_atbats`: one record per `atbat` element of the innings. */
    method ParseAtBats() returns (fault: Option<Fault>)
      modifies this
      ensures var g := Gather(AtBatResults(ref.id, FindAll(innings, "atbat"), parse));
        toLoad == old(toLoad) + g.rows && fault == g.fault
      ensures linescore == old(linescore) && boxscore == old(boxscore) && innings == old(innings)
    {
      fault := AppendAll(AtBatResults(ref.id, FindAll(innings, "atbat"), parse));
    }

    /** `parse_pitches`: one record per `pitch` element of the innings. The counter's
        `next` is evaluated for every pitch, as the default of `get`, so the `i`-th pitch
        is handed `i`, which `CounterPitchResults` states. */
    method ParsePitches() returns (fault: Option<Fault>)
      modifies this
      ensures var g := Gather(CounterPitchResults(ref.id, FindAll(innings, "pitch"), parse));
        toLoad == old(toLoad) + g.rows && fault == g.fault
      ensures linescore == old(linescore) && boxscore == old(boxscore) && innings == old(innings)
    {
      fault := AppendAll(CounterPitchResults(ref.id, FindAll(innings, "pitch"), parse));
    }

    /** `parse_runners`: one record per `runner` element of the innings. */
    method ParseRunners() returns (fault: Option<Fault>)
      modifies this
      ensures var g := Gather(RunnerResults(ref.id, FindAll(innings, "runner"), DefaultRule));
        toLoad == old(toLoad) + g.rows && fault == g.fault
      ensures linescore == old(linescore) && boxscore == old(boxscore) && innings == old(innings)
    {
      fault := AppendAll(RunnerResults(ref.id, FindAll(innings, "runner"), DefaultRule));
    }

    /** The first half of `parse_all`, with both documents there. */
    method ParseTeams() returns (fault: Option<Fault>)
      requires linescore.Some? && boxscore.Some?
      modifies this, session
      ensures linescore == old(linescore) && boxscore == old(boxscore) && innings == old(innings)
      ensures Parsed(Db(session.rows, session.pending), toLoad, fault)
        == TeamsSpec(ref, clock, Db(old(session.rows), old(session.pending)), old(toLoad),
                     linescore.value.node, boxscore.value.node)
      ensures session.closed == old(session.closed)
    {
      fault := ParseGame();
      fault := ParseTeam(Home);
      if fault.Some? {
        return;
      }
      fault := ParseTeam(Away);
    }

    /** The second half of `parse_all`, with both documents there. */
    method ParseRecords() returns (fault: Option<Fault>)
      requires linescore.Some? && boxscore.Some?
      modifies this
      ensures linescore == old(linescore) && boxscore == old(boxscore) && innings == old(innings)
      ensures Parsed(Db(session.rows, session.pending), toLoad, fault)
        == RecordsSpec(Parsed(Db(session.rows, session.pending), old(toLoad), None),
                       ref, linescore.value.node, boxscore.value, innings, parse)
    {
      ghost var p0 := Parsed(Db(session.rows, session.pending), toLoad, None);
      fault := ParseTeamStats(Home);
      ghost var p1 := Then(p0, StatsResult(ref.id, boxscore.value, linescore.value.node, Home));
      assert Parsed(p0.db, toLoad, fault) == p1;
      if fault.Some? {
        return;
      }
      fault := ParseTeamStats(Away);
      ghost var p2 := Then(p1, StatsResult(ref.id, boxscore.value, linescore.value.node, Away));
      assert Parsed(p0.db, toLoad, fault) == p2;
      if fault.Some? {
        return;
      }
      fault := ParsePitchers();
      ghost var p3 := Then(p2, PitcherResults(ref.id, boxscore.value.node, FindAll(boxscore.value, "pitcher")));
      assert Parsed(p0.db, toLoad, fault) == p3;
      if fault.Some? {
        return;
      }
      fault := ParseBatters();
      ghost var p4 := Then(p3, BatterResults(ref.id, boxscore.value.node, FindAll(boxscore.value, "batter")));
      assert Parsed(p0.db, toLoad, fault) == p4;
      if fault.Some? {
        return;
      }
      fault := ParseAtBats();
      ghost var p5 := Then(p4, AtBatResults(ref.id, FindAll(innings, "atbat"), parse));
      assert Parsed(p0.db, toLoad, fault) == p5;
      if fault.Some? {
        return;
      }
      fault := ParsePitches();
      ghost var p6 := Then(p5, CounterPitchResults(ref.id, FindAll(innings, "pitch"), parse));
      assert Parsed(p0.db, toLoad, fault) == p6;
      if fault.Some? {
        return;
      }
      fault := ParseRunners();
    }

    /** The parsers of `parse_all` in turn, once both documents are there; an exception
        stops them. */
    method ParseEach() returns (fault: Option<Fault>)
      requires linescore.Some? && boxscore.Some?
      modifies this, session
      ensures linescore == old(linescore) && boxscore == old(boxscore) && innings == old(innings)
      ensures session.closed == old(session.closed)
      ensures Parsed(Db(session.rows, session.pending), toLoad, fault)
        == Then(TeamsSpec(ref, clock, Db(old(session.rows), old(session.pending)), old(toLoad),
                          linescore.value.node, boxscore.value.node),
                LaterResults(ref, linescore.value.node, boxscore.value, innings, parse))
    {
      fault := ParseTeams();
      if fault.Some? {
        return;
      }
      ghost var teams := Parsed(Db(session.rows, session.pending), toLoad, None);
      fault := ParseRecords();
      RecordsGather(teams, ref, linescore.value.node, boxscore.value, innings, parse);
    }

    /** `parse_all`: nothing when a document is missing, every parser in turn otherwise. */
    method ParseAll() returns (fault: Option<Fault>)
      modifies this, session
      ensures Parsed(Db(session.rows, session.pending), toLoad, fault)
        == ParseSpec(ref, clock, parse, Db(old(session.rows), old(session.pending)), old(toLoad),
                     linescore, boxscore, innings)
      ensures linescore == old(linescore) && boxscore == old(boxscore) && innings == old(innings)
      ensures session.closed == old(session.closed)
    {
      if linescore.None? || boxscore.None? {
        return None;
      }
      fault := ParseEach();
    }

    /** `load(skip_if_final)`. */
    method Load(skip: bool, pages: Pages) returns (outcome: Outcome)
      modifies this, session
      ensures Loaded(Db(session.rows, session.pending), session.closed, toLoad, outcome)
        == LoadSpec(ref, clock, parse, Db(old(session.rows), old(session.pending)), old(session.closed),
                    old(toLoad), skip, pages)
      ensures outcome == Skipped ==> linescore == old(linescore) && boxscore == old(boxscore) && innings == old(innings)
      ensures outcome != Skipped ==>
        && linescore == Find(Root(pages.linescore), "game")
        && boxscore == Find(Root(pages.boxscore), "boxscore")
        && innings == Root(pages.innings)
    {
      if skip && session.Loaded(ref.id) {
        session.Close();
        return Skipped;
      }
      FetchAll(pages);
      var fault := ParseAll();
      if fault.Some? {
        return Failed(fault.value);
      }
      outcome := StoreAll(session, toLoad);
      if outcome.Failed? {
        return;
      }
      session.Close();
    }
  }

  /** `GameLoader(game_id, sessionmaker)`: the `ValueError` of `gid_to_date` for an id it
      rejects, otherwise a fresh loader over a fresh session. */
  method NewGameLoader(gameId: string, db: Rows, clock: Clock, parse: StampParser) returns (r: Result<GameLoader, Fault>)
    ensures r.Failure? <==> Utils.GidToDate(gameId).None?
    ensures r.Failure? ==> r.error == BadGameId
    ensures r.Success? ==>
      && fresh(r.value) && fresh(r.value.session)
      && r.value.ref == RefOf(gameId) && r.value.ref.url == LegacyUtils.GidToUrl(gameId).value
      && r.value.session.rows == db && r.value.session.pending == [] && r.value.toLoad == []
  {
    if Utils.GidToDate(gameId).None? {
      return Failure(BadGameId);
    }
    LegacyUtils.GidToUrlAgrees(gameId);
    var loader := new GameLoader(RefOf(gameId), db, clock, parse);
    return Success(loader);
  }
}
