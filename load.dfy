/** `breakingball/load.py`: the newer `GameLoader`. It differs from `gameloader.py` in
    four ways: the inning pages are parsed one by one and their `atbat`, `pitch` and
    `runner` elements flattened into three lists; every team is merged, with or without an
    id; a pitch without an integer id keeps no `pitch_id`; and a load skipped as final
    leaves the session open. */
module Loader {
  import opened Wrappers
  import opened Doc
  import opened Records
  import opened Rules
  import opened Schema
  import opened Store
  import opened Extract
  import opened Loading
  import opened Seqs
  import Utils

  /** What `fetch_all` downloads and parses: `linescore.xml`, `boxscore.xml`, and every
      listed inning page, each parsed on its own. */
  datatype Pages = Pages(linescore: Node, boxscore: Node, innings: seq<Node>)

  // ---------------------------------------------------------------- fetch_innings

  /** `[BeautifulSoup(x.content).find('inning') for x in innings_r]`. */
  function InningsOf(pages: seq<Node>): (r: seq<Option<Hit>>)
    ensures |r| == |pages| && forall i :: 0 <= i < |pages| ==> r[i] == Find(Root(pages[i]), "inning")
  {
    seq(|pages|, i requires 0 <= i < |pages| => Find(Root(pages[i]), "inning"))
  }

  /** The number of pages before the first one without an `inning` element. */
  function FirstMissing(found: seq<Option<Hit>>): (k: nat)
    ensures k <= |found|
    ensures forall j :: 0 <= j < k ==> found[j].Some?
    ensures k < |found| ==> found[k].None?
  {
    if found == [] || found[0].None? then 0
    else
      var k := FirstMissing(found[1..]);
      assert forall j :: 1 <= j < k + 1 ==> found[j] == found[1..][j - 1];
      k + 1
  }

  /** The innings of pages that all have one. */
  function Values(found: seq<Option<Hit>>): (r: seq<Hit>)
    requires forall i :: 0 <= i < |found| ==> found[i].Some?
    ensures |r| == |found| && forall i :: 0 <= i < |found| ==> r[i] == found[i].value
  {
    seq(|found|, i requires 0 <= i < |found| => found[i].value)
  }

  /** The elements called `name` of each inning in turn, each inning's in document order:
      what the nested loop appends to one of its lists. */
  function Flatten(innings: seq<Hit>, name: string): seq<Hit>
    decreases |innings|
  {
    if innings == [] then []
    else Flatten(innings[..|innings| - 1], name) + FindAll(innings[|innings| - 1], name)
  }

  /** Flattening two runs of innings one after the other is flattening both. */
  lemma {:induction false} FlattenAppend(a: seq<Hit>, b: seq<Hit>, name: string)
    ensures Flatten(a + b, name) == Flatten(a, name) + Flatten(b, name)
    decreases |b|
  {
    if b != [] {
      var front := b[..|b| - 1];
      assert (a + b)[..|a + b| - 1] == a + front;
      assert (a + b)[|a + b| - 1] == b[|b| - 1];
      FlattenAppend(a, front, name);
      AppendAssoc(Flatten(a, name), Flatten(front, name), FindAll(b[|b| - 1], name));
    } else {
      assert a + b == a;
    }
  }

  /** The sum of a sequence of counts. */
  function Sum(counts: seq<nat>): nat
    decreases |counts|
  {
    if counts == [] then 0 else Sum(counts[..|counts| - 1]) + counts[|counts| - 1]
  }

  /** How many elements called `name` each inning has. */
  function Counts(innings: seq<Hit>, name: string): (r: seq<nat>)
    ensures |r| == |innings| && forall i :: 0 <= i < |innings| ==> r[i] == |FindAll(innings[i], name)|
  {
    seq(|innings|, i requires 0 <= i < |innings| => |FindAll(innings[i], name)|)
  }

  /** A flattened list is as long as the innings' own lists together. */
  lemma {:induction false} FlattenLength(innings: seq<Hit>, name: string)
    ensures |Flatten(innings, name)| == Sum(Counts(innings, name))
    decreases |innings|
  {
    if innings != [] {
      var front := innings[..|innings| - 1];
      FlattenLength(front, name);
      assert Counts(innings, name)[..|innings| - 1] == Counts(front, name);
    }
  }

  /** The `j`-th element called `name` of inning `i` sits in the flattened list right after
      those of the innings before it: the list keeps document order. */
  lemma FlattenAt(innings: seq<Hit>, name: string, i: nat, j: nat)
    requires i < |innings| && j < |FindAll(innings[i], name)|
    ensures |Flatten(innings[..i], name)| + j < |Flatten(innings, name)|
    ensures Flatten(innings, name)[|Flatten(innings[..i], name)| + j] == FindAll(innings[i], name)[j]
  {
    var before := innings[..i];
    var after := innings[i + 1..];
    assert innings == before + [innings[i]] + after;
    FlattenAppend(before + [innings[i]], after, name);
    FlattenAppend(before, [innings[i]], name);
    assert Flatten([innings[i]], name) == FindAll(innings[i], name) by {
      assert [innings[i]][..0] == [];
    }
  }

  /** The first page without an inning is the one the loop stops at. */
  lemma FirstMissingIs(found: seq<Option<Hit>>, i: nat)
    requires i <= |found| && forall j :: 0 <= j < i ==> found[j].Some?
    requires i < |found| ==> found[i].None?
    ensures FirstMissing(found) == i
  {
  }

  /** One more inning adds its own elements at the end of the flattened list. */
  lemma FlattenSnoc(found: seq<Option<Hit>>, i: nat, name: string)
    requires i < |found| && forall j :: 0 <= j <= i ==> found[j].Some?
    ensures Flatten(Values(found[..i + 1]), name) == Flatten(Values(found[..i]), name) + FindAll(found[i].value, name)
  {
    var vs := Values(found[..i + 1]);
    assert vs[..|vs| - 1] == Values(found[..i]);
  }

  /** The three lists `fetch_innings` fills. */
  datatype Flat = Flat(atbats: seq<Hit>, pitches: seq<Hit>, runners: seq<Hit>)

  /** What the nested loop appends for innings that are all there: each inning's at-bats,
      pitches and runners at the end of the lists so far. */
  function FlattenAll(innings: seq<Hit>): Flat {
    Flat(Flatten(innings, "atbat"), Flatten(innings, "pitch"), Flatten(innings, "runner"))
  }

  /** One more inning adds its at-bats, pitches and runners at the end of the lists. */
  lemma FlattenAllSnoc(found: seq<Option<Hit>>, i: nat)
    requires i < |found| && forall j :: 0 <= j <= i ==> found[j].Some?
    ensures var before := FlattenAll(Values(found[..i]));
      var inning := found[i].value;
      FlattenAll(Values(found[..i + 1]))
        == Flat(before.atbats + FindAll(inning, "atbat"), before.pitches + FindAll(inning, "pitch"),
                before.runners + FindAll(inning, "runner"))
  {
    FlattenSnoc(found, i, "atbat");
    FlattenSnoc(found, i, "pitch");
    FlattenSnoc(found, i, "runner");
  }

  /** `for x in hs: acc.append(x)`. */
  method AppendEach(acc: seq<Hit>, hs: seq<Hit>) returns (r: seq<Hit>)
    ensures r == acc + hs
  {
    r := acc;
    var j := 0;
    while j < |hs|
      invariant 0 <= j <= |hs|
      invariant r == acc + hs[..j]
    {
      AppendAssoc(acc, hs[..j], [hs[j]]);
      assert hs[..j + 1] == hs[..j] + [hs[j]];
      r := r + [hs[j]];
      j := j + 1;
    }
    TakeAll(hs);
  }

  // ---------------------------------------------------------------- parse_all

  /** `parse_team(homeaway)` once both documents are there: the team record is merged and
      committed whatever it holds, so a team without an id raises at the commit. */
  function TeamStep(db: Db, season: int, bs: Node, ls: Node, role: Role): (r: (Db, Option<Fault>))
    ensures League(ls, role).Failure? ==> r == (db, Some(IndexOutOfRange))
    ensures db.rows.Keys <= r.0.rows.Keys
    ensures r.1.Some? ==> r.1 == Some(IndexOutOfRange) || r.1 == Some(Integrity)
  {
    match TeamDraft(season, bs, ls, role)
    case Failure(e) => (db, Some(e))
    case Success(d) => MergeCommit(db, Row(Teams, DropNone(d)))
  }

  /** A boxscore whose `<role>_id` is not an integer makes the merge of the team raise an
      IntegrityError: its key is NULL. */
  lemma TeamWithoutIdRaises(db: Db, season: int, bs: Node, ls: Node, role: Role)
    requires League(ls, role).Success? && Utils.TryInt(Get(bs, role.Prefix() + "_id")).None?
    ensures TeamStep(db, season, bs, ls, role).1 == Some(Integrity)
  {
    TeamRecordKey(season, bs, ls, role);
    MergeCommitNullKey(db, AsRow(Teams, TeamDraft(season, bs, ls, role)).value);
  }

  /** The next `parse_team`, run only when nothing has raised yet. It is written per loader
      because it calls this loader's `TeamStep`, and the older loader merges only for an integer id. */
  function TeamThen(p: Parsed, season: int, bs: Node, ls: Node, role: Role): (q: Parsed)
    ensures q.toLoad == p.toLoad && p.db.rows.Keys <= q.db.rows.Keys
    ensures p.fault.Some? ==> q == p
    ensures p.db.pending == [] && q.fault.None? ==> q.db.pending == []
  {
    if p.fault.Some? then p
    else
      var (db, fault) := TeamStep(p.db, season, bs, ls, role);
      Parsed(db, p.toLoad, fault)
  }

  /** The first half of `parse_all`: `parse_game`, then `parse_team` for each role. */
  function TeamsSpec(ref: GameRef, clock: Clock, db: Db, toLoad: seq<Row>, ls: Node, bs: Node): (p: Parsed)
    ensures |p.toLoad| == |toLoad| + 1 && Extends(p.toLoad, toLoad)
    ensures p.toLoad[|toLoad|] == GameRow(ref, ls, clock, PresentRule)
    ensures db.rows.Keys <= p.db.rows.Keys
    ensures db.pending == [] && p.fault.None? ==> p.db.pending == []
  {
    var game := Parsed(db, toLoad + [GameRow(ref, ls, clock, PresentRule)], None);
    TeamThen(TeamThen(game, ref.season, bs, ls, Home), ref.season, bs, ls, Away)
  }

  /** The second half of `parse_all`, loop by loop: the team stats of each role, the
      pitchers and batters of the boxscore, then the flattened at-bats, pitches and
      runners, each loop run only when nothing has raised. */
  function RecordsSpec(p: Parsed, ref: GameRef, ls: Node, box: Hit, parse: StampParser,
                       flat: Flat): Parsed {
    var homeStats := Then(p, StatsResult(ref.id, box, ls, Home));
    var awayStats := Then(homeStats, StatsResult(ref.id, box, ls, Away));
    var pitchers := Then(awayStats, PitcherResults(ref.id, box.node, FindAll(box, "pitcher")));
    var batters := Then(pitchers, BatterResults(ref.id, box.node, FindAll(box, "batter")));
    var atBats := Then(batters, AtBatResults(ref.id, flat.atbats, parse));
    var pitchRows := Then(atBats, TryIntPitchResults(ref.id, flat.pitches, parse));
    Then(pitchRows, RunnerResults(ref.id, flat.runners, PresentRule))
  }

  /** Every record `parse_all` builds after the teams, in the order it appends them. */
  function LaterResults(ref: GameRef, ls: Node, box: Hit, parse: StampParser,
                        flat: Flat): seq<Result<Row, Fault>> {
    StatsResult(ref.id, box, ls, Home)
    + StatsResult(ref.id, box, ls, Away)
    + PitcherResults(ref.id, box.node, FindAll(box, "pitcher"))
    + BatterResults(ref.id, box.node, FindAll(box, "batter"))
    + AtBatResults(ref.id, flat.atbats, parse)
    + TryIntPitchResults(ref.id, flat.pitches, parse)
    + RunnerResults(ref.id, flat.runners, PresentRule)
  }

  /** The loops after the teams leave what one loop over all their elements leaves: the
      records of a prefix of them, up to the first element that raised. */
  lemma RecordsGather(p: Parsed, ref: GameRef, ls: Node, box: Hit, parse: StampParser,
                      flat: Flat)
    ensures RecordsSpec(p, ref, ls, box, parse, flat)
         == Then(p, LaterResults(ref, ls, box, parse, flat))
  {
    var s1 := StatsResult(ref.id, box, ls, Home);
    var s2 := StatsResult(ref.id, box, ls, Away);
    var s3 := PitcherResults(ref.id, box.node, FindAll(box, "pitcher"));
    var s4 := BatterResults(ref.id, box.node, FindAll(box, "batter"));
    var s5 := AtBatResults(ref.id, flat.atbats, parse);
    var s6 := TryIntPitchResults(ref.id, flat.pitches, parse);
    var s7 := RunnerResults(ref.id, flat.runners, PresentRule);
    ThenThen(p, s1, s2);
    ThenThen(p, s1 + s2, s3);
    ThenThen(p, s1 + s2 + s3, s4);
    ThenThen(p, s1 + s2 + s3 + s4, s5);
    ThenThen(p, s1 + s2 + s3 + s4 + s5, s6);
    ThenThen(p, s1 + s2 + s3 + s4 + s5 + s6, s7);
  }

  /** `parse_all` on the fetched documents and the flattened inning lists: nothing when the
      linescore or the boxscore is missing; otherwise the game record comes first, and the
      parsers stop at the first exception. */
  function ParseSpec(ref: GameRef, clock: Clock, parse: StampParser, db: Db, toLoad: seq<Row>,
                     linescore: Option<Hit>, boxscore: Option<Hit>,
                     flat: Flat): (p: Parsed)
    ensures linescore.None? || boxscore.None? ==> p == Parsed(db, toLoad, None)
    ensures linescore.Some? && boxscore.Some? ==>
      |p.toLoad| > |toLoad| && p.toLoad[|toLoad|] == GameRow(ref, linescore.value.node, clock, PresentRule)
    ensures Extends(p.toLoad, toLoad)
    ensures db.rows.Keys <= p.db.rows.Keys
    ensures db.pending == [] && p.fault.None? ==> p.db.pending == []
  {
    if linescore.None? || boxscore.None? then Parsed(db, toLoad, None)
    else
      Then(TeamsSpec(ref, clock, db, toLoad, linescore.value.node, boxscore.value.node),
           LaterResults(ref, linescore.value.node, boxscore.value, parse, flat))
  }

  // ---------------------------------------------------------------- load

  /** `fetch_all` then `parse_all`: a page without an `inning` element raises in
      `fetch_innings`, before anything is parsed. */
  function FetchParse(ref: GameRef, clock: Clock, parse: StampParser, db: Db, toLoad: seq<Row>, pages: Pages): (p: Parsed)
    ensures var found := InningsOf(pages.innings);
      FirstMissing(found) < |found| ==> p == Parsed(db, toLoad, Some(AttributeOfNone))
    ensures Extends(p.toLoad, toLoad) && db.rows.Keys <= p.db.rows.Keys
  {
    var found := InningsOf(pages.innings);
    if FirstMissing(found) < |found| then Parsed(db, toLoad, Some(AttributeOfNone))
    else
      ParseSpec(ref, clock, parse, db, toLoad,
                Find(Root(pages.linescore), "game"), Find(Root(pages.boxscore), "boxscore"),
                FlattenAll(Values(found)))
  }

  /** `load(skip_if_final)`: a final game is skipped with the session left as it was,
      open; otherwise the pages are fetched and parsed, and the records stored. */
  function LoadSpec(ref: GameRef, clock: Clock, parse: StampParser, db: Db, closed: bool, toLoad: seq<Row>,
                    skip: bool, pages: Pages): (l: Loaded)
    ensures l.outcome == Skipped <==> skip && FinalExists(db.rows, ref.id)
    ensures l.outcome == Skipped ==> l == Loaded(db, closed, toLoad, Skipped)
    ensures db.rows.Keys <= l.db.rows.Keys
  {
    if skip && FinalExists(db.rows, ref.id) then Loaded(db, closed, toLoad, Skipped)
    else Finish(FetchParse(ref, clock, parse, db, toLoad, pages), closed)
  }

  /** A page without an `inning` element makes the load raise before anything is parsed
      or stored, with the session still open. */
  lemma LoadMissingInning(ref: GameRef, clock: Clock, parse: StampParser, db: Db, closed: bool, toLoad: seq<Row>,
                          skip: bool, pages: Pages, i: nat)
    requires i < |pages.innings| && Find(Root(pages.innings[i]), "inning").None?
    requires !(skip && FinalExists(db.rows, ref.id))
    ensures LoadSpec(ref, clock, parse, db, closed, toLoad, skip, pages)
         == Loaded(db, closed, toLoad, Failed(AttributeOfNone))
  {
    var found := InningsOf(pages.innings);
    assert found[i].None?;
  }

  /** On a fresh session, a load that ends with `add_all` stored every record of `to_load`
      as a new row with the column defaults, on top of the rows the team merges left. */
  lemma LoadAddedStores(ref: GameRef, clock: Clock, parse: StampParser, db: Db, closed: bool, toLoad: seq<Row>,
                        skip: bool, pages: Pages)
    requires db.pending == []
    requires LoadSpec(ref, clock, parse, db, closed, toLoad, skip, pages).outcome == Added
    ensures var l := LoadSpec(ref, clock, parse, db, closed, toLoad, skip, pages);
      var teams := FetchParse(ref, clock, parse, db, toLoad, pages).db.rows;
      && Insertable(teams, l.toLoad)
      && l.db.rows.Keys == teams.Keys + KeySet(l.toLoad)
      && (forall k :: k in teams ==> l.db.rows[k] == teams[k])
      && forall i :: 0 <= i < |l.toLoad| ==> l.db.rows[KeyOf(l.toLoad[i]).value] == WithDefaults(l.toLoad[i])
  {
    FinishAdded(FetchParse(ref, clock, parse, db, toLoad, pages), closed);
  }

  /** A load that falls back to merging leaves every record of `to_load` stored under its
      key, the last record with each key written in full, and the other rows as they were. */
  lemma LoadUpsertedStores(ref: GameRef, clock: Clock, parse: StampParser, db: Db, closed: bool, toLoad: seq<Row>,
                           skip: bool, pages: Pages)
    requires LoadSpec(ref, clock, parse, db, closed, toLoad, skip, pages).outcome == Upserted
    ensures var l := LoadSpec(ref, clock, parse, db, closed, toLoad, skip, pages);
      var p := FetchParse(ref, clock, parse, db, toLoad, pages);
      && Flush(p.db.rows, p.db.pending + Inserts(l.toLoad)).Failure?
      && Merged(p.db.rows, l.toLoad, l.db.rows)
  {
    FinishUpserted(FetchParse(ref, clock, parse, db, toLoad, pages), closed);
  }

  /** A game stored with `add_all` whose linescore says it is final is skipped by the next
      load that asks to skip final games. */
  lemma LoadedFinalIsSkipped(ref: GameRef, clock: Clock, parse: StampParser, db: Db, closed: bool,
                             pages: Pages, next: Pages)
    requires db.pending == []
    requires Find(Root(pages.linescore), "game").Some? && Find(Root(pages.boxscore), "boxscore").Some?
    requires Get(Find(Root(pages.linescore), "game").value.node, "status") == Some("Final")
    requires LoadSpec(ref, clock, parse, db, closed, [], false, pages).outcome == Added
    ensures var l := LoadSpec(ref, clock, parse, db, closed, [], false, pages);
      LoadSpec(ref, clock, parse, l.db, l.closed, l.toLoad, true, next).outcome == Skipped
  {
    var p := FetchParse(ref, clock, parse, db, [], pages);
    var ls := Find(Root(pages.linescore), "game").value.node;
    GameRowKey(ref, ls, clock, PresentRule);
    GameRowStatus(ref, ls, clock, PresentRule);
    FinishAddedFinal(p, closed, ref.id);
  }

  /** The loader: the values its constructor derives from the game id, the session, the
      fetched documents, the flattened inning lists and the records waiting to be stored.
      The clock and the timestamp parser stand for `strptime` and `pytz` with the New York
      time zone. */
  class GameLoader {
    const ref: GameRef
    const session: Session
    const clock: Clock
    const parse: StampParser
    /** `linescore.xml`'s `game` element. */
    var linescore: Option<Hit>
    /** `boxscore.xml`'s `boxscore` element. */
    var boxscore: Option<Hit>
    /** Each inning page's `inning` element. */
    var innings: seq<Option<Hit>>
    var atbats: seq<Hit>
    var pitches: seq<Hit>
    var runners: seq<Hit>
    var toLoad: seq<Row>

    /** The body of `GameLoader(game_id, sessionmaker)` once `gid_to_date` has accepted the
        id: `ref` holds what was derived from it. */
    constructor(ref: GameRef, db: Rows, clock: Clock, parse: StampParser)
      ensures this.ref == ref
      ensures fresh(session) && session.rows == db && session.pending == [] && !session.closed
      ensures linescore.None? && boxscore.None? && toLoad == []
      ensures innings == [] && atbats == [] && pitches == [] && runners == []
      ensures this.clock == clock && this.parse == parse
    {
      this.ref := ref;
      session := new Session(db);
      this.clock := clock;
      this.parse := parse;
      linescore := None;
      boxscore := None;
      innings := [];
      atbats := [];
      pitches := [];
      runners := [];
      toLoad := [];
    }

    /** `fetch_innings` on the parsed inning pages: the lists are emptied, then each
        inning's at-bats, pitches and runners are appended; a page without an `inning`
        element raises, keeping the innings before it. */
    method FetchInnings(pages: seq<Node>) returns (fault: Option<Fault>)
      modifies this
      ensures innings == InningsOf(pages)
      ensures var k := FirstMissing(innings);
        && Flat(atbats, pitches, runners) == FlattenAll(Values(innings[..k]))
        && (fault.None? <==> k == |innings|)
      ensures fault.Some? ==> fault == Some(AttributeOfNone)
      ensures linescore == old(linescore) && boxscore == old(boxscore) && toLoad == old(toLoad)
    {
      var found := InningsOf(pages);
      innings := found;
      atbats := [];
      pitches := [];
      runners := [];
      var i := 0;
      while i < |found|
        invariant 0 <= i <= |found| && innings == found
        invariant forall j :: 0 <= j < i ==> found[j].Some?
        invariant Flat(atbats, pitches, runners) == FlattenAll(Values(found[..i]))
        invariant linescore == old(linescore) && boxscore == old(boxscore) && toLoad == old(toLoad)
      {
        if found[i].None? {
          FirstMissingIs(found, i);
          return Some(AttributeOfNone);
        }
        var inning := found[i].value;
        FlattenAllSnoc(found, i);
        atbats := AppendEach(atbats, FindAll(inning, "atbat"));
        pitches := AppendEach(pitches, FindAll(inning, "pitch"));
        runners := AppendEach(runners, FindAll(inning, "runner"));
        i := i + 1;
      }
      FirstMissingIs(found, i);
      TakeAll(found);
      fault := None;
    }

    /** `fetch_all`: the linescore and the boxscore, then the innings. */
    method FetchAll(pages: Pages) returns (fault: Option<Fault>)
      modifies this
      ensures linescore == Find(Root(pages.linescore), "game")
      ensures boxscore == Find(Root(pages.boxscore), "boxscore")
      ensures innings == InningsOf(pages.innings)
      ensures var k := FirstMissing(innings);
        && Flat(atbats, pitches, runners) == FlattenAll(Values(innings[..k]))
        && (fault.None? <==> k == |innings|)
      ensures fault.Some? ==> fault == Some(AttributeOfNone)
      ensures toLoad == old(toLoad)
    {
      linescore := Find(Root(pages.linescore), "game");
      boxscore := Find(Root(pages.boxscore), "boxscore");
      fault := FetchInnings(pages.innings);
    }

    /** `parse_game`: the game record is appended; reading a missing linescore raises. */
    method ParseGame() returns (fault: Option<Fault>)
      modifies this
      ensures linescore.None? ==> fault == Some(AttributeOfNone) && toLoad == old(toLoad)
      ensures linescore.Some? ==> fault.None? && toLoad == old(toLoad) + [GameRow(ref, linescore.value.node, clock, PresentRule)]
      ensures linescore == old(linescore) && boxscore == old(boxscore)
      ensures innings == old(innings) && atbats == old(atbats) && pitches == old(pitches) && runners == old(runners)
    {
      if linescore.None? {
        return Some(AttributeOfNone);
      }
      toLoad := toLoad + [GameRow(ref, linescore.value.node, clock, PresentRule)];
      fault := None;
    }

    /** `parse_team(homeaway)`: nothing without a boxscore; reading a missing linescore
        raises; otherwise the team is merged and committed. */
    method ParseTeam(role: Role) returns (fault: Option<Fault>)
      modifies session
      ensures boxscore.None? ==>
        fault.None? && session.rows == old(session.rows) && session.pending == old(session.pending)
      ensures boxscore.Some? && linescore.None? ==>
        fault == Some(AttributeOfNone) && session.rows == old(session.rows) && session.pending == old(session.pending)
      ensures boxscore.Some? && linescore.Some? ==>
        (Db(session.rows, session.pending), fault)
          == TeamStep(Db(old(session.rows), old(session.pending)), ref.season, boxscore.value.node, linescore.value.node, role)
      ensures session.closed == old(session.closed)
    {
      if boxscore.None? {
        return None;
      }
      if linescore.None? {
        return Some(AttributeOfNone);
      }
      match TeamDraft(ref.season, boxscore.value.node, linescore.value.node, role)
      case Failure(e) =>
        fault := Some(e);
      case Success(d) =>
        session.Merge(Row(Teams, DropNone(d)));
        fault := session.Commit();
    }

    /** A `parse_*` loop appending to `to_load`. */
    method AppendAll(rs: seq<Result<Row, Fault>>) returns (fault: Option<Fault>)
      modifies this
      ensures toLoad == old(toLoad) + Gather(rs).rows && fault == Gather(rs).fault
      ensures linescore == old(linescore) && boxscore == old(boxscore)
      ensures innings == old(innings) && atbats == old(atbats) && pitches == old(pitches) && runners == old(runners)
    {
      toLoad, fault := Collect(toLoad, rs);
    }

    /** `parse_team_stats(homeaway)`: reading a missing document raises. */
    method ParseTeamStats(role: Role) returns (fault: Option<Fault>)
      modifies this
      ensures boxscore.None? || linescore.None? ==> fault == Some(AttributeOfNone) && toLoad == old(toLoad)
      ensures boxscore.Some? && linescore.Some? ==>
        var g := Gather(StatsResult(ref.id, boxscore.value, linescore.value.node, role));
        toLoad == old(toLoad) + g.rows && fault == g.fault
      ensures linescore == old(linescore) && boxscore == old(boxscore)
      ensures innings == old(innings) && atbats == old(atbats) && pitches == old(pitches) && runners == old(runners)
    {
      if boxscore.None? || linescore.None? {
        return Some(AttributeOfNone);
      }
      fault := AppendAll(StatsResult(ref.id, boxscore.value, linescore.value.node, role));
    }

    /** `parse_pitchers`: one record per `pitcher` element of the boxscore. */
    method ParsePitchers() returns (fault: Option<Fault>)
      modifies this
      ensures boxscore.None? ==> fault == Some(AttributeOfNone) && toLoad == old(toLoad)
      ensures boxscore.Some? ==>
        var g := Gather(PitcherResults(ref.id, boxscore.value.node, FindAll(boxscore.value, "pitcher")));
        toLoad == old(toLoad) + g.rows && fault == g.fault
      ensures linescore == old(linescore) && boxscore == old(boxscore)
      ensures innings == old(innings) && atbats == old(atbats) && pitches == old(pitches) && runners == old(runners)
    {
      if boxscore.None? {
        return Some(AttributeOfNone);
      }
      fault := AppendAll(PitcherResults(ref.id, boxscore.value.node, FindAll(boxscore.value, "pitcher")));
    }

    /** `parse_batters`: one record per `batter` element of the boxscore. */
    method ParseBatters() returns (fault: Option<Fault>)
      modifies this
      ensures boxscore.None? ==> fault == Some(AttributeOfNone) && toLoad == old(toLoad)
      ensures boxscore.Some? ==>
        var g := Gather(BatterResults(ref.id, boxscore.value.node, FindAll(boxscore.value, "batter")));
        toLoad == old(toLoad) + g.rows && fault == g.fault
      ensures linescore == old(linescore) && boxscore == old(boxscore)
      ensures innings == old(innings) && atbats == old(atbats) && pitches == old(pitches) && runners == old(runners)
    {
      if boxscore.None? {
        return Some(AttributeOfNone);
      }
      fault := AppendAll(BatterResults(ref.id, boxscore.value.node, FindAll(boxscore.value, "batter")));
    }

    /** `parse_atbats`: one record per flattened at-bat. */
    method ParseAtBats() returns (fault: Option<Fault>)
      modifies this
      ensures var g := Gather(AtBatResults(ref.id, atbats, parse));
        toLoad == old(toLoad) + g.rows && fault == g.fault
      ensures linescore == old(linescore) && boxscore == old(boxscore)
      ensures innings == old(innings) && atbats == old(atbats) && pitches == old(pitches) && runners == old(runners)
    {
      fault := AppendAll(AtBatResults(ref.id, atbats, parse));
    }

    /** `parse_pitches`: one record per flattened pitch, its id `try_int` of the `id`
        attribute. */
    method ParsePitches() returns (fault: Option<Fault>)
      modifies this
      ensures var g := Gather(TryIntPitchResults(ref.id, pitches, parse));
        toLoad == old(toLoad) + g.rows && fault == g.fault
      ensures linescore == old(linescore) && boxscore == old(boxscore)
      ensures innings == old(innings) && atbats == old(atbats) && pitches == old(pitches) && runners == old(runners)
    {
      fault := AppendAll(TryIntPitchResults(ref.id, pitches, parse));
    }

    /** `parse_runners`: one record per flattened runner. */
    method ParseRunners() returns (fault: Option<Fault>)
      modifies this
      ensures var g := Gather(RunnerResults(ref.id, runners, PresentRule));
        toLoad == old(toLoad) + g.rows && fault == g.fault
      ensures linescore == old(linescore) && boxscore == old(boxscore)
      ensures innings == old(innings) && atbats == old(atbats) && pitches == old(pitches) && runners == old(runners)
    {
      fault := AppendAll(RunnerResults(ref.id, runners, PresentRule));
    }

    /** The first half of `parse_all`, with both documents there. */
    method ParseTeams() returns (fault: Option<Fault>)
      requires linescore.Some? && boxscore.Some?
      modifies this, session
      ensures linescore == old(linescore) && boxscore == old(boxscore)
      ensures innings == old(innings) && atbats == old(atbats) && pitches == old(pitches) && runners == old(runners)
      ensures Parsed(Db(session.rows, session.pending), toLoad, fault)
        == TeamsSpec(ref, clock, Db(old(session.rows), old(session.pending)), old(toLoad),
                     linescore.value.node, boxscore.value.node)
      ensures session.closed == old(session.closed)
    {
      fault := ParseGame();
      fault := ParseTeam(Home);
      if fault.Some? {
        return;
      }
      fault := ParseTeam(Away);
    }

    /** The second half of `parse_all`, with both documents there. */
    method ParseRecords() returns (fault: Option<Fault>)
      requires linescore.Some? && boxscore.Some?
      modifies this
      ensures linescore == old(linescore) && boxscore == old(boxscore)
      ensures innings == old(innings) && atbats == old(atbats) && pitches == old(pitches) && runners == old(runners)
      ensures Parsed(Db(session.rows, session.pending), toLoad, fault)
        == RecordsSpec(Parsed(Db(session.rows, session.pending), old(toLoad), None),
                       ref, linescore.value.node, boxscore.value, parse, Flat(atbats, pitches, runners))
    {
      ghost var p0 := Parsed(Db(session.rows, session.pending), toLoad, None);
      fault := ParseTeamStats(Home);
      ghost var p1 := Then(p0, StatsResult(ref.id, boxscore.value, linescore.value.node, Home));
      assert Parsed(p0.db, toLoad, fault) == p1;
      if fault.Some? {
        return;
      }
      fault := ParseTeamStats(Away);
      ghost var p2 := Then(p1, StatsResult(ref.id, boxscore.value, linescore.value.node, Away));
      assert Parsed(p0.db, toLoad, fault) == p2;
      if fault.Some? {
        return;
      }
      fault := ParsePitchers();
      ghost var p3 := Then(p2, PitcherResults(ref.id, boxscore.value.node, FindAll(boxscore.value, "pitcher")));
      assert Parsed(p0.db, toLoad, fault) == p3;
      if fault.Some? {
        return;
      }
      fault := ParseBatters();
      ghost var p4 := Then(p3, BatterResults(ref.id, boxscore.value.node, FindAll(boxscore.value, "batter")));
      assert Parsed(p0.db, toLoad, fault) == p4;
      if fault.Some? {
        return;
      }
      fault := ParseAtBats();
      ghost var p5 := Then(p4, AtBatResults(ref.id, atbats, parse));
      assert Parsed(p0.db, toLoad, fault) == p5;
      if fault.Some? {
        return;
      }
      fault := ParsePitches();
      ghost var p6 := Then(p5, TryIntPitchResults(ref.id, pitches, parse));
      assert Parsed(p0.db, toLoad, fault) == p6;
      if fault.Some? {
        return;
      }
      fault := ParseRunners();
    }

    /** The parsers of `parse_all` in turn, once both documents are there; an exception
        stops them. */
    method ParseEach() returns (fault: Option<Fault>)
      requires linescore.Some? && boxscore.Some?
      modifies this, session
      ensures linescore == old(linescore) && boxscore == old(boxscore)
      ensures innings == old(innings) && atbats == old(atbats) && pitches == old(pitches) && runners == old(runners)
      ensures session.closed == old(session.closed)
      ensures Parsed(Db(session.rows, session.pending), toLoad, fault)
        == Then(TeamsSpec(ref, clock, Db(old(session.rows), old(session.pending)), old(toLoad),
                          linescore.value.node, boxscore.value.node),
                LaterResults(ref, linescore.value.node, boxscore.value, parse, Flat(atbats, pitches, runners)))
    {
      fault := ParseTeams();
      if fault.Some? {
        return;
      }
      ghost var teams := Parsed(Db(session.rows, session.pending), toLoad, None);
      fault := ParseRecords();
      RecordsGather(teams, ref, linescore.value.node, boxscore.value, parse, Flat(atbats, pitches, runners));
    }

    /** `parse_all`: nothing when a document is missing, every parser in turn otherwise. */
    method ParseAll() returns (fault: Option<Fault>)
      modifies this, session
      ensures Parsed(Db(session.rows, session.pending), toLoad, fault)
        == ParseSpec(ref, clock, parse, Db(old(session.rows), old(session.pending)), old(toLoad),
                     linescore, boxscore, Flat(atbats, pitches, runners))
      ensures linescore == old(linescore) && boxscore == old(boxscore)
      ensures innings == old(innings) && atbats == old(atbats) && pitches == old(pitches) && runners == old(runners)
      ensures session.closed == old(session.closed)
    {
      if linescore.None? || boxscore.None? {
        return None;
      }
      fault := ParseEach();
    }

    /** `fetch_all` then `parse_all`; an exception in `fetch_all` skips the parsers. */
    method FetchParseAll(pages: Pages) returns (fault: Option<Fault>)
      modifies this, session
      ensures Parsed(Db(session.rows, session.pending), toLoad, fault)
        == FetchParse(ref, clock, parse, Db(old(session.rows), old(session.pending)), old(toLoad), pages)
      ensures session.closed == old(session.closed)
      ensures Fetched(pages)
    {
      fault := FetchAll(pages);
      if fault.Some? {
        return;
      }
      TakeAll(innings);
      fault := ParseAll();
    }

    /** The documents `fetch_all` reads from the pages: the linescore's game, the boxscore,
        the innings, and the at-bats, pitches and runners of every inning before the first
        page without one. */
    ghost predicate Fetched(pages: Pages)
      reads this
    {
      && linescore == Find(Root(pages.linescore), "game")
      && boxscore == Find(Root(pages.boxscore), "boxscore")
      && innings == InningsOf(pages.innings)
      && Flat(atbats, pitches, runners) == FlattenAll(Values(innings[..FirstMissing(innings)]))
    }

    /** `load(skip_if_final)`. */
    method Load(skip: bool, pages: Pages) returns (outcome: Outcome)
      modifies this, session
      ensures Loaded(Db(session.rows, session.pending), session.closed, toLoad, outcome)
        == LoadSpec(ref, clock, parse, Db(old(session.rows), old(session.pending)), old(session.closed),
                    old(toLoad), skip, pages)
      ensures outcome == Skipped ==>
        && linescore == old(linescore) && boxscore == old(boxscore) && innings == old(innings)
        && atbats == old(atbats) && pitches == old(pitches) && runners == old(runners)
      ensures outcome != Skipped ==> Fetched(pages)
    {
      var loaded := session.Loaded(ref.id);
      if skip && loaded {
        return Skipped;
      }
      var fault := FetchParseAll(pages);
      if fault.Some? {
        return Failed(fault.value);
      }
      outcome := StoreAll(session, toLoad);
      if outcome.Failed? {
        return;
      }
      session.Close();
    }
  }

  /** `GameLoader(game_id, sessionmaker)`: the `ValueError` of `gid_to_date` for an id it
      rejects, otherwise a fresh loader over a fresh session. */
  method NewGameLoader(gameId: string, db: Rows, clock: Clock, parse: StampParser) returns (r: Result<GameLoader, Fault>)
    ensures r.Failure? <==> Utils.GidToDate(gameId).None?
    ensures r.Failure? ==> r.error == BadGameId
    ensures r.Success? ==>
      && fresh(r.value) && fresh(r.value.session)
      && r.value.ref == RefOf(gameId)
      && r.value.session.rows == db && r.value.session.pending == [] && r.value.toLoad == []
  {
    if Utils.GidToDate(gameId).None? {
      return Failure(BadGameId);
    }
    var loader := new GameLoader(RefOf(gameId), db, clock, parse);
    return Success(loader);
  }
}
