/** What the two loaders share once the records are built: a snapshot of the session, the
    outcome of `load`, the merge-and-commit of `parse_team`, and the "poor man's upsert"
    that adds every record, and merges them all instead when the insert is refused. */
module Loading {
  import opened Wrappers
  import opened Records
  import opened Schema
  import opened Store
  import opened Extract
  import opened Seqs

  /** A session's committed rows and its pending adds and merges. */
  datatype Db = Db(rows: Rows, pending: seq<Op>)

  /** How a call of `load` ended: skipped as final, stored by `add_all`, stored by the
      merge fallback, or stopped by an exception that propagates out of `load`. */
  datatype Outcome = Skipped | Added | Upserted | Failed(fault: Fault)

  /** `session.merge(row)` followed by `session.commit()`: the new snapshot and the
      IntegrityError the commit raises, if any. */
  function MergeCommit(db: Db, row: Row): (r: (Db, Option<Fault>))
    ensures db.rows.Keys <= r.0.rows.Keys
    ensures r.1.Some? ==> r.1 == Some(Integrity) && r.0 == Db(db.rows, db.pending + [Upsert(row)])
    ensures r.1.None? ==> r.0.pending == [] && HasKey(row) && KeyOf(row).value in r.0.rows
  {
    var ops := db.pending + [Upsert(row)];
    FlushSnoc(db.rows, ops);
    match Flush(db.rows, ops)
    case Success(rows) => (Db(rows, []), None)
    case Failure(e) => (Db(db.rows, ops), Some(e))
  }

  /** With nothing else pending, merging a row with a complete key whose stored columns the
      database accepts always succeeds, and the row's columns overwrite the stored ones. */
  lemma MergeCommitStores(db: Db, row: Row)
    requires db.pending == [] && HasKey(row)
    requires Admissible(row.table, WithDefaults(row))
    ensures MergeCommit(db, row).1.None?
    ensures var r := MergeCommit(db, row).0.rows;
      && r.Keys == db.rows.Keys + {KeyOf(row).value}
      && r[KeyOf(row).value] ==
           (if KeyOf(row).value in db.rows then db.rows[KeyOf(row).value] + row.fields else WithDefaults(row))
      && forall k :: k in db.rows && k != KeyOf(row).value ==> r[k] == db.rows[k]
  {
    assert db.pending + [Upsert(row)] == [Upsert(row)];
    FlushSnoc(db.rows, [Upsert(row)]);
    assert [Upsert(row)][..0] == [];
  }

  /** The same, read column by column: every column the row sets is written under its
      key, and no other row changes. */
  lemma MergeCommitWrites(db: Db, row: Row)
    requires db.pending == [] && HasKey(row)
    requires Admissible(row.table, WithDefaults(row))
    ensures var (r, fault) := MergeCommit(db, row);
      var k := KeyOf(row).value;
      && fault.None? && r.pending == []
      && k in r.rows && r.rows.Keys == db.rows.Keys + {k}
      && (forall c :: c in row.fields ==> c in r.rows[k] && r.rows[k][c] == row.fields[c])
      && forall j :: j in db.rows && j != k ==> r.rows[j] == db.rows[j]
  {
    MergeCommitStores(db, row);
  }

  /** Merging a row with a NULL key column always raises an IntegrityError. */
  lemma MergeCommitNullKey(db: Db, row: Row)
    requires !HasKey(row)
    ensures MergeCommit(db, row).1 == Some(Integrity)
  {
    FlushSnoc(db.rows, db.pending + [Upsert(row)]);
  }

  /** The `try: add_all; commit / except IntegrityError: rollback; merge each; commit`
      block of `load`, without the `close` that follows it. */
  function Persist(db: Db, batch: seq<Row>): (r: (Db, Outcome))
    ensures r.1 == Added || r.1 == Upserted || r.1 == Failed(Integrity)
    ensures db.rows.Keys <= r.0.rows.Keys
    ensures r.1 == Added <==> Flush(db.rows, db.pending + Inserts(batch)).Success?
    ensures r.1 != Failed(Integrity) ==> r.0.pending == []
    ensures r.1 == Failed(Integrity) ==> r.0 == Db(db.rows, Upserts(batch))
  {
    match Flush(db.rows, db.pending + Inserts(batch))
    case Success(rows) => (Db(rows, []), Added)
    case Failure(_) =>
      match Flush(db.rows, Upserts(batch))
      case Success(rows) => (Db(rows, []), Upserted)
      case Failure(e) => (Db(db.rows, Upserts(batch)), Failed(e))
  }

  /** On a session with nothing pending, the inserts succeed exactly when no record lacks a
      key, collides with a stored row or another record, or misses a required column; then
      each record is stored under its key with the column defaults, and the other rows are
      kept. */
  lemma PersistAdded(db: Db, batch: seq<Row>)
    requires db.pending == []
    ensures Persist(db, batch).1 == Added <==> Insertable(db.rows, batch)
    ensures Persist(db, batch).1 == Added ==>
      var r := Persist(db, batch).0.rows;
      && r.Keys == db.rows.Keys + KeySet(batch)
      && (forall k :: k in db.rows ==> r[k] == db.rows[k])
      && forall i :: 0 <= i < |batch| ==> r[KeyOf(batch[i]).value] == WithDefaults(batch[i])
  {
    assert db.pending + Inserts(batch) == Inserts(batch);
    FlushInserts(db.rows, batch);
  }

  /** After the merge fallback every record is stored under its key, no other row changes,
      and the last record with each key has every column it sets written. */
  lemma PersistMerged(db: Db, batch: seq<Row>)
    requires Persist(db, batch).1 == Upserted
    ensures Merged(db.rows, batch, Persist(db, batch).0.rows)
  {
    FlushUpserts(db.rows, batch);
  }

  /** The fallback can only fail on a record with a NULL key or a missing required column. */
  lemma PersistFailed(db: Db, batch: seq<Row>)
    requires Persist(db, batch).1.Failed?
    ensures exists i :: 0 <= i < |batch| && !(HasKey(batch[i]) && Admissible(batch[i].table, WithDefaults(batch[i])))
  {
    if forall i :: 0 <= i < |batch| ==> HasKey(batch[i]) && Admissible(batch[i].table, WithDefaults(batch[i])) {
      UpsertsSucceed(db.rows, batch);
    }
  }

  /** `parse_all` so far: the session, `to_load`, and the exception that stopped it. */
  datatype Parsed = Parsed(db: Db, toLoad: seq<Row>, fault: Option<Fault>)

  /** The next `parse_*` loop, run only when nothing has raised yet. */
  function Then(p: Parsed, rs: seq<Result<Row, Fault>>): (q: Parsed)
    ensures q.db == p.db && Extends(q.toLoad, p.toLoad)
    ensures p.fault.Some? ==> q == p
  {
    if p.fault.Some? then p
    else
      var g := Gather(rs);
      Parsed(p.db, p.toLoad + g.rows, g.fault)
  }

  /** Two loops in a row leave what one loop over both leaves. */
  lemma ThenThen(p: Parsed, a: seq<Result<Row, Fault>>, b: seq<Result<Row, Fault>>)
    ensures Then(Then(p, a), b) == Then(p, a + b)
  {
    GatherAppend(a, b);
    if p.fault.None? && Gather(a).fault.None? {
      Seqs.AppendAssoc(p.toLoad, Gather(a).rows, Gather(b).rows);
    }
  }

  /** A `parse_*` loop: each element's record is appended in turn, and the first element
      that raises stops the loop with the records before it kept. */
  method Collect(acc: seq<Row>, rs: seq<Result<Row, Fault>>) returns (out: seq<Row>, fault: Option<Fault>)
    ensures out == acc + Gather(rs).rows && fault == Gather(rs).fault
  {
    out := acc;
    var i := 0;
    while i < |rs|
      invariant 0 <= i <= |rs|
      invariant Gather(rs[..i]).fault.None?
      invariant out == acc + Gather(rs[..i]).rows
    {
      GatherSnoc(rs, i);
      match rs[i]
      case Failure(e) =>
        GatherStops(rs, i);
        return out, Some(e);
      case Success(row) =>
        Seqs.AppendAssoc(acc, Gather(rs[..i]).rows, [row]);
        out := out + [row];
      i := i + 1;
    }
    Seqs.TakeAll(rs);
    fault := None;
  }

  /** The `try`/`except` block of `load`: `add_all` and `commit`, and on an
      IntegrityError `rollback`, a merge of every record and `commit` again. */
  method StoreAll(session: Session, batch: seq<Row>) returns (outcome: Outcome)
    modifies session
    ensures (Db(session.rows, session.pending), outcome) == Persist(Db(old(session.rows), old(session.pending)), batch)
    ensures session.closed == old(session.closed)
  {
    session.AddAll(batch);
    var fault := session.Commit();
    if fault.None? {
      return Added;
    }
    session.Rollback();
    session.MergeEach(batch);
    Seqs.EmptyAppend(Upserts(batch));
    fault := session.Commit();
    if fault.Some? {
      return Failed(fault.value);
    }
    outcome := Upserted;
  }

  /** What `load` leaves: the session, whether it was closed, `to_load`, and how it ended. */
  datatype Loaded = Loaded(db: Db, closed: bool, toLoad: seq<Row>, outcome: Outcome)

  /** The end of `load` after `parse_all`: an exception from the parsers propagates;
      otherwise the records are stored, and the session is closed unless the fallback's
      commit raised. */
  function Finish(p: Parsed, closed: bool): (l: Loaded)
    ensures l.toLoad == p.toLoad && p.db.rows.Keys <= l.db.rows.Keys
    ensures l.outcome != Skipped
    ensures p.fault.Some? ==> l == Loaded(p.db, closed, p.toLoad, Failed(p.fault.value))
    ensures l.outcome.Failed? ==> l.closed == closed
    ensures !l.outcome.Failed? ==> l.closed && l.db.pending == []
  {
    if p.fault.Some? then Loaded(p.db, closed, p.toLoad, Failed(p.fault.value))
    else
      var (stored, outcome) := Persist(p.db, p.toLoad);
      if outcome.Failed? then Loaded(stored, closed, p.toLoad, outcome)
      else Loaded(Db(stored.rows, []), true, p.toLoad, outcome)
  }

  /** On a session with nothing pending, a load that ends with `add_all` stored every
      record as a new row with the column defaults and kept every other row. */
  lemma FinishAdded(p: Parsed, closed: bool)
    requires p.db.pending == [] && Finish(p, closed).outcome == Added
    ensures var r := Finish(p, closed).db.rows;
      && Insertable(p.db.rows, p.toLoad)
      && r.Keys == p.db.rows.Keys + KeySet(p.toLoad)
      && (forall k :: k in p.db.rows ==> r[k] == p.db.rows[k])
      && forall i :: 0 <= i < |p.toLoad| ==> r[KeyOf(p.toLoad[i]).value] == WithDefaults(p.toLoad[i])
  {
    PersistAdded(p.db, p.toLoad);
  }

  /** A load that falls back to merging was refused the inserts, and leaves every record
      stored under its key with the last record of each key written in full. */
  lemma FinishUpserted(p: Parsed, closed: bool)
    requires Finish(p, closed).outcome == Upserted
    ensures Flush(p.db.rows, p.db.pending + Inserts(p.toLoad)).Failure?
    ensures Merged(p.db.rows, p.toLoad, Finish(p, closed).db.rows)
  {
    PersistMerged(p.db, p.toLoad);
  }

  /** A game record first in `to_load`, stored by `add_all` with the status `'Final'`, is
      what the next `load` finds as final. */
  lemma FinishAddedFinal(p: Parsed, closed: bool, gameId: string)
    requires p.db.pending == [] && Finish(p, closed).outcome == Added && |p.toLoad| > 0
    requires KeyOf(p.toLoad[0]) == Some(RowKey(Games, [TextV(gameId)]))
    requires "status" in p.toLoad[0].fields && p.toLoad[0].fields["status"] == TextV("Final")
    ensures FinalExists(Finish(p, closed).db.rows, gameId)
  {
    FinishAdded(p, closed);
  }
}
