/** The database and the SQLAlchemy session the loaders write through. The database is a
    map from row identity to stored columns; the session collects `add` and `merge`
    operations and applies them in order, all or nothing, at `commit`. */
module Store {
  import opened Wrappers
  import opened Records
  import opened Schema
  import Seqs

  /** The committed contents of the database. */
  type Rows = map<RowKey, Fields>

  /** `session.add(row)` or `session.merge(row)`, waiting for the next flush. */
  datatype Op = Insert(row: Row) | Upsert(row: Row)

  /** One operation against the database. An INSERT stores the row with its defaults and is
      refused (IntegrityError) when a key column is missing, the key is taken, or a NOT NULL
      column without a default is missing. A merge of a row whose key is stored copies the
      columns the row sets over the stored ones; a merge of a new key is an INSERT. */
  function ApplyOp(rows: Rows, op: Op): (r: Result<Rows, Fault>)
    ensures r.Failure? ==> r.error == Integrity
    ensures r.Success? ==> HasKey(op.row) && r.value.Keys == rows.Keys + {KeyOf(op.row).value}
    ensures r.Success? ==> forall k :: k in rows && k != KeyOf(op.row).value ==> r.value[k] == rows[k]
    ensures op.Insert? ==>
      (r.Success? <==> HasKey(op.row) && KeyOf(op.row).value !in rows && Admissible(op.row.table, WithDefaults(op.row)))
    ensures op.Upsert? ==>
      (r.Success? <==> HasKey(op.row) && (KeyOf(op.row).value in rows || Admissible(op.row.table, WithDefaults(op.row))))
    ensures r.Success? && op.Insert? ==> r.value[KeyOf(op.row).value] == WithDefaults(op.row)
    ensures r.Success? && op.Upsert? ==>
      r.value[KeyOf(op.row).value]
        == if KeyOf(op.row).value in rows then rows[KeyOf(op.row).value] + op.row.fields else WithDefaults(op.row)
  {
    match KeyOf(op.row)
    case None => Failure(Integrity)
    case Some(k) =>
      if k in rows then
        if op.Upsert? then Success(rows[k := rows[k] + op.row.fields]) else Failure(Integrity)
      else if Admissible(op.row.table, WithDefaults(op.row)) then Success(rows[k := WithDefaults(op.row)])
      else Failure(Integrity)
  }

  /** A flush: the operations in order, stopping at the first one the database refuses, in
      which case nothing of the batch is kept. */
  function Flush(rows: Rows, ops: seq<Op>): (r: Result<Rows, Fault>)
    ensures r.Failure? ==> r.error == Integrity
    ensures r.Success? ==> rows.Keys <= r.value.Keys
    decreases |ops|
  {
    if ops == [] then Success(rows)
    else
      match Flush(rows, ops[..|ops| - 1])
      case Failure(e) => Failure(e)
      case Success(mid) => ApplyOp(mid, ops[|ops| - 1])
  }

  /** `session.add_all(batch)`. */
  function Inserts(batch: seq<Row>): (ops: seq<Op>)
    ensures |ops| == |batch| && forall i :: 0 <= i < |batch| ==> ops[i] == Insert(batch[i])
  {
    seq(|batch|, i requires 0 <= i < |batch| => Insert(batch[i]))
  }

  /** `[session.merge(x) for x in batch]`. */
  function Upserts(batch: seq<Row>): (ops: seq<Op>)
    ensures |ops| == |batch| && forall i :: 0 <= i < |batch| ==> ops[i] == Upsert(batch[i])
  {
    seq(|batch|, i requires 0 <= i < |batch| => Upsert(batch[i]))
  }

  /** The identities of the rows of a batch that have a complete key. */
  function KeySet(batch: seq<Row>): set<RowKey> {
    set i | 0 <= i < |batch| && HasKey(batch[i]) :: KeyOf(batch[i]).value
  }

  lemma KeySetSnoc(batch: seq<Row>)
    requires |batch| > 0 && HasKey(batch[|batch| - 1])
    ensures KeySet(batch) == KeySet(batch[..|batch| - 1]) + {KeyOf(batch[|batch| - 1]).value}
  {
    var front := batch[..|batch| - 1];
    assert forall i :: 0 <= i < |front| ==> front[i] == batch[i];
  }

  /** A batch the database takes as INSERTs: every row has a complete key that is not stored
      and not repeated in the batch, and no NOT NULL column is left empty. */
  predicate Insertable(rows: Rows, batch: seq<Row>) {
    && (forall i :: 0 <= i < |batch| ==>
         HasKey(batch[i]) && KeyOf(batch[i]).value !in rows && Admissible(batch[i].table, WithDefaults(batch[i])))
    && (forall i, j :: 0 <= i < j < |batch| ==> KeyOf(batch[i]) != KeyOf(batch[j]))
  }

  lemma FlushSnoc(rows: Rows, ops: seq<Op>)
    requires |ops| > 0
    ensures Flush(rows, ops) ==
      match Flush(rows, ops[..|ops| - 1])
      case Failure(e) => Failure(e)
      case Success(mid) => ApplyOp(mid, ops[|ops| - 1])
  {
  }

  /** The last INSERT of a batch goes in exactly when the whole batch is insertable. */
  lemma InsertLastAccepted(rows: Rows, mid: Rows, front: seq<Row>, last: Row)
    requires mid.Keys == rows.Keys + KeySet(front) && Insertable(rows, front)
    ensures ApplyOp(mid, Insert(last)).Success? <==> Insertable(rows, front + [last])
  {
    InsertableSnoc(rows, mid, front, last);
  }

  /** A batch stays insertable with one more row exactly when that row has a complete key
      that is neither stored nor taken by the batch, and its stored columns are accepted. */
  lemma InsertableSnoc(rows: Rows, mid: Rows, front: seq<Row>, last: Row)
    requires mid.Keys == rows.Keys + KeySet(front) && Insertable(rows, front)
    ensures HasKey(last) && KeyOf(last).value !in mid && Admissible(last.table, WithDefaults(last))
        <==> Insertable(rows, front + [last])
  {
    var batch := front + [last];
    Seqs.SnocParts(front, last);
    if HasKey(last) && KeyOf(last).value !in mid && Admissible(last.table, WithDefaults(last)) {
      forall i | 0 <= i < |front|
        ensures KeyOf(front[i]) != KeyOf(last)
      {
        assert KeyOf(front[i]).value in KeySet(front);
      }
    }
    if Insertable(rows, batch) {
      var kl := KeyOf(last).value;
      forall k | k in KeySet(front)
        ensures k != kl
      {
        var i :| 0 <= i < |front| && HasKey(front[i]) && KeyOf(front[i]).value == k;
        assert KeyOf(batch[i]) != KeyOf(batch[|front|]);
      }
    }
  }

  /** What the accepted last INSERT leaves in the database. */
  lemma InsertLastStored(rows: Rows, mid: Rows, front: seq<Row>, last: Row)
    requires mid.Keys == rows.Keys + KeySet(front) && forall i :: 0 <= i < |front| ==> HasKey(front[i])
    requires forall k :: k in rows ==> mid[k] == rows[k]
    requires forall i :: 0 <= i < |front| ==>
      KeyOf(front[i]).value in mid && mid[KeyOf(front[i]).value] == WithDefaults(front[i])
    requires ApplyOp(mid, Insert(last)).Success?
    ensures
      var r := ApplyOp(mid, Insert(last)).value;
      var batch := front + [last];
      && r.Keys == rows.Keys + KeySet(batch)
      && (forall k :: k in rows ==> r[k] == rows[k])
      && (forall i :: 0 <= i < |batch| ==>
           KeyOf(batch[i]).value in r && r[KeyOf(batch[i]).value] == WithDefaults(batch[i]))
  {
    StoredAfterNewKey(rows, mid, ApplyOp(mid, Insert(last)).value, front, last);
  }

  /** A row stored under a key new to `mid`, with every other row of `mid` kept. */
  lemma StoredAfterNewKey(rows: Rows, mid: Rows, r: Rows, front: seq<Row>, last: Row)
    requires mid.Keys == rows.Keys + KeySet(front)
    requires forall k :: k in rows ==> mid[k] == rows[k]
    requires forall i :: 0 <= i < |front| ==>
      HasKey(front[i]) && KeyOf(front[i]).value in mid && mid[KeyOf(front[i]).value] == WithDefaults(front[i])
    requires HasKey(last) && KeyOf(last).value !in mid
    requires r.Keys == mid.Keys + {KeyOf(last).value} && r[KeyOf(last).value] == WithDefaults(last)
    requires forall k :: k in mid && k != KeyOf(last).value ==> r[k] == mid[k]
    ensures
      var batch := front + [last];
      && r.Keys == rows.Keys + KeySet(batch)
      && (forall k :: k in rows ==> r[k] == rows[k])
      && (forall i :: 0 <= i < |batch| ==>
           KeyOf(batch[i]).value in r && r[KeyOf(batch[i]).value] == WithDefaults(batch[i]))
  {
    Seqs.SnocParts(front, last);
    KeySetSnoc(front + [last]);
    StoredEach(mid, r, front, last);
  }

  /** The rows of the batch before the last keep what `mid` stores for them, and the last
      is stored as given. */
  lemma StoredEach(mid: Rows, r: Rows, front: seq<Row>, last: Row)
    requires forall i :: 0 <= i < |front| ==>
      HasKey(front[i]) && KeyOf(front[i]).value in mid && mid[KeyOf(front[i]).value] == WithDefaults(front[i])
    requires HasKey(last) && KeyOf(last).value !in mid
    requires r.Keys == mid.Keys + {KeyOf(last).value} && r[KeyOf(last).value] == WithDefaults(last)
    requires forall k :: k in mid && k != KeyOf(last).value ==> r[k] == mid[k]
    ensures forall i :: 0 <= i < |front + [last]| ==>
      KeyOf((front + [last])[i]).value in r && r[KeyOf((front + [last])[i]).value] == WithDefaults((front + [last])[i])
  {
    Seqs.SnocParts(front, last);
  }

  /** What `FlushInserts` states of a batch. */
  predicate InsertsStored(rows: Rows, batch: seq<Row>) {
    && (Flush(rows, Inserts(batch)).Success? <==> Insertable(rows, batch))
    && (Flush(rows, Inserts(batch)).Success? ==>
      var r := Flush(rows, Inserts(batch)).value;
      && r.Keys == rows.Keys + KeySet(batch)
      && (forall k :: k in rows ==> r[k] == rows[k])
      && (forall i :: 0 <= i < |batch| ==>
           KeyOf(batch[i]).value in r && r[KeyOf(batch[i]).value] == WithDefaults(batch[i])))
  }

  /** One more INSERT keeps what `FlushInserts` states of the batch before it. */
  lemma FlushInsertsStep(rows: Rows, batch: seq<Row>)
    requires |batch| > 0 && InsertsStored(rows, batch[..|batch| - 1])
    ensures InsertsStored(rows, batch)
  {
    var n := |batch|;
    var front := batch[..n - 1];
    var last := batch[n - 1];
    Seqs.SplitLast(batch);
    assert Inserts(batch)[..n - 1] == Inserts(front);
    FlushSnoc(rows, Inserts(batch));
    if Insertable(rows, front) {
      var mid := Flush(rows, Inserts(front)).value;
      InsertLastAccepted(rows, mid, front, last);
      if ApplyOp(mid, Insert(last)).Success? {
        InsertLastStored(rows, mid, front, last);
      }
    } else if Insertable(rows, batch) {
      InsertableFront(rows, batch);
    }
  }

  /** The front of an insertable batch is insertable. */
  lemma InsertableFront(rows: Rows, batch: seq<Row>)
    requires |batch| > 0 && Insertable(rows, batch)
    ensures Insertable(rows, batch[..|batch| - 1])
  {
    var front := batch[..|batch| - 1];
    assert forall i :: 0 <= i < |front| ==> front[i] == batch[i];
  }

  /** `add_all` then `commit` succeeds exactly for an insertable batch, and then stores each
      row with its defaults under its key and keeps every other row. */
  lemma {:induction false} FlushInserts(rows: Rows, batch: seq<Row>)
    ensures Flush(rows, Inserts(batch)).Success? <==> Insertable(rows, batch)
    ensures Flush(rows, Inserts(batch)).Success? ==>
      var r := Flush(rows, Inserts(batch)).value;
      && r.Keys == rows.Keys + KeySet(batch)
      && (forall k :: k in rows ==> r[k] == rows[k])
      && (forall i :: 0 <= i < |batch| ==>
           KeyOf(batch[i]).value in r && r[KeyOf(batch[i]).value] == WithDefaults(batch[i]))
    decreases |batch|
  {
    if batch == [] {
      assert Inserts(batch) == [];
      assert KeySet(batch) == {};
    } else {
      FlushInserts(rows, batch[..|batch| - 1]);
      FlushInsertsStep(rows, batch);
    }
  }

  /** No later row of the batch has the same key as row `i`. */
  predicate LastWithKey(batch: seq<Row>, i: nat)
    requires i < |batch|
  {
    forall j :: i < j < |batch| ==> KeyOf(batch[j]) != KeyOf(batch[i])
  }

  /** Row `i` of the batch is stored and the columns it sets hold its values. */
  predicate WrittenAt(batch: seq<Row>, i: nat, r: Rows)
    requires i < |batch|
  {
    HasKey(batch[i]) && KeyOf(batch[i]).value in r
    && forall c :: c in batch[i].fields ==>
         c in r[KeyOf(batch[i]).value] && r[KeyOf(batch[i]).value][c] == batch[i].fields[c]
  }

  /** What the merges of a batch leave in the database, as `FlushUpserts` states it. */
  predicate Merged(rows: Rows, batch: seq<Row>, r: Rows) {
    && (forall i :: 0 <= i < |batch| ==> HasKey(batch[i]) && KeyOf(batch[i]).value in r)
    && r.Keys == rows.Keys + KeySet(batch)
    && (forall k :: k in rows && k !in KeySet(batch) ==> r[k] == rows[k])
    && (forall i :: 0 <= i < |batch| && LastWithKey(batch, i) ==> WrittenAt(batch, i, r))
  }

  /** The merge of one more row keeps every later-unwritten row of the batch before it. */
  lemma UpsertLastWritten(front: seq<Row>, mid: Rows, r: Rows, last: Row, i: nat)
    requires i < |front| && WrittenAt(front, i, mid) && HasKey(last)
    requires r.Keys == mid.Keys + {KeyOf(last).value}
    requires forall k :: k in mid && k != KeyOf(last).value ==> r[k] == mid[k]
    requires KeyOf(front[i]) != KeyOf(last)
    ensures WrittenAt(front + [last], i, r)
  {
    assert (front + [last])[i] == front[i];
  }

  /** The merge of one more row keeps the merged state of the rows before it. */
  lemma UpsertLast(rows: Rows, mid: Rows, front: seq<Row>, last: Row)
    requires Merged(rows, front, mid) && ApplyOp(mid, Upsert(last)).Success?
    ensures Merged(rows, front + [last], ApplyOp(mid, Upsert(last)).value)
  {
    var r := ApplyOp(mid, Upsert(last)).value;
    var k := KeyOf(last).value;
    forall c | c in last.fields
      ensures c in r[k] && r[k][c] == last.fields[c]
    {
    }
    MergedAfterUpsert(rows, mid, r, front, last);
  }

  /** Merging under a key: the row's columns are written there, and no other row changes. */
  lemma MergedAfterUpsert(rows: Rows, mid: Rows, r: Rows, front: seq<Row>, last: Row)
    requires Merged(rows, front, mid) && HasKey(last)
    requires r.Keys == mid.Keys + {KeyOf(last).value}
    requires forall k :: k in mid && k != KeyOf(last).value ==> r[k] == mid[k]
    requires forall c :: c in last.fields ==> c in r[KeyOf(last).value] && r[KeyOf(last).value][c] == last.fields[c]
    ensures Merged(rows, front + [last], r)
  {
    KeysAfterUpsert(rows, mid, r, front, last);
    WrittenAfterUpsert(mid, r, front, last);
  }

  /** The stored keys after one more merge, and the rows no merge named. */
  lemma KeysAfterUpsert(rows: Rows, mid: Rows, r: Rows, front: seq<Row>, last: Row)
    requires forall i :: 0 <= i < |front| ==> HasKey(front[i]) && KeyOf(front[i]).value in mid
    requires mid.Keys == rows.Keys + KeySet(front)
    requires forall k :: k in rows && k !in KeySet(front) ==> mid[k] == rows[k]
    requires HasKey(last) && r.Keys == mid.Keys + {KeyOf(last).value}
    requires forall k :: k in mid && k != KeyOf(last).value ==> r[k] == mid[k]
    ensures var batch := front + [last];
      && (forall i :: 0 <= i < |batch| ==> HasKey(batch[i]) && KeyOf(batch[i]).value in r)
      && r.Keys == rows.Keys + KeySet(batch)
      && (forall k :: k in rows && k !in KeySet(batch) ==> r[k] == rows[k])
  {
    Seqs.SnocParts(front, last);
    KeySetSnoc(front + [last]);
  }

  /** After one more merge, the last row with each key of the longer batch is written. */
  lemma WrittenAfterUpsert(mid: Rows, r: Rows, front: seq<Row>, last: Row)
    requires forall i :: 0 <= i < |front| && LastWithKey(front, i) ==> WrittenAt(front, i, mid)
    requires HasKey(last) && r.Keys == mid.Keys + {KeyOf(last).value}
    requires forall k :: k in mid && k != KeyOf(last).value ==> r[k] == mid[k]
    requires forall c :: c in last.fields ==> c in r[KeyOf(last).value] && r[KeyOf(last).value][c] == last.fields[c]
    ensures forall i :: 0 <= i < |front + [last]| && LastWithKey(front + [last], i) ==> WrittenAt(front + [last], i, r)
  {
    var batch := front + [last];
    var n := |batch|;
    Seqs.SnocParts(front, last);
    forall i | 0 <= i < n && LastWithKey(batch, i)
      ensures WrittenAt(batch, i, r)
    {
      if i < n - 1 {
        assert LastWithKey(front, i);
        assert KeyOf(batch[i]) != KeyOf(batch[n - 1]);
        UpsertLastWritten(front, mid, r, last, i);
      }
    }
  }

  lemma UpsertsPrefix(batch: seq<Row>)
    requires |batch| > 0
    ensures Upserts(batch)[..|batch| - 1] == Upserts(batch[..|batch| - 1])
    ensures Upserts(batch)[|batch| - 1] == Upsert(batch[|batch| - 1])
  {
  }

  /** After the merges of a batch are committed, every row of the batch is stored under its
      key, the columns of the last row for each key hold that row's values, no row was
      removed, and a row no merge named is unchanged. */
  lemma {:induction false} FlushUpserts(rows: Rows, batch: seq<Row>)
    requires Flush(rows, Upserts(batch)).Success?
    ensures Merged(rows, batch, Flush(rows, Upserts(batch)).value)
    decreases |batch|
  {
    if batch == [] {
      assert Upserts(batch) == [];
      assert KeySet(batch) == {};
      assert Flush(rows, Upserts(batch)).value == rows;
    } else {
      var n := |batch|;
      var front := batch[..n - 1];
      var last := batch[n - 1];
      Seqs.SplitLast(batch);
      UpsertsPrefix(batch);
      FlushSnoc(rows, Upserts(batch));
      FlushUpserts(rows, front);
      var mid := Flush(rows, Upserts(front)).value;
      assert Flush(rows, Upserts(batch)) == ApplyOp(mid, Upsert(last));
      UpsertLast(rows, mid, front, last);
    }
  }

  /** A merge batch whose rows all have complete keys and fill every NOT NULL column is
      always committed. */
  lemma {:induction false} UpsertsSucceed(rows: Rows, batch: seq<Row>)
    requires forall i :: 0 <= i < |batch| ==> HasKey(batch[i]) && Admissible(batch[i].table, WithDefaults(batch[i]))
    ensures Flush(rows, Upserts(batch)).Success?
    decreases |batch|
  {
    if batch == [] {
      assert Upserts(batch) == [];
    } else {
      var front := batch[..|batch| - 1];
      assert Upserts(batch)[..|batch| - 1] == Upserts(front);
      assert forall i :: 0 <= i < |front| ==> front[i] == batch[i];
      UpsertsSucceed(rows, front);
    }
  }

  /** `exists().where((Game.game_id == game_id) & (Game.status == 'Final'))`. */
  predicate FinalExists(rows: Rows, gameId: string) {
    var k := RowKey(Games, [TextV(gameId)]);
    k in rows && "status" in rows[k] && rows[k]["status"] == TextV("Final")
  }

  /** A session over the database. */
  class Session {
    /** What the database holds as of the last commit. */
    var rows: Rows
    /** The adds and merges since the last commit or rollback. */
    var pending: seq<Op>
    /** Whether `close()` was called. */
    var closed: bool

    /** `sessionmaker()` over a database holding `db`. */
    constructor(db: Rows)
      ensures rows == db && pending == [] && !closed
    {
      rows := db;
      pending := [];
      closed := false;
    }

    /** `session.query(exists().where(...)).scalar()` for a finished game. */
    predicate Loaded(gameId: string)
      reads this
    {
      FinalExists(rows, gameId)
    }

    /** `session.add_all(batch)`. */
    method AddAll(batch: seq<Row>)
      modifies this
      ensures pending == old(pending) + Inserts(batch)
      ensures rows == old(rows) && closed == old(closed)
    {
      pending := pending + Inserts(batch);
    }

    /** `session.merge(row)`. */
    method Merge(row: Row)
      modifies this
      ensures pending == old(pending) + [Upsert(row)]
      ensures rows == old(rows) && closed == old(closed)
    {
      pending := pending + [Upsert(row)];
    }

    /** `[session.merge(x) for x in batch]`. */
    method MergeEach(batch: seq<Row>)
      modifies this
      ensures pending == old(pending) + Upserts(batch)
      ensures rows == old(rows) && closed == old(closed)
    {
      var i := 0;
      while i < |batch|
        invariant 0 <= i <= |batch|
        invariant pending == old(pending) + Upserts(batch[..i])
        invariant rows == old(rows) && closed == old(closed)
      {
        Merge(batch[i]);
        assert Upserts(batch[..i + 1]) == Upserts(batch[..i]) + [Upsert(batch[i])];
        i := i + 1;
      }
      assert batch[..i] == batch;
    }

    /** `session.commit()`: the fault is the IntegrityError it raises; then nothing of the
        batch is written and the batch stays pending until a rollback. */
    method Commit() returns (fault: Option<Fault>)
      modifies this
      ensures Flush(old(rows), old(pending)).Success? ==>
        rows == Flush(old(rows), old(pending)).value && pending == [] && fault.None?
      ensures Flush(old(rows), old(pending)).Failure? ==>
        rows == old(rows) && pending == old(pending) && fault == Some(Flush(old(rows), old(pending)).error)
      ensures closed == old(closed)
    {
      match Flush(rows, pending)
      case Success(r) =>
        rows := r;
        pending := [];
        fault := None;
      case Failure(e) =>
        fault := Some(e);
    }

    /** `session.rollback()`. */
    method Rollback()
      modifies this
      ensures pending == [] && rows == old(rows) && closed == old(closed)
    {
      pending := [];
    }

    /** `session.close()`. */
    method Close()
      modifies this
      ensures closed && pending == [] && rows == old(rows)
    {
      pending := [];
      closed := true;
    }
  }
}
