/** The values the extractors put into a record dictionary, the `None`-dropping step,
    the column-by-column coercion of attributes, and the exceptions an extractor can raise. */
module Records {
  import opened Wrappers
  import opened Calendar
  import opened Doc
  import Utils

  /** A `datetime`: a calendar date and the seconds since its midnight. */
  datatype Stamp = Stamp(date: Date, seconds: int)

  /** What a record dictionary can hold. Python's `int` 0 for a games-back sentinel or a
      zero win rate is `IntV(0)`; a division result is a `FloatV`. */
  datatype Value =
    | IntV(i: int)
    | FloatV(f: Utils.Float)
    | TextV(s: string)
    | BoolV(b: bool)
    | DateV(d: Date)
    | StampV(t: Stamp)

  /** A record after `None` values were dropped: column name to value. */
  type Fields = map<string, Value>

  /** A record dictionary as the extractor fills it; `None` is Python's `None`. */
  type Draft = map<string, Option<Value>>

  /** The exceptions an extractor, a session or the loader's constructor can raise. */
  datatype Fault =
    | AttributeOfNone   // `.get` or `.find_all` called on `None`
    | NoneOperand       // `None` in `+` or passed to `int()` (TypeError)
    | NotANumber        // `int()` of text that is not an integer (ValueError)
    | IndexOutOfRange   // indexing a string that is too short (IndexError)
    | Integrity         // the database refused the flushed rows (IntegrityError)
    | BadGameId         // `gid_to_date` raised ValueError

  /** `dict((k, v) for k, v in d.items() if v is not None)`. */
  function DropNone(d: Draft): (r: Fields)
    ensures forall k :: k in r <==> k in d && d[k].Some?
    ensures forall k :: k in r ==> d[k] == Some(r[k])
  {
    map k | k in d && d[k].Some? :: d[k].value
  }

  /** The dictionary assigns `v` to column `k`. */
  predicate Sets(d: Draft, k: string, v: Option<Value>) {
    k in d && d[k] == v
  }

  /** A record as a dictionary with no `None` in it. */
  function Lift(f: Fields): (d: Draft)
    ensures d.Keys == f.Keys
    ensures forall k :: k in d ==> d[k] == Some(f[k])
  {
    map k | k in f :: Some(f[k])
  }

  /** Dropping `None` from a dictionary that holds none changes nothing, and dropping
      twice is dropping once. */
  lemma DropNoneLift(f: Fields, d: Draft)
    ensures DropNone(Lift(f)) == f
    ensures DropNone(Lift(DropNone(d))) == DropNone(d)
  {
    assert DropNone(Lift(f)).Keys == f.Keys;
    var g := DropNone(d);
    assert DropNone(Lift(g)).Keys == g.Keys;
  }

  /** How an attribute becomes a column value. */
  datatype Conv = AsInt | AsFloat | AsText

  /** `record[name] = conv(element.get(attr))`. */
  datatype Column = Column(name: string, attr: string, conv: Conv)

  /** `try_int`, `try_float` or the raw text, with `None` for a missing attribute or a
      failed conversion. */
  function Coerce(conv: Conv, v: Option<string>): (r: Option<Value>)
    ensures v.None? ==> r.None?
    ensures conv == AsText ==> (r.Some? <==> v.Some?)
  {
    match conv
    case AsInt => (match Utils.TryInt(v) case Some(i) => Some(IntV(i)) case None => None)
    case AsFloat => (match Utils.TryFloat(v) case Some(x) => Some(FloatV(x)) case None => None)
    case AsText => (match v case Some(s) => Some(TextV(s)) case None => None)
  }

  function NameSet(cols: seq<Column>): set<string> {
    set i | 0 <= i < |cols| :: cols[i].name
  }

  predicate DistinctNames(cols: seq<Column>) {
    forall i, j :: 0 <= i < j < |cols| ==> cols[i].name != cols[j].name
  }

  /** The column assignments of an extractor run in order on one element. */
  function Columns(n: Node, cols: seq<Column>): (d: Draft)
    ensures d.Keys == NameSet(cols)
    decreases |cols|
  {
    if cols == [] then map[]
    else
      var front := cols[..|cols| - 1];
      var c := cols[|cols| - 1];
      assert NameSet(cols) == NameSet(front) + {c.name} by {
        assert forall i :: 0 <= i < |front| ==> front[i] == cols[i];
      }
      Columns(n, front)[c.name := Coerce(c.conv, Get(n, c.attr))]
  }

  /** With distinct column names, each column holds the coerced value of its attribute. */
  lemma {:induction false} ColumnValue(n: Node, cols: seq<Column>, i: nat)
    requires DistinctNames(cols) && i < |cols|
    ensures cols[i].name in Columns(n, cols)
    ensures Columns(n, cols)[cols[i].name] == Coerce(cols[i].conv, Get(n, cols[i].attr))
    decreases |cols|
  {
    var front := cols[..|cols| - 1];
    if i < |cols| - 1 {
      assert front[i] == cols[i];
      assert DistinctNames(front);
      ColumnValue(n, front, i);
    }
  }

  /** No later column of the extractor has the name of column `i`. */
  predicate LastNamed(cols: seq<Column>, i: nat)
    requires i < |cols|
  {
    forall j :: i < j < |cols| ==> cols[j].name != cols[i].name
  }

  /** A column no later assignment overwrites holds the coerced value of its attribute. */
  lemma {:induction false} ColumnLast(n: Node, cols: seq<Column>, i: nat)
    requires i < |cols| && LastNamed(cols, i)
    ensures Sets(Columns(n, cols), cols[i].name, Coerce(cols[i].conv, Get(n, cols[i].attr)))
    decreases |cols|
  {
    var front := cols[..|cols| - 1];
    if i < |cols| - 1 {
      assert front[i] == cols[i];
      ColumnLast(n, front, i);
    }
  }

  /** A column the extractor does not overwrite afterwards survives the `None` drop
      exactly when its coerced value is not `None`. */
  lemma ColumnKept(n: Node, cols: seq<Column>, i: nat, own: Draft)
    requires i < |cols| && LastNamed(cols, i) && cols[i].name !in own
    ensures var d := DropNone(Columns(n, cols) + own);
      var v := Coerce(cols[i].conv, Get(n, cols[i].attr));
      && (cols[i].name in d <==> v.Some?)
      && (v.Some? ==> d[cols[i].name] == v.value)
  {
    ColumnLast(n, cols, i);
  }

  /** `element.get(key, default) == expected`, the flag rule of `gameloader.py`. */
  function Flag(n: Node, key: string, default: string, expected: string): bool {
    GetOr(n, key, default) == expected
  }

  /** `(element.get(key) is not None) & (element.get(key) == expected)`, the flag rule of
      `breakingball/load.py` and `models.py`. */
  function PresentAndEquals(n: Node, key: string, expected: string): bool {
    Get(n, key).Some? && Get(n, key).value == expected
  }

  /** Both flag rules are true exactly when the attribute is present and equal to the
      expected text, as long as the default differs from it. */
  lemma FlagForms(n: Node, key: string, default: string, expected: string)
    requires default != expected
    ensures Flag(n, key, default, expected) <==> key in n.attrs && n.attrs[key] == expected
    ensures PresentAndEquals(n, key, expected) <==> key in n.attrs && n.attrs[key] == expected
  {
  }

  /** Python's `'{} {}'.format(a, b)` of two attribute values: `None` prints as `None`. */
  function FormatPair(a: Option<string>, b: Option<string>): string {
    a.GetOr("None") + " " + b.GetOr("None")
  }
}
