/** The helpers of `breakingball/utils.py`: tolerant number conversion, game ids to dates
    and GameDay directory URLs, and the inclusive range of dates. */
module Utils {
  import opened Wrappers
  import opened Text
  import opened Calendar

  // ---------------------------------------------------------------------------
  // int() and float() on text
  // ---------------------------------------------------------------------------

  /** A PEP 515 digit group and its value. */
  function Unsigned(t: string): (r: Option<nat>)
    ensures r.Some? <==> DigitPart(t)
  {
    if DigitPart(t) then Some(DigitsValue(t)) else None
  }

  /** Non-empty, and nothing but digits, underscores and a leading sign. */
  predicate IntChars(t: string) {
    && |t| > 0
    && forall i :: 0 <= i < |t| ==> IsDigit(t[i]) || t[i] == '_' || (i == 0 && (t[i] == '+' || t[i] == '-'))
  }

  /** One optional leading sign: whether it is `-`, and the text after it. */
  function SplitSign(t: string): (r: (bool, string))
    ensures r.0 <==> |t| > 0 && t[0] == '-'
    ensures |t| > 0 && (t[0] == '+' || t[0] == '-') ==> r.1 == t[1..]
    ensures !(|t| > 0 && (t[0] == '+' || t[0] == '-')) ==> r.1 == t
  {
    if |t| > 0 && (t[0] == '+' || t[0] == '-') then (t[0] == '-', t[1..]) else (false, t)
  }

  /** An optional sign followed by a digit group, and its value. */
  function SignedDigits(t: string): (r: Option<int>)
    ensures r.Some? ==> IntChars(t)
    ensures r.Some? && r.value < 0 ==> t[0] == '-'
  {
    var (negative, body) := SplitSign(t);
    match Unsigned(body)
    case Some(v) => Some(if negative then -(v as int) else v as int)
    case None => None
  }

  /** Python's `int(s)` on a string in base 10: surrounding whitespace is ignored, one
      optional sign, then digits that single underscores may separate. `None` stands for
      the `ValueError` raised on anything else. */
  function IntOf(s: string): (r: Option<int>)
    ensures r.Some? ==> IntChars(Strip(s))
    ensures r.Some? && r.value < 0 ==> Strip(s)[0] == '-'
  {
    SignedDigits(Strip(s))
  }

  /** `try_int(x)`: `int(x)`, or `None` when that raises `TypeError` (x is `None`) or
      `ValueError`. */
  function TryInt(x: Option<string>): (r: Option<int>)
    ensures x.None? ==> r.None?
  {
    match x
    case None => None
    case Some(s) => IntOf(s)
  }

  /** What Python's `float()` can return: a real number, an infinity or NaN. */
  datatype Float = Finite(value: real) | Infinite(negative: bool) | NaN

  function RealPow10(e: int): (r: real)
    ensures r > 0.0
  {
    if e >= 0 then Pow10(e) as real else 1.0 / (Pow10(-e) as real)
  }

  /** `digits`, `digits.`, `.digits` or `digits.digits`. */
  function MantissaOf(m: string): (r: Option<real>)
    ensures r.Some? ==> r.value >= 0.0
  {
    var d := IndexOfAny(m, {'.'});
    var whole := m[..d];
    var frac := if d < |m| then m[d + 1..] else [];
    if (whole == [] || DigitPart(whole)) && (frac == [] || DigitPart(frac)) && (whole != [] || frac != []) then
      Some(DigitsValue(whole) as real + DigitsValue(frac) as real / (Pow10(DigitCount(frac)) as real))
    else None
  }

  /** An unsigned decimal literal: a mantissa and an optional exponent. */
  function DecimalOf(b: string): Option<real> {
    var k := IndexOfAny(b, {'e', 'E'});
    var mantissa := MantissaOf(b[..k]);
    var exponent := if k < |b| then SignedDigits(b[k + 1..]) else Some(0);
    if mantissa.Some? && exponent.Some? then Some(mantissa.value * RealPow10(exponent.value)) else None
  }

  /** Python's `float(s)` on a string: whitespace is ignored, one optional sign, then
      `inf`, `infinity` or `nan` in any case, or a decimal literal. `None` stands for the
      `ValueError` raised on anything else. */
  function FloatOf(s: string): (r: Option<Float>)
    ensures r.Some? ==> |Strip(s)| > 0
  {
    SignedFloat(Strip(s))
  }

  /** An optional sign followed by a word or a decimal literal. */
  function SignedFloat(t: string): (r: Option<Float>)
    ensures r.Some? ==> |t| > 0
  {
    var (negative, body) := SplitSign(t);
    var word := Lower(body);
    if word == "inf" || word == "infinity" then Some(Infinite(negative))
    else if word == "nan" then Some(NaN)
    else
      match DecimalOf(body)
      case Some(v) => Some(Finite(if negative then -v else v))
      case None => None
  }

  /** `try_float(x)`: `float(x)`, or `None` when that raises. */
  function TryFloat(x: Option<string>): (r: Option<Float>)
    ensures x.None? ==> r.None?
  {
    match x
    case None => None
    case Some(s) => FloatOf(s)
  }

  /** `ZeroPad(n, w)` reads back as `n` with `int()`. */
  lemma IntOfZeroPad(n: nat, w: nat)
    requires w >= 1 && n < Pow10(w)
    ensures IntOf(ZeroPad(n, w)) == Some(n)
  {
    ZeroPadValue(n, w);
    IntOfDigits(ZeroPad(n, w));
  }

  /** `int()` of a digit group with no underscore is the group's value. */
  lemma IntOfDigits(z: string)
    requires |z| > 0 && forall i :: 0 <= i < |z| ==> IsDigit(z[i])
    ensures IntOf(z) == Some(DigitsValue(z))
  {
    assert !IsSpace(z[0]) && !IsSpace(z[|z| - 1]);
    StripNoSpace(z);
    SignedPlainDigits(z);
  }

  /** A run of digits with no sign reads as its value. */
  lemma SignedPlainDigits(z: string)
    requires |z| > 0 && forall i :: 0 <= i < |z| ==> IsDigit(z[i])
    ensures SignedDigits(z) == Some(DigitsValue(z))
  {
    assert SplitSign(z) == (false, z);
    UnsignedDigits(z);
  }

  /** A run of digits is a digit group worth its value. */
  lemma UnsignedDigits(z: string)
    requires |z| > 0 && forall i :: 0 <= i < |z| ==> IsDigit(z[i])
    ensures Unsigned(z) == Some(DigitsValue(z))
  {
    assert DigitPart(z);
  }

  /** `int(str(n)) == n`: what `try_int` returns for the text of any integer. */
  lemma TryIntRoundTrip(n: int)
    ensures TryInt(Some(IntText(n))) == Some(n)
  {
    var m: nat := if n < 0 then -n else n;
    if n < 0 {
      IntOfNegativeDigits(NatToDigits(m));
    } else {
      IntOfDigits(NatToDigits(m));
    }
  }

  /** `int()` of a minus sign and a run of digits is the negated value of the digits. */
  lemma IntOfNegativeDigits(z: string)
    requires |z| > 0 && forall i :: 0 <= i < |z| ==> IsDigit(z[i])
    ensures IntOf("-" + z) == Some(-(DigitsValue(z) as int))
  {
    var t := "-" + z;
    assert t[0] == '-' && t[|t| - 1] == z[|z| - 1];
    assert !IsSpace(t[0]) && !IsSpace(t[|t| - 1]);
    StripNoSpace(t);
    SignedMinusDigits(z);
  }

  /** A minus sign and a run of digits read as the negated value. */
  lemma SignedMinusDigits(z: string)
    requires |z| > 0 && forall i :: 0 <= i < |z| ==> IsDigit(z[i])
    ensures SignedDigits("-" + z) == Some(-(DigitsValue(z) as int))
  {
    assert ("-" + z)[1..] == z;
    assert SplitSign("-" + z) == (true, z);
    UnsignedDigits(z);
  }

  /** Whitespace around the text does not change what `try_int` returns. */
  lemma TryIntIgnoresSpace(s: string)
    ensures TryInt(Some(s)) == TryInt(Some(Strip(s)))
  {
    StripIdempotent(s);
  }

  /** Text that `int()` accepts is read by `float()` as the same number. */
  lemma FloatOfIntText(s: string, n: int)
    requires IntOf(s) == Some(n)
    ensures FloatOf(s) == Some(Finite(n as real))
  {
    SignedFloatOfDigits(Strip(s));
  }

  /** A signed digit group reads as the same number with `float()` as with `int()`. */
  lemma SignedFloatOfDigits(t: string)
    requires SignedDigits(t).Some?
    ensures SignedFloat(t) == Some(Finite(SignedDigits(t).value as real))
  {
    var (negative, body) := SplitSign(t);
    assert Unsigned(body).Some?;
    DecimalOfDigits(body);
  }

  /** A digit group is a decimal literal with the same value, and none of the words. */
  lemma DecimalOfDigits(b: string)
    requires DigitPart(b)
    ensures DecimalOf(b) == Some(DigitsValue(b) as real)
    ensures Lower(b) != "inf" && Lower(b) != "infinity" && Lower(b) != "nan"
  {
    assert Lower(b)[0] == b[0];
    NoneOfIndex(b, {'e', 'E'});
    NoneOfIndex(b, {'.'});
    assert b[..|b|] == b;
    assert MantissaOf(b) == Some(DigitsValue(b) as real);
  }

  /** A digit group holds no letter and no dot. */
  lemma {:induction false} NoneOfIndex(s: string, cs: set<char>)
    requires DigitChars(s)
    requires forall c :: c in cs ==> !IsDigit(c) && c != '_'
    ensures IndexOfAny(s, cs) == |s|
  {
    if s != [] {
      assert IsDigit(s[0]) || s[0] == '_';
      NoneOfIndex(s[1..], cs);
    }
  }

  /** `int(s)` of an integer literal, as a real: `try_float('3') == 3.0`. */
  lemma TryFloatRoundTrip(n: int)
    ensures TryFloat(Some(IntText(n))) == Some(Finite(n as real))
  {
    TryIntRoundTrip(n);
    FloatOfIntText(IntText(n), n);
  }

  // ---------------------------------------------------------------------------
  // Game ids, dates and URLs
  // ---------------------------------------------------------------------------

  /** `gid_to_date(game_id)`: the year, month and day in characters 4-7, 9-10 and 12-13
      of the id, read with `int()`; `None` stands for the `ValueError` raised by `int()`
      or by `date()` when the three do not form a date. */
  function GidToDate(id: string): (r: Option<Date>)
    ensures r.Some? ==> ValidDate(r.value)
    ensures r.Some? ==> |id| >= 13
    ensures r.Some? ==>
      && IntOf(Slice(id, 4, 8)) == Some(r.value.year)
      && IntOf(Slice(id, 9, 11)) == Some(r.value.month)
      && IntOf(Slice(id, 12, 14)) == Some(r.value.day)
  {
    var year := IntOf(Slice(id, 4, 8));
    var month := IntOf(Slice(id, 9, 11));
    var day := IntOf(Slice(id, 12, 14));
    if year.Some? && month.Some? && day.Some? && ValidDate(Date(year.value, month.value, day.value)) then
      Some(Date(year.value, month.value, day.value))
    else None
  }

  /** The root of the GameDay tree. */
  const BaseUrl: string := "http://gd2.mlb.com/components/game/mlb/"

  /** `date_to_url(game_date)`: the directory of one day's games,
      `year_YYYY/month_MM/day_DD/` below the root. */
  function DateToUrl(d: Date): (r: string)
    requires ValidDate(d)
    ensures |r| == 65
    ensures r[..39] == BaseUrl
  {
    ZeroPadValue(d.year, 4);
    ZeroPadValue(d.month, 2);
    ZeroPadValue(d.day, 2);
    UrlSlices(ZeroPad(d.year, 4), ZeroPad(d.month, 2), ZeroPad(d.day, 2));
    BaseUrl + "year_" + ZeroPad(d.year, 4) + "/month_" + ZeroPad(d.month, 2) + "/day_" + ZeroPad(d.day, 2) + "/"
  }

  /** `gid_to_url(game_id)`: the game's directory below its day's directory, with `urljoin`
      read as concatenation (exact for ids that begin with `gid_` and hold no `/`, `?`,
      `#`, tab, CR or LF). */
  function GidToUrl(id: string): (r: Option<string>)
    ensures r.Some? <==> GidToDate(id).Some?
    ensures r.Some? ==> r.value == DateToUrl(GidToDate(id).value) + id + "/"
  {
    match GidToDate(id)
    case Some(d) => Some(DateToUrl(d) + id + "/")
    case None => None
  }

  /** A game id as GameDay writes it: `gid_YYYY_MM_DD` followed by the teams and game number. */
  function GidOf(d: Date, rest: string): (g: string)
    requires ValidDate(d)
    ensures |g| == 14 + |rest|
  {
    ZeroPadValue(d.year, 4);
    ZeroPadValue(d.month, 2);
    ZeroPadValue(d.day, 2);
    "gid_" + ZeroPad(d.year, 4) + "_" + ZeroPad(d.month, 2) + "_" + ZeroPad(d.day, 2) + rest
  }

  /** The date read back from a well-formed id is the date written into it. */
  lemma GidRoundTrip(d: Date, rest: string)
    requires ValidDate(d)
    ensures GidToDate(GidOf(d, rest)) == Some(d)
  {
    GidFields(d, rest);
    GidToDateOf(GidOf(d, rest), d);
  }

  /** The three fields of a written id read back as the year, the month and the day. */
  lemma GidFields(d: Date, rest: string)
    requires ValidDate(d)
    ensures var g := GidOf(d, rest);
      && IntOf(Slice(g, 4, 8)) == Some(d.year)
      && IntOf(Slice(g, 9, 11)) == Some(d.month)
      && IntOf(Slice(g, 12, 14)) == Some(d.day)
  {
    ZeroPadValue(d.year, 4);
    ZeroPadValue(d.month, 2);
    ZeroPadValue(d.day, 2);
    GidSlices(ZeroPad(d.year, 4), ZeroPad(d.month, 2), ZeroPad(d.day, 2), rest);
    IntOfZeroPad(d.year, 4);
    IntOfZeroPad(d.month, 2);
    IntOfZeroPad(d.day, 2);
  }

  /** An id whose three fields read as a valid date denotes that date. */
  lemma GidToDateOf(g: string, d: Date)
    requires ValidDate(d)
    requires IntOf(Slice(g, 4, 8)) == Some(d.year)
    requires IntOf(Slice(g, 9, 11)) == Some(d.month)
    requires IntOf(Slice(g, 12, 14)) == Some(d.day)
    ensures GidToDate(g) == Some(d)
  {
  }

  /** Where the year, the month and the day sit in a game id. */
  lemma GidSlices(y: string, m: string, d: string, rest: string)
    requires |y| == 4 && |m| == 2 && |d| == 2
    ensures var g := "gid_" + y + "_" + m + "_" + d + rest;
      Slice(g, 4, 8) == y && Slice(g, 9, 11) == m && Slice(g, 12, 14) == d
  {
    var g := "gid_" + y + "_" + m + "_" + d + rest;
    assert Slice(g, 4, 8) == g[4..8] == y;
    assert Slice(g, 9, 11) == g[9..11] == m;
    assert Slice(g, 12, 14) == g[12..14] == d;
  }

  /** A day's URL names its date: different dates have different directories. */
  lemma DateToUrlInjective(a: Date, b: Date)
    requires ValidDate(a) && ValidDate(b) && DateToUrl(a) == DateToUrl(b)
    ensures a == b
  {
    ZeroPadValue(a.year, 4);
    ZeroPadValue(a.month, 2);
    ZeroPadValue(a.day, 2);
    ZeroPadValue(b.year, 4);
    ZeroPadValue(b.month, 2);
    ZeroPadValue(b.day, 2);
    UrlSlices(ZeroPad(a.year, 4), ZeroPad(a.month, 2), ZeroPad(a.day, 2));
    UrlSlices(ZeroPad(b.year, 4), ZeroPad(b.month, 2), ZeroPad(b.day, 2));
  }

  /** Where the year, the month and the day sit in a day's URL. */
  lemma UrlSlices(y: string, m: string, d: string)
    requires |y| == 4 && |m| == 2 && |d| == 2
    ensures var u := BaseUrl + "year_" + y + "/month_" + m + "/day_" + d + "/";
      |u| == 65 && u[..39] == BaseUrl && u[44..48] == y && u[55..57] == m && u[62..64] == d
  {
  }

  /** The URL of a well-formed id is its date's directory followed by the id itself. */
  lemma GidToUrlOfGid(d: Date, rest: string)
    requires ValidDate(d)
    ensures GidToUrl(GidOf(d, rest)) == Some(DateToUrl(d) + GidOf(d, rest) + "/")
  {
    GidRoundTrip(d, rest);
  }

  // ---------------------------------------------------------------------------
  // Ranges of dates
  // ---------------------------------------------------------------------------

  /** `daterange(start_date, end_date)`: `start_date + timedelta(n)` for
      `n` in `range((end_date - start_date).days + 1)`, as the list the generator yields. */
  function DateRange(s: Date, e: Date): (r: seq<Date>)
    requires ValidDate(s) && ValidDate(e)
    ensures |r| == if Ordinal(s) <= Ordinal(e) then Ordinal(e) - Ordinal(s) + 1 else 0
  {
    var n := Ordinal(e) - Ordinal(s) + 1;
    if n <= 0 then [] else seq(n, i requires 0 <= i => PlusDays(s, i))
  }

  /** Every date of the range is valid and the `i`-th is `i` days after the start. */
  lemma DateRangeDays(s: Date, e: Date)
    requires ValidDate(s) && ValidDate(e)
    ensures forall i :: 0 <= i < |DateRange(s, e)| ==>
      ValidDate(DateRange(s, e)[i]) && Ordinal(DateRange(s, e)[i]) == Ordinal(s) + i
  {
    var r := DateRange(s, e);
    forall i | 0 <= i < |r|
      ensures ValidDate(r[i]) && Ordinal(r[i]) == Ordinal(s) + i
    {
      OrdinalAtMostMax(e);
      assert r[i] == PlusDays(s, i);
      PlusDaysOrdinal(s, i);
    }
  }

  /** A date earlier in the day numbering is earlier in Python's order. */
  lemma OrdinalLessBefore(a: Date, b: Date)
    requires ValidDate(a) && ValidDate(b) && Ordinal(a) < Ordinal(b)
    ensures Before(a, b)
  {
    if !Before(a, b) && a != b {
      OrdinalMonotone(b, a);
    }
  }

  /** The range is empty exactly when the end is before the start; otherwise it starts at
      the start, ends at the end and is strictly increasing. */
  lemma DateRangeShape(s: Date, e: Date)
    requires ValidDate(s) && ValidDate(e)
    ensures DateRange(s, e) == [] <==> Before(e, s)
    ensures DateRange(s, e) != [] ==> DateRange(s, e)[0] == s && DateRange(s, e)[|DateRange(s, e)| - 1] == e
    ensures forall i, j :: 0 <= i < j < |DateRange(s, e)| ==> Before(DateRange(s, e)[i], DateRange(s, e)[j])
  {
    var r := DateRange(s, e);
    DateRangeDays(s, e);
    if Before(e, s) {
      OrdinalMonotone(e, s);
    } else if Ordinal(e) < Ordinal(s) {
      OrdinalLessBefore(e, s);
    }
    if r != [] {
      OrdinalInjective(r[|r| - 1], e);
      OrdinalInjective(r[0], s);
    }
    forall i, j | 0 <= i < j < |r|
      ensures Before(r[i], r[j])
    {
      OrdinalLessBefore(r[i], r[j]);
    }
  }

  /** Every valid date between the start and the end, both included, is in the range. */
  lemma DateRangeComplete(s: Date, e: Date, d: Date)
    requires ValidDate(s) && ValidDate(e) && ValidDate(d)
    requires !Before(d, s) && !Before(e, d)
    ensures d in DateRange(s, e)
  {
    var r := DateRange(s, e);
    DateRangeDays(s, e);
    if Ordinal(d) < Ordinal(s) {
      OrdinalLessBefore(d, s);
    }
    if Ordinal(e) < Ordinal(d) {
      OrdinalLessBefore(e, d);
    }
    var i := Ordinal(d) - Ordinal(s);
    OrdinalInjective(r[i], d);
  }
}
