/** Character-level helpers with Python's meaning: `str.isspace`, `str.strip`,
    slicing `s[i:j]`, decimal digits with PEP 515 underscores, `str(n)` and
    `'{:0w}'.format(n)`. */
module Text {

  predicate IsDigit(c: char) {
    '0' <= c <= '9'
  }

  function DigitValue(c: char): nat
    requires IsDigit(c)
  {
    (c as int) - ('0' as int)
  }

  function DigitChar(d: nat): (c: char)
    requires d < 10
    ensures IsDigit(c) && DigitValue(c) == d
  {
    ('0' as int + d) as char
  }

  /** Python's `str.isspace`: the characters `str.strip()`, `int()` and `float()` skip. */
  predicate IsSpace(c: char) {
    var n := c as int;
    || 0x09 <= n <= 0x0D || 0x1C <= n <= 0x20 || n == 0x85 || n == 0xA0 || n == 0x1680
    || 0x2000 <= n <= 0x200A || n == 0x2028 || n == 0x2029 || n == 0x202F || n == 0x205F
    || n == 0x3000
  }

  function StripLeft(s: string): (r: string)
    ensures |r| <= |s| && r == s[|s| - |r|..]
    ensures r == [] || !IsSpace(r[0])
  {
    if |s| > 0 && IsSpace(s[0]) then StripLeft(s[1..]) else s
  }

  function StripRight(s: string): (r: string)
    ensures |r| <= |s| && r == s[..|r|]
    ensures r == [] || !IsSpace(r[|r| - 1])
  {
    if |s| > 0 && IsSpace(s[|s| - 1]) then StripRight(s[..|s| - 1]) else s
  }

  /** Python's `s.strip()`. */
  function Strip(s: string): string {
    StripRight(StripLeft(s))
  }

  /** A string whose first and last characters are not whitespace is its own strip. */
  lemma StripNoSpace(s: string)
    requires s == [] || (!IsSpace(s[0]) && !IsSpace(s[|s| - 1]))
    ensures Strip(s) == s
  {
  }

  /** Stripping twice is stripping once. */
  lemma StripIdempotent(s: string)
    ensures Strip(Strip(s)) == Strip(s)
  {
    var t := Strip(s);
    if t != [] {
      var u := StripLeft(s);
      assert t == u[..|t|];
      assert t[0] == u[0];
    }
    StripNoSpace(t);
  }

  /** ASCII lower-casing, as Python compares the words `inf` and `nan` in `float()`. */
  function Lower(s: string): (r: string)
    ensures |r| == |s|
    ensures forall i :: 0 <= i < |s| ==> (IsDigit(s[i]) ==> r[i] == s[i])
  {
    if s == [] then []
    else
      var c := s[0];
      [if 'A' <= c <= 'Z' then (c as int + 32) as char else c] + Lower(s[1..])
  }

  /** The first index of `s` holding a character of `cs`, or `|s|` when there is none. */
  function IndexOfAny(s: string, cs: set<char>): (r: nat)
    ensures r <= |s|
    ensures forall k :: 0 <= k < r ==> s[k] !in cs
    ensures r < |s| ==> s[r] in cs
  {
    if s == [] then 0
    else if s[0] in cs then 0
    else 1 + IndexOfAny(s[1..], cs)
  }

  function Min(a: int, b: int): int {
    if a < b then a else b
  }

  /** Python's `s[i:j]` for non-negative bounds: both are clamped to `len(s)`
      and an empty string results when the start is not before the stop. */
  function Slice(s: string, i: nat, j: nat): (r: string)
    ensures |r| == if Min(i, |s|) < Min(j, |s|) then Min(j, |s|) - Min(i, |s|) else 0
    ensures forall k :: 0 <= k < |r| ==> r[k] == s[i + k]
  {
    var lo := Min(i, |s|);
    var hi := Min(j, |s|);
    if lo < hi then s[lo..hi] else []
  }

  /** Every character is a digit or an underscore. */
  predicate DigitChars(s: string) {
    forall i :: 0 <= i < |s| ==> IsDigit(s[i]) || s[i] == '_'
  }

  /** PEP 515 digit group: digits, where single underscores may separate two digits. */
  predicate DigitPart(s: string) {
    && DigitChars(s)
    && |s| > 0
    && IsDigit(s[0])
    && IsDigit(s[|s| - 1])
    && forall i :: 0 <= i < |s| - 1 ==> DigitFollows(s, i)
  }

  /** An underscore at `i` is followed by a digit. */
  predicate DigitFollows(s: string, i: nat)
    requires i < |s| - 1
  {
    s[i] == '_' ==> IsDigit(s[i + 1])
  }

  /** The decimal value of the digits of `s`, underscores skipped. */
  function DigitsValue(s: string): nat
    requires DigitChars(s)
  {
    if s == [] then 0
    else if s[|s| - 1] == '_' then DigitsValue(s[..|s| - 1])
    else DigitsValue(s[..|s| - 1]) * 10 + DigitValue(s[|s| - 1])
  }

  /** How many decimal digits `s` holds. */
  function DigitCount(s: string): nat {
    if s == [] then 0
    else DigitCount(s[..|s| - 1]) + (if IsDigit(s[|s| - 1]) then 1 else 0)
  }

  function Pow10(k: nat): (r: nat)
    ensures r >= 1
  {
    if k == 0 then 1 else 10 * Pow10(k - 1)
  }

  /** Python's `str(n)` for a natural number: its shortest decimal spelling. */
  function NatToDigits(n: nat): (r: string)
    ensures |r| >= 1
    ensures forall i :: 0 <= i < |r| ==> IsDigit(r[i])
    ensures DigitsValue(r) == n
    ensures r[0] != '0' || n == 0
    decreases n
  {
    if n < 10 then [DigitChar(n)]
    else
      var front := NatToDigits(n / 10);
      var r := front + [DigitChar(n % 10)];
      assert r[..|r| - 1] == front;
      r
  }

  /** Python's `str(n)` for any integer. */
  function IntText(n: int): (r: string)
    ensures |r| >= 1
  {
    if n < 0 then "-" + NatToDigits(-n) else NatToDigits(n)
  }

  function Zeros(k: nat): (r: string)
    ensures |r| == k
    ensures forall i :: 0 <= i < k ==> r[i] == '0'
  {
    if k == 0 then [] else Zeros(k - 1) + ['0']
  }

  /** Python's `'{0:0w}'.format(n)` for `n >= 0`: `str(n)` left-padded with zeros to width `w`
      (never truncated). */
  function ZeroPad(n: nat, w: nat): (r: string)
  {
    var digits := NatToDigits(n);
    (if |digits| < w then Zeros(w - |digits|) else []) + digits
  }

  /** Leading zeros do not change a digit string's value. */
  lemma {:induction false} ZerosPrefixValue(k: nat, s: string)
    requires DigitChars(s)
    ensures DigitChars(Zeros(k) + s)
    ensures DigitsValue(Zeros(k) + s) == DigitsValue(s)
    decreases |s|
  {
    var t := Zeros(k) + s;
    if s == [] {
      assert t == Zeros(k);
      ZerosValue(k);
    } else {
      var s' := s[..|s| - 1];
      assert t[..|t| - 1] == Zeros(k) + s';
      ZerosPrefixValue(k, s');
    }
  }

  lemma {:induction false} ZerosValue(k: nat)
    ensures DigitChars(Zeros(k))
    ensures DigitsValue(Zeros(k)) == 0
  {
    var z := Zeros(k);
    assert forall i :: 0 <= i < k ==> IsDigit(z[i]);
    if k > 0 {
      assert z[..k - 1] == Zeros(k - 1);
      ZerosValue(k - 1);
      assert z[k - 1] == '0' && DigitValue('0') == 0;
      assert DigitsValue(z) == DigitsValue(z[..k - 1]) * 10 + DigitValue(z[k - 1]);
    }
  }

  /** A number below `10^w` (with `w >= 1`) has at most `w` digits. */
  lemma {:induction false} DigitsFit(n: nat, w: nat)
    requires w >= 1 && n < Pow10(w)
    ensures |NatToDigits(n)| <= w
    decreases n
  {
    if n >= 10 {
      assert Pow10(1) == 10;
      DigitsFit(n / 10, w - 1);
    }
  }

  /** `ZeroPad` is a digit group whose value is the padded number, and it has exactly
      the requested width when the number fits. */
  lemma ZeroPadValue(n: nat, w: nat)
    requires w >= 1 && n < Pow10(w)
    ensures |ZeroPad(n, w)| == w
    ensures DigitPart(ZeroPad(n, w))
    ensures forall i :: 0 <= i < w ==> IsDigit(ZeroPad(n, w)[i])
    ensures DigitsValue(ZeroPad(n, w)) == n
  {
    var digits := NatToDigits(n);
    DigitsFit(n, w);
    var k := w - |digits|;
    if k == 0 {
      assert Zeros(0) + digits == digits;
    }
    assert ZeroPad(n, w) == Zeros(k) + digits;
    ZerosPrefixValue(k, digits);
  }
}
