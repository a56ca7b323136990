/** The normalisation rules the extractors of all three loaders share: the league letter
    by role, the games-back sentinel and the guarded win rate. */
module Rules {
  import opened Wrappers
  import opened Doc
  import opened Records
  import Utils

  /** The `homeaway` argument: which team of the game a record is about. */
  datatype Role = Home | Away {
    /** The attribute prefix, `'home'` or `'away'`. */
    function Prefix(): string {
      match this
      case Home => "home"
      case Away => "away"
    }
  }

  /** `code[homeaway == 'away']`: the home team's league is the first letter of the
      two-letter code, the away team's the second; an `IndexError` when the code is too
      short. */
  function LeagueChar(code: string, role: Role): (r: Result<string, Fault>)
    ensures role == Home && |code| >= 1 ==> r == Success([code[0]])
    ensures role == Away && |code| >= 2 ==> r == Success([code[1]])
    ensures r.Failure? <==> |code| < (if role == Away then 2 else 1)
    ensures r.Failure? ==> r.error == IndexOutOfRange
  {
    var i := if role == Away then 1 else 0;
    if i < |code| then Success([code[i]]) else Failure(IndexOutOfRange)
  }

  /** The league of a team read from the linescore's `league` attribute, two spaces when it
      is missing. */
  function League(linescore: Node, role: Role): Result<string, Fault> {
    LeagueChar(GetOr(linescore, "league", "  "), role)
  }

  /** `'AN'` gives `'A'` to the home team and `'N'` to the away team; a missing code gives
      each a single space. */
  lemma LeagueExamples()
    ensures LeagueChar("AN", Home) == Success("A") && LeagueChar("AN", Away) == Success("N")
    ensures LeagueChar("  ", Home) == Success(" ") && LeagueChar("  ", Away) == Success(" ")
    ensures LeagueChar("A", Away) == Failure(IndexOutOfRange)
  {
  }

  /** The `games_back` and `games_back_wildcard` values from their two texts: `'-'` in the
      first sets both to 0, `'-'` in the second only the wildcard, otherwise each is
      `try_float` of its text. */
  function GamesBack(gbText: Option<string>, wcText: Option<string>): (r: (Option<Value>, Option<Value>))
    ensures gbText == Some("-") ==> r == (Some(IntV(0)), Some(IntV(0)))
    ensures gbText != Some("-") ==> r.0 == Coerce(AsFloat, gbText)
    ensures gbText != Some("-") && wcText == Some("-") ==> r.1 == Some(IntV(0))
    ensures gbText != Some("-") && wcText != Some("-") ==> r.1 == Coerce(AsFloat, wcText)
  {
    if gbText == Some("-") then (Some(IntV(0)), Some(IntV(0)))
    else if wcText == Some("-") then (Coerce(AsFloat, gbText), Some(IntV(0)))
    else (Coerce(AsFloat, gbText), Coerce(AsFloat, wcText))
  }

  /** Both texts are read from the same `<role>_games_back` attribute, so the wildcard
      value always equals `games_back`, and `'-'` makes both 0. */
  lemma GamesBackSameKey(linescore: Node, role: Role)
    ensures var t := Get(linescore, role.Prefix() + "_games_back");
      GamesBack(t, t).1 == GamesBack(t, t).0
      && (t == Some("-") ==> GamesBack(t, t).0 == Some(IntV(0)))
  {
  }

  /** `try_int(boxscore.get(key, 0))`: a missing attribute counts as 0. */
  function CountOr0(n: Node, key: string): (r: Option<int>)
    ensures key !in n.attrs ==> r == Some(0)
  {
    if key in n.attrs then Utils.TryInt(Some(n.attrs[key])) else Some(0)
  }

  /** `0 if (wins + losses) == 0 else wins / (wins + losses)`; a `TypeError` when either
      count is `None`. */
  function WinRate(wins: Option<int>, losses: Option<int>): (r: Result<Value, Fault>)
    ensures r.Failure? <==> wins.None? || losses.None?
    ensures r.Failure? ==> r.error == NoneOperand
    ensures r.Success? && wins.value + losses.value == 0 ==> r.value == IntV(0)
    ensures r.Success? && wins.value + losses.value != 0 ==>
      r.value == FloatV(Utils.Finite(wins.value as real / (wins.value + losses.value) as real))
  {
    if wins.None? || losses.None? then Failure(NoneOperand)
    else if wins.value + losses.value == 0 then Success(IntV(0))
    else Success(FloatV(Utils.Finite(wins.value as real / (wins.value + losses.value) as real)))
  }

  /** With non-negative counts the win rate is a fraction between 0 and 1, and it is 1 only
      for a team that has not lost. */
  lemma WinRateBounds(wins: nat, losses: nat)
    requires wins + losses > 0
    ensures WinRate(Some(wins), Some(losses)).Success?
    ensures var v := WinRate(Some(wins), Some(losses)).value;
      v.FloatV? && v.f.Finite? && 0.0 <= v.f.value <= 1.0 && (v.f.value == 1.0 <==> losses == 0)
  {
    var total := (wins + losses) as real;
    assert wins as real / total <= 1.0 by {
      assert wins as real <= total;
    }
    if wins as real / total == 1.0 {
      assert wins as real == total;
    }
  }

  /** 3 wins and 2 losses give 0.6; no games give 0. */
  lemma WinRateExamples()
    ensures WinRate(Some(3), Some(2)) == Success(FloatV(Utils.Finite(0.6)))
    ensures WinRate(Some(0), Some(0)) == Success(IntV(0))
    ensures WinRate(None, Some(2)) == Failure(NoneOperand)
  {
  }
}
