/** The cases of `test/test_utils.py`, stated about the model of `breakingball/utils.py`. */
module UtilsExamples {
  import opened Wrappers
  import opened Text
  import opened Calendar
  import opened Utils

  /** `try_int('3') == 3`. */
  lemma TryIntDigit()
    ensures TryInt(Some("3")) == Some(3)
  {
    StripNoSpace("3");
    assert "3"[..0] == [];
    assert DigitsValue("3") == 3;
    assert Unsigned("3") == Some(3);
  }

  /** `try_int('a') is None`. */
  lemma TryIntLetter()
    ensures TryInt(Some("a")) == None
  {
    StripNoSpace("a");
    assert !DigitPart("a");
  }

  /** `try_float('0.133') == .133`. */
  lemma TryFloatFraction()
    ensures TryFloat(Some("0.133")) == Some(Finite(0.133))
  {
    assert !IsSpace("0.133"[0]) && !IsSpace("0.133"[4]);
    StripNoSpace("0.133");
    SignedFloat133();
  }

  lemma SignedFloat133()
    ensures SignedFloat("0.133") == Some(Finite(0.133))
  {
    assert SplitSign("0.133") == (false, "0.133");
    assert |Lower("0.133")| == 5;
    Decimal133();
  }

  lemma Decimal133()
    ensures DecimalOf("0.133") == Some(0.133)
  {
    assert IndexOfAny("0.133", {'e', 'E'}) == 5;
    assert "0.133"[..5] == "0.133";
    Mantissa133();
  }

  lemma Mantissa133()
    ensures MantissaOf("0.133") == Some(0.133)
  {
    assert IndexOfAny("0.133", {'.'}) == 1;
    assert "0.133"[..1] == "0" && "0.133"[2..] == "133";
    assert DigitsValue("0") == 0;
    assert "133"[..2] == "13" && "13"[..1] == "1";
    assert DigitsValue("133") == 133;
    assert DigitCount("133") == 3;
  }

  /** `try_float('-15.2') == -15.2`. */
  lemma TryFloatNegative()
    ensures TryFloat(Some("-15.2")) == Some(Finite(-15.2))
  {
    StripNoSpace("-15.2");
    SignedFloat152();
  }

  lemma SignedFloat152()
    ensures SignedFloat("-15.2") == Some(Finite(-15.2))
  {
    assert SplitSign("-15.2") == (true, "15.2");
    assert |Lower("15.2")| == 4;
    Decimal152();
  }

  lemma Decimal152()
    ensures DecimalOf("15.2") == Some(15.2)
  {
    assert IndexOfAny("15.2", {'e', 'E'}) == 4;
    assert "15.2"[..4] == "15.2";
    Mantissa152();
  }

  lemma Mantissa152()
    ensures MantissaOf("15.2") == Some(15.2)
  {
    assert IndexOfAny("15.2", {'.'}) == 2;
    assert "15.2"[..2] == "15" && "15.2"[3..] == "2";
    assert "15"[..1] == "1";
    assert DigitsValue("15") == 15;
    assert DigitsValue("2") == 2;
    assert DigitCount("2") == 1;
  }

  /** `try_float('text') is None`. */
  lemma TryFloatWord()
    ensures TryFloat(Some("text")) == None
  {
    StripNoSpace("text");
    assert SplitSign("text") == (false, "text");
    assert Lower("text") == "text";
    assert IndexOfAny("text", {'e', 'E'}) == 1;
    assert "text"[..1] == "t";
    assert IndexOfAny("t", {'.'}) == 1;
    assert MantissaOf("t") == None;
  }

  lemma Pad2015()
    ensures ZeroPad(2015, 4) == "2015"
  {
    assert NatToDigits(2) == "2";
    assert NatToDigits(20) == "20";
    assert NatToDigits(201) == "201";
    assert NatToDigits(2015) == "2015";
  }

  lemma Pad2014()
    ensures ZeroPad(2014, 4) == "2014"
  {
    assert NatToDigits(2) == "2";
    assert NatToDigits(20) == "20";
    assert NatToDigits(201) == "201";
    assert NatToDigits(2014) == "2014";
  }

  lemma PadMonthDay()
    ensures ZeroPad(4, 2) == "04" && ZeroPad(5, 2) == "05" && ZeroPad(27, 2) == "27"
  {
    assert NatToDigits(4) == "4" && NatToDigits(5) == "5";
    assert Zeros(1) == "0";
    assert NatToDigits(2) == "2";
    assert NatToDigits(27) == "27";
  }

  /** `gid_to_date('gid_2015_04_27_phimlb_slnmlb_1') == date(2015, 4, 27)`. */
  lemma GidToDateExample()
    ensures GidToDate("gid_2015_04_27_phimlb_slnmlb_1") == Some(Date(2015, 4, 27))
  {
    GidOfExample();
    GidRoundTrip(Date(2015, 4, 27), "_phimlb_slnmlb_1");
  }

  /** The id GameDay writes for the first game of 2015-04-27 between the two clubs. */
  lemma GidOfExample()
    ensures GidOf(Date(2015, 4, 27), "_phimlb_slnmlb_1") == "gid_2015_04_27_phimlb_slnmlb_1"
  {
    Pad2015();
    PadMonthDay();
  }

  /** `gid_to_url` of the same id: the day's directory, the id and a slash. */
  lemma GidToUrlExample()
    ensures GidToUrl("gid_2015_04_27_phimlb_slnmlb_1")
      == Some("http://gd2.mlb.com/components/game/mlb/year_2015/month_04/day_27/gid_2015_04_27_phimlb_slnmlb_1/")
  {
    GidToUrlParts();
    DayUrl20150427();
    GameUrlText();
  }

  lemma GidToUrlParts()
    ensures GidToUrl("gid_2015_04_27_phimlb_slnmlb_1")
      == Some(DateToUrl(Date(2015, 4, 27)) + "gid_2015_04_27_phimlb_slnmlb_1" + "/")
  {
    GidToDateExample();
  }

  lemma GameUrlText()
    ensures "http://gd2.mlb.com/components/game/mlb/year_2015/month_04/day_27/" + "gid_2015_04_27_phimlb_slnmlb_1" + "/"
      == "http://gd2.mlb.com/components/game/mlb/year_2015/month_04/day_27/gid_2015_04_27_phimlb_slnmlb_1/"
  {
  }

  lemma DayUrl20150427()
    ensures DateToUrl(Date(2015, 4, 27)) == "http://gd2.mlb.com/components/game/mlb/year_2015/month_04/day_27/"
  {
    Pad2015();
    PadMonthDay();
  }

  /** `date_to_url(date(2014, 5, 4))`. */
  lemma DateToUrlExample()
    ensures DateToUrl(Date(2014, 5, 4)) == "http://gd2.mlb.com/components/game/mlb/year_2014/month_05/day_04/"
  {
    Pad2014();
    PadMonthDay();
  }

  /** `test_daterange`: the first week of June 2013 has seven days, from the first to the
      seventh. */
  lemma DateRangeExample()
    ensures |DateRange(Date(2013, 6, 1), Date(2013, 6, 7))| == 7
    ensures DateRange(Date(2013, 6, 1), Date(2013, 6, 7))[0] == Date(2013, 6, 1)
    ensures DateRange(Date(2013, 6, 1), Date(2013, 6, 7))[6] == Date(2013, 6, 7)
  {
    DateRangeShape(Date(2013, 6, 1), Date(2013, 6, 7));
  }
}
