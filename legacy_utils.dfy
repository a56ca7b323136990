/** The older `utils.py`: `gid_to_date` is the same positional reading as in
    `breakingball/utils.py` (modelled once, as `Utils.GidToDate`), and `gid_to_url` builds
    the whole URL with a single format string instead of `urljoin`. */
module LegacyUtils {
  import opened Wrappers
  import opened Text
  import opened Calendar
  import Utils

  /** `gid_to_url(game_id)` of `utils.py`: one `format` call filling in the zero-padded
      year, month and day and the raw id; `None` when `gid_to_date` raises. */
  function GidToUrl(id: string): (r: Option<string>)
    ensures r.Some? <==> Utils.GidToDate(id).Some?
  {
    match Utils.GidToDate(id)
    case None => None
    case Some(d) =>
      Some("http://gd2.mlb.com/components/game/mlb/year_" + ZeroPad(d.year, 4)
        + "/month_" + ZeroPad(d.month, 2) + "/day_" + ZeroPad(d.day, 2) + "/" + id + "/")
  }

  /** The URL starts with the fixed GameDay root and ends with the raw id and a slash. */
  lemma GidToUrlShape(id: string)
    requires GidToUrl(id).Some?
    ensures |GidToUrl(id).value| == 65 + |id| + 1
    ensures GidToUrl(id).value[..39] == Utils.BaseUrl
    ensures GidToUrl(id).value[65..] == id + "/"
  {
    var d := Utils.GidToDate(id).value;
    ZeroPadValue(d.year, 4);
    ZeroPadValue(d.month, 2);
    ZeroPadValue(d.day, 2);
    FormatShape(ZeroPad(d.year, 4), ZeroPad(d.month, 2), ZeroPad(d.day, 2), id);
  }

  /** The format string filled in with a four-digit year and two-digit month and day. */
  lemma FormatShape(y: string, m: string, d: string, id: string)
    requires |y| == 4 && |m| == 2 && |d| == 2
    ensures var u := "http://gd2.mlb.com/components/game/mlb/year_" + y + "/month_" + m + "/day_" + d + "/" + id + "/";
      |u| == 65 + |id| + 1 && u[..39] == Utils.BaseUrl && u[65..] == id + "/"
  {
    var head := "http://gd2.mlb.com/components/game/mlb/year_" + y + "/month_" + m + "/day_" + d + "/";
    assert |head| == 65;
    assert head + id + "/" == head + (id + "/");
  }

  /** The format-string version agrees with `breakingball/utils.py`'s `gid_to_url` on
      every id, valid or not, with `urljoin` read as concatenation. That reading is exact
      for ids that begin with `gid_` and hold no `/`, `?`, `#`, tab, CR or LF. */
  lemma GidToUrlAgrees(id: string)
    ensures GidToUrl(id) == Utils.GidToUrl(id)
  {
    match Utils.GidToDate(id)
    case None =>
    case Some(d) => FormatAgrees(d, id);
  }

  /** The format string and `urljoin` of the day's directory and the id build the same URL. */
  lemma FormatAgrees(d: Date, id: string)
    requires ValidDate(d)
    ensures "http://gd2.mlb.com/components/game/mlb/year_" + ZeroPad(d.year, 4) + "/month_" + ZeroPad(d.month, 2)
              + "/day_" + ZeroPad(d.day, 2) + "/" + id + "/"
         == Utils.DateToUrl(d) + id + "/"
  {
    assert "http://gd2.mlb.com/components/game/mlb/year_" == Utils.BaseUrl + "year_";
  }

  /** For an id written as `gid_YYYY_MM_DD...`, the URL holds that date's directory. */
  lemma GidToUrlOfGid(d: Date, rest: string)
    requires ValidDate(d)
    ensures GidToUrl(Utils.GidOf(d, rest)) == Some(Utils.DateToUrl(d) + Utils.GidOf(d, rest) + "/")
  {
    GidToUrlAgrees(Utils.GidOf(d, rest));
    Utils.GidToUrlOfGid(d, rest);
  }
}
