# breakingball, modelled in Dafny

breakingball loads MLB GameDay XML feeds into a relational database. A game is named by a
GameDay id such as `gid_2015_04_27_phimlb_slnmlb_1`; the id gives the game's date and the
directory of its files on the GameDay server. For each game a `GameLoader` fetches the
linescore, the boxscore and the innings, turns their elements into records (a game, two teams,
two team-stat lines, pitchers, batters, at-bats, pitches and runners) and stores them through a
SQLAlchemy session. It first tries to INSERT all of them ("add all, then commit"). When the
database refuses that, it rolls back and merges every record by primary key instead.

The repository holds two generations of this code, and both are modelled side by side:

- the older `gameloader.py`, which takes `gid_to_url` and `gid_to_date` from `utils.py`, and the
  older `models.py` with its own `Game.from_soup` and `Team_Stats.from_soup`;
- the newer `breakingball/load.py` with `breakingball/utils.py` and `breakingball/models.py`.

Where the two differ, the model keeps the difference and proves it:

- the pitch-id counter fallback;
- whether the session is closed when a final game is skipped;
- whether the team merge is conditional;
- the two rules for reading a boolean flag.

## Modules

- `Wrappers`: `Option` and `Result`.
- `Seqs`: small sequence lemmas.
- `Text`: Python string operations the code relies on:
  - `str.strip`;
  - slicing with clamped bounds;
  - `str(n)`;
  - zero-padded `format`;
  - PEP 515 digit groups.
- `Calendar`: `datetime.date` validity, `toordinal`, date order, and `+ timedelta(n)`.
- `Utils` (`breakingball/utils.py`):
  - `int()`/`float()` on text and `try_int`/`try_float`;
  - `gid_to_date`, `date_to_url`, `gid_to_url`, `daterange`;
  - the round trip from a date to an id and back.
- `LegacyUtils` (`utils.py`): the format-string `gid_to_url`, proved equal to the other one.
- `UtilsExamples`: the concrete cases of the utility tests, as lemmas.
- `Doc`: a parsed XML document as a tree of elements with attribute maps. It provides `get`, `find`, `find_all`, `find(name, key=value)` and `parent`.
- `Records`:
  - a record under construction, as a map from column to optional value;
  - the `None` drop;
  - the attribute-to-column extractors;
  - the two flag rules.
- `Rules`: the league letter by role, the `'-'` games-back sentinel, counts that default to 0, and the guarded win rate.
- `Schema` (`breakingball/models.py`):
  - each table's primary key and the identity of a row;
  - NOT NULL columns and column defaults;
  - `Team.from_soup`.
- `Store`: the database and the SQLAlchemy session as a class, covering:
  - committed rows keyed by primary key;
  - pending `add_all`/`merge` operations;
  - an all-or-nothing `commit` that raises `IntegrityError`;
  - `rollback`, `close`, and the `exists` query for a final game.
- `Extract`: the per-element extractors that the `parse_*` methods of both loaders share, and the "stop at the first exception" loop.
- `Loading`: what both `load` methods share:
  - merge-and-commit;
  - the add-all-or-merge-all upsert;
  - the end of `load`.
- `LegacyLoader` (`gameloader.py`) and `Loader` (`breakingball/load.py`): each `GameLoader` as a class with its parse methods and `load`. Each method is proved against a specification function, and the lemmas about those functions state what a load leaves in the database.
- `SoupModels` (`models.py`):
  - the `Game` class, with its constructor and `from_soup`;
  - `Team_Stats.from_soup`;
  - a proof that `Game.from_soup` and `parse_game` build the same game.

An exception is a `Fault` value:

| Python | `Fault` |
|---|---|
| `AttributeError` (an attribute of `None`) | `AttributeOfNone` |
| `TypeError` | `NoneOperand` |
| `ValueError` of `int()` | `NotANumber` |
| `ValueError` of `gid_to_date` | `BadGameId` |
| `IndexError` | `IndexOutOfRange` |
| `IntegrityError` | `Integrity` |

A `parse_*` loop that raises keeps the records it appended before the exception. `load` lets the exception propagate, and the session stays open.

A few behaviours of the code are worth knowing:

- Both loaders and `Team_Stats.from_soup` read `games_back_wildcard` from the same `<role>_games_back` attribute as `games_back`, so the wildcard is always equal to `games_back` (`Rules.GamesBackSameKey`).
- `breakingball/load.py` does not close the session when it skips a final game (`Loader.LoadSpec`).
- In `breakingball/load.py`, a team without an integer id makes `parse_team` raise an `IntegrityError` (`Loader.TeamWithoutIdRaises`).
- In both loaders, a session left pending after a failed merge fallback is not closed.

## Model

| member | source | states |
|---|---|---|
| Utils.TryInt | breakingball/utils.py:5-10 | `try_int` returns an optional integer instead of raising: `try_int(None)` is `None` (the `TypeError` is caught), and a `ValueError` of `int()` becomes `None`. |
| Utils.IntOf | breakingball/utils.py:7 | `int()` accepts text only when, once stripped of whitespace, it is digits and underscores with at most a leading sign; a negative result needs a leading `-`. |
| Utils.TryIntRoundTrip | breakingball/utils.py:5-10 | For every integer `n`, `try_int(str(n)) == n`. |
| Utils.TryIntIgnoresSpace | breakingball/utils.py:5-10 | Whitespace around the text does not change what `try_int` returns. |
| Utils.IntOfZeroPad | breakingball/utils.py:38-39 | A zero-padded number reads back with `int()` as that number. |
| Utils.IntOfNegativeDigits | breakingball/utils.py:7 | `int()` of `-` followed by digits is the negated value of the digits. |
| Utils.IntOfDigits | breakingball/utils.py:7 | `int()` of a digit group without underscores is the group's value. |
| Utils.FloatOf | breakingball/utils.py:15 | `float()` rejects blank text; which texts it accepts, and their values, follow from `FloatOfIntText` and the examples. |
| Utils.TryFloat | breakingball/utils.py:13-18 | `try_float` returns an optional number instead of raising: `try_float(None)` is `None`, and a `ValueError` becomes `None`. |
| Utils.FloatOfIntText | breakingball/utils.py:13-18 | Text that `int()` accepts is read by `float()` as the same number. |
| Utils.TryFloatRoundTrip | breakingball/utils.py:13-18 | `try_float` of the text of any integer is that integer as a real. |
| Utils.DecimalOfDigits | breakingball/utils.py:15 | A digit group is a decimal literal with the same value, and it is not one of the words. |
| Utils.GidToDate | breakingball/utils.py:21-26 | A date comes only from positions `[4:8]`, `[9:11]` and `[12:14]` of the id. When it is returned, it is valid and each slice reads with `int()` as its year, month or day. So a non-numeric slice, or slices that form no date, give `None`. |
| Utils.GidRoundTrip | breakingball/utils.py:22-25 | For every valid date and any suffix, `gid_to_date('gid_YYYY_MM_DD' + rest)` is that date. |
| Utils.GidSlices | breakingball/utils.py:22-24 | The three slices of a written id are the zero-padded year, month and day. |
| Utils.DateToUrl | breakingball/utils.py:36-41 | A day's URL is 65 characters long and starts with the fixed GameDay base URL. |
| Utils.DateToUrlInjective | breakingball/utils.py:36-41 | Different valid dates have different day URLs. |
| Utils.UrlSlices | breakingball/utils.py:38-39 | The year, month and day digits sit at fixed positions of a day's URL. |
| Utils.GidToUrl | breakingball/utils.py:29-33 | It fails exactly when `gid_to_date` fails; otherwise it is the day's URL, then the id, then `/`. |
| Utils.GidToUrlOfGid | breakingball/utils.py:29-33 | The URL of an id written from a date is that date's directory, the id and `/`. |
| Utils.GidOf | breakingball/utils.py:22-24 | The id GameDay writes for a date is `gid_` and the padded date (14 characters) followed by the suffix. |
| Utils.DateRange | breakingball/utils.py:44-46 | `daterange(s, e)` yields `(e - s).days + 1` dates when `s <= e`, and none otherwise. |
| Utils.DateRangeDays | breakingball/utils.py:44-46 | Every date in the range is valid, and the `i`-th is `i` days after the start. |
| Utils.DateRangeShape | breakingball/utils.py:44-46 | The range is empty exactly when `e < s`; otherwise it starts at `s`, ends at `e`, and is strictly increasing. |
| Utils.DateRangeComplete | breakingball/utils.py:44-46 | Every valid date from `s` to `e`, both included, is in the range. |
| Utils.OrdinalLessBefore | breakingball/utils.py:44-46 | A date earlier in day numbering is earlier in Python's date order. |
| Calendar.PlusDaysOrdinal | breakingball/utils.py:46 | `d + timedelta(n)` is a valid date `n` days later, as long as it stays within `date.max`. |
| Calendar.OrdinalMonotone | breakingball/utils.py:45 | Python's date order agrees with day numbers. |
| Calendar.OrdinalInjective | breakingball/utils.py:45 | Two valid dates with the same day number are the same date. |
| Calendar.NextDayOrdinal | breakingball/utils.py:46 | The day after a valid date (below `date.max`) is valid and one day later. |
| Text.Slice | breakingball/utils.py:22-24 | Python's `s[i:j]` with clamped bounds: its length and its characters. |
| Text.StripIdempotent | breakingball/utils.py:7 | Stripping the whitespace `int()` and `float()` ignore twice is stripping once. |
| Text.ZeroPadValue | breakingball/utils.py:38-39 | `'{0:0w}'.format(n)` is digits whose value is `n`, exactly `w` long when `n` fits. |
| Text.NatToDigits | breakingball/utils.py:38-39 | `str(n)` is the shortest decimal spelling of `n`: digits only, no leading zero, and its value is `n`. |
| LegacyUtils.GidToUrl | utils.py:10-15 | The format-string URL fails exactly when `gid_to_date` fails. |
| LegacyUtils.GidToUrlShape | utils.py:12-14 | The URL starts with `http://gd2.mlb.com/components/game/mlb/` and ends with the raw id followed by `/`. |
| LegacyUtils.FormatShape | utils.py:12-14 | The URL is the base followed by `year_YYYY/month_MM/day_DD/`, the id and `/`, zero-padded to widths 4, 2 and 2. |
| LegacyUtils.GidToUrlAgrees | utils.py:10-15 | On every id, valid or not, it equals `gid_to_url` of `breakingball/utils.py` with `urljoin` read as concatenation. |
| LegacyUtils.FormatAgrees | utils.py:12-14 | The one `format` call and `urljoin` of the day's URL with the id produce the same text. |
| LegacyUtils.GidToUrlOfGid | utils.py:10-15 | An id written from a date gets that date's directory. |
| UtilsExamples.TryIntDigit | test/test_utils.py:10 | `try_int('3') == 3`. |
| UtilsExamples.TryIntLetter | test/test_utils.py:11 | `try_int('a') is None`. |
| UtilsExamples.TryFloatFraction | test/test_utils.py:15 | `try_float('0.133') == .133`. |
| UtilsExamples.TryFloatNegative | test/test_utils.py:16 | `try_float('-15.2') == -15.2`. |
| UtilsExamples.TryFloatWord | test/test_utils.py:17 | `try_float('text') is None`. |
| UtilsExamples.GidToDateExample | test/test_utils.py:42-44 | `gid_to_date('gid_2015_04_27_phimlb_slnmlb_1')` is 2015-04-27. |
| UtilsExamples.GidOfExample | test/test_utils.py:42-44 | That id is the one GameDay writes for 2015-04-27. |
| UtilsExamples.GidToUrlExample | test/test_utils.py:46-49 | Its URL is `.../year_2015/month_04/day_27/gid_2015_04_27_phimlb_slnmlb_1/`. |
| UtilsExamples.DateToUrlExample | test/test_utils.py:51-54 | `date_to_url(date(2014, 5, 4))` is `.../year_2014/month_05/day_04/`. |
| UtilsExamples.DateRangeExample | test/test_utils.py:56-61 | The range from 2013-06-01 to 2013-06-07 has seven dates, from the first to the seventh. |
| Doc.Find | breakingball/load.py:29 | `find(name)` is the first element called `name` in document order, or `None` when there is none. |
| Doc.FindAll | breakingball/load.py:50 | Every element `find_all(name)` returns is called `name` and lies strictly below the tag. |
| Doc.FindWith | breakingball/load.py:108 | `find(name, team_flag=...)` is the first element with that name and attribute value, or `None`. The result sits at position `FirstWith` of `find_all(name)`, and no earlier element there carries the value. `None` means none of them does. |
| Doc.FirstWith | breakingball/load.py:108 | The position of the first hit carrying the attribute value, or the length when no hit does. No earlier hit carries it, and the hit there is the first one the attribute filter keeps. |
| Doc.Descendants | breakingball/load.py:50 | Every element it lists lies strictly below the tag. |
| Doc.Parent | breakingball/load.py:279 | `tag.parent` is `None` only for the document itself. |
| Doc.Grandparent | breakingball/load.py:233 | `tag.parent.parent`, or `None` when it does not exist. |
| Doc.FoundHasParent | breakingball/load.py:50 | Every element `find_all` returns has a parent. |
| Doc.ChildrenFound | breakingball/load.py:50 | An element's children are among its descendants, with that element as their parent. |
| Doc.Get | breakingball/load.py:61 | `tag.get(key)` is not `None` exactly when the attribute is present. |
| Doc.GetOr | gameloader.py:146 | `tag.get(key, default)` is the attribute's value when it is present (what `tag.get(key)` returns), and the default when it is missing. |
| Records.DropNone | gameloader.py:120 | The kept keys are exactly those whose value is not `None`, and each keeps its value. |
| Records.DropNoneLift | gameloader.py:120 | Dropping `None` from a dictionary that has none changes nothing, and dropping twice is dropping once. |
| Records.Coerce | gameloader.py:111-118 | A missing attribute gives `None` under every conversion; raw text is `None` exactly when the attribute is missing. |
| Records.Columns | breakingball/load.py:62-72 | The extractor's dictionary has exactly the extractor's column names as keys. |
| Records.ColumnValue | breakingball/load.py:62-72 | With distinct names, each column holds the converted value of its attribute. |
| Records.ColumnLast | breakingball/load.py:62-72 | A column no later assignment overwrites holds the converted value of its attribute. |
| Records.ColumnKept | gameloader.py:120 | Such a column survives the `None` drop exactly when its converted value is not `None`, and then with that value. |
| Records.FlagForms | gameloader.py:109 | `get(key, default) == v` and `get(key) is not None & get(key) == v` are both true exactly when the attribute is present and equal to `v`, given a default other than `v`. |
| Rules.LeagueChar | gameloader.py:146 | `code[homeaway == 'away']`: the first letter for home and the second for away; an `IndexError` when the code is too short. |
| Rules.LeagueExamples | breakingball/models.py:73 | `'AN'` gives home `'A'` and away `'N'`; a missing code gives each team `' '`. |
| Rules.GamesBack | gameloader.py:163-177 | `'-'` in the first text sets both values to 0; `'-'` in the second sets only the wildcard; otherwise each is `try_float` of its text. |
| Rules.GamesBackSameKey | gameloader.py:163-164 | Both texts come from the same attribute, so the wildcard always equals `games_back`, and `'-'` sets both to 0. |
| Rules.CountOr0 | gameloader.py:179-180 | A missing count attribute reads as 0. |
| Rules.WinRate | gameloader.py:183 | 0 when `wins + losses == 0`, `wins / (wins + losses)` otherwise; a `TypeError` when either count is `None`. |
| Rules.WinRateBounds | gameloader.py:183 | For non-negative counts the rate is between 0 and 1, and it is 1 exactly for a team with wins and no losses. |
| Rules.WinRateExamples | gameloader.py:183 | 3 wins and 2 losses give 0.6; no games give 0. |
| Schema.KeyColumns | breakingball/models.py:48-51 | Every table has a primary key of one to three columns. |
| Schema.KeyOf | breakingball/models.py:50-51 | A row's identity is its table and its key values; it is `None` exactly when a key column is missing. |
| Schema.SameKey | breakingball/models.py:50-51 | Two rows with complete keys denote the same row exactly when they are in the same table and agree on every key column. |
| Schema.KeyIgnoresOtherColumns | breakingball/models.py:50-51 | Changing or adding a non-key column does not change a row's identity. |
| Schema.WithDefaults | breakingball/models.py:137-140 | An INSERT fills each column left out with its default, and keeps every column that is set. |
| Schema.PitcherFlagsDefault | breakingball/models.py:137-140 | A pitcher record without `blown_save`, `save`, `loss` or `win` is stored with that flag False. |
| Schema.GameAdmissible | breakingball/models.py:20-42 | A game record with date, season and URL set satisfies every NOT NULL column. |
| Schema.TeamFromTags | breakingball/models.py:60-76 | `Team.from_soup` fails exactly when the boxscore, its `game_id`, the linescore game or a long-enough league code is missing. Without a boxscore it is an `AttributeError`; without a `game_id` it is a `TypeError`. Otherwise it has six keyword arguments, with the role's league letter and its division (or `''`). |
| Schema.TeamRow | breakingball/models.py:75-76 | The six keyword arguments of a new `Team`, each holding its value. |
| Schema.TeamFromTagsValues | breakingball/models.py:66-69 | `team_id` is `try_int` of `<role>_id`, `season` is `try_int` of `game_id[:4]`, and the names are the raw attributes. |
| Schema.TeamSeasonOfYear | breakingball/models.py:67 | A `game_id` whose first four characters are a zero-padded year gives that year as the season. |
| Schema.TeamSeasonOfGid | breakingball/models.py:67 | A `game_id` written as `gid_...` gives no season, because `try_int('gid_')` is `None`. |
| Extract.RefOf | gameloader.py:44-48 | The loader's date is `gid_to_date(game_id)`, its season is the date's year, and its base URL is `gid_to_url(game_id)`. |
| Extract.FlagRulesAgree | breakingball/load.py:74-75 | The newer present-and-equal flag rule and the older `get(key, default) ==` rule agree whenever the default differs from the expected text. |
| Extract.AsRow | gameloader.py:120-121 | The record built is the dictionary with its `None` values dropped, or the extractor's exception. |
| Extract.StartOf | gameloader.py:97-103 | `game_datetime` is set exactly when `'{} {}'.format(time, ampm)` parses, and then falls on the game date. |
| Extract.GameDraft | gameloader.py:82-122 | The game's id, URL, date and season come from the loader. `game_type` is the attribute or `''`. `top_inning` follows the loader's flag rule. |
| Extract.GameRow | gameloader.py:120-121 | The game record is the `games` dictionary without its `None` values. |
| Extract.GameRowKey | gameloader.py:86 | The game record is keyed by the loader's game id. |
| Extract.GameRowAdmissible | gameloader.py:82-122 | The database always accepts the game record: its date, season and URL are always set. |
| Extract.GameRowColumns | gameloader.py:97-109 | The stored season is the loader's; `top_inning` is True exactly when the attribute is `'Y'`; the start time is stored exactly when it parses. |
| Extract.GameRowStatus | gameloader.py:82-122 | The record holds the linescore's `status` exactly when the attribute is present, which is what `load` tests for `'Final'`. |
| Extract.TeamDraft | gameloader.py:134-148 | The team dictionary has six columns, with the loader's season and the role's league and division; it raises `IndexError` exactly when the league code is too short. |
| Extract.TeamRecordAdmissible | gameloader.py:134-148 | With both names present, the team record satisfies every NOT NULL column. |
| Extract.TeamRecordKey | gameloader.py:150-153 | The record keeps `team_id` exactly when `<role>_id` is an integer, and then its key is (id, season). |
| Extract.TeamStatsDraft | gameloader.py:155-200 | A `None` count fails first (`TypeError`), then a missing `batting` or `pitching` element (`AttributeError`). Otherwise every column comes from its rule. |
| Extract.StatsRecord | gameloader.py:160-197 | The team-stats dictionary: id, team, `at_home`, both games-back values, counts, win rate and `era`, each from its rule. |
| Extract.TeamStatsGamesBack | gameloader.py:163-177 | In every team-stats record the two games-back columns are equal, and `'-'` sets them to 0. |
| Extract.TeamFlag | gameloader.py:207-208 | A player's team is the `team_flag` of its parent element; a missing flag is a `TypeError`. |
| Extract.BatterDraft | gameloader.py:202-243 | The batter dictionary: the game id, the team id of its parent's team, and the batter id; a `TypeError` when the team is unknown. |
| Extract.PitcherDraft | gameloader.py:245-285 | The pitcher dictionary: its ids, with `blown_save`, `save`, `loss` and `win` passed on as raw text. |
| Extract.PitcherWinDefault | breakingball/models.py:140 | A pitcher element without `win` is stored with `win` False. |
| Extract.StrictInt | gameloader.py:291 | `int(None)` is a `TypeError`, and text `int()` rejects is a `ValueError`; otherwise the value agrees with `try_int`. |
| Extract.AtBatDraft | gameloader.py:287-316 | The at-bat number must be an integer. The inning is the grandparent's number, the half is the parent's name, and `score` is True exactly for `'T'`. |
| Extract.CounterPitchId | gameloader.py:320-326 | The pitch's own `id` as an integer (a `ValueError` when it is not one), or the counter's value when there is none. |
| Extract.PitchDraft | gameloader.py:318-368 | The pitch dictionary: the game id, the given `pitch_id`, the parent at-bat's number and the timestamp. |
| Extract.PitchIdFallback | gameloader.py:326 | A pitch without an `id` gets its position as `pitch_id` in `gameloader.py`. In `breakingball/load.py` it gets no `pitch_id`, and so no complete key. |
| Extract.PitchRecordsAgree | breakingball/load.py:261 | When the `id` is an integer, both loaders build the same pitch record. |
| Extract.PitchIdNotANumber | breakingball/load.py:261 | A non-integer `id` makes `gameloader.py` raise, and `breakingball/load.py` drop the key column. |
| Extract.RunnerDraft | gameloader.py:370-389 | The runner dictionary: its at-bat number is the parent's, and `score`, `rbi` and `earned` follow the flag rule. |
| Extract.RunnerFlags | gameloader.py:384-386 | Both loaders build the same runner record, and each flag is True exactly when its attribute is `'T'`. |
| Extract.Gather | gameloader.py:202-243 | A `parse_*` loop appends the records of a prefix of its elements, and stops at the first element that raises, reporting that exception. |
| Extract.GatherAppend | gameloader.py:397-408 | Two loops in a row, the second run only when the first did not raise, equal one loop over both. |
| Extract.GatherFault | gameloader.py:397-408 | A loop reports a fault exactly when some element raises, and all records before it were built. |
| Extract.GatherStops | gameloader.py:397-408 | After the first exception, later elements do not matter. |
| Extract.CounterPitchResults | gameloader.py:320-326 | The `i`-th pitch in document order is offered counter value `i`. |
| Extract.TryIntPitchResults | breakingball/load.py:257-302 | Each pitch is built with `try_int` of its own `id`. |
| Store.ApplyOp | breakingball/load.py:346-351 | An INSERT succeeds exactly for a complete, unused key with every NOT NULL column filled, and stores the defaults. A merge writes its columns over a stored row, or inserts a new one. |
| Store.Flush | breakingball/load.py:347 | A commit either applies every operation or raises `IntegrityError` and keeps nothing; it never removes a row. |
| Store.InsertableSnoc | breakingball/load.py:346-347 | A batch stays insertable with one more row exactly when that row has a complete key, neither stored nor used earlier in the batch, and columns the database accepts. |
| Store.InsertLastAccepted | breakingball/load.py:346-347 | One more INSERT goes in exactly when the batch with it is insertable. |
| Store.InsertLastStored | breakingball/load.py:346-347 | After an accepted INSERT, every row of the batch is stored with its defaults and the other rows are kept. |
| Store.FlushInsertsStep | breakingball/load.py:346-347 | One more INSERT keeps what `FlushInserts` states of the batch before it. |
| Store.InsertableFront | breakingball/load.py:346-347 | The front of an insertable batch is insertable. |
| Store.FlushInserts | breakingball/load.py:346-347 | `add_all` then `commit` succeeds exactly when no row lacks a key, reuses a stored or repeated key, or misses a NOT NULL column; then each row is stored with its defaults. |
| Store.UpsertLastWritten | breakingball/load.py:350-351 | Merging one more row keeps every earlier row that no later row overwrites. |
| Store.MergedAfterUpsert | breakingball/load.py:350-351 | A merge that writes the row's columns under its key and changes no other row keeps the merged state of the batch before it. |
| Store.UpsertLast | breakingball/load.py:350-351 | Merging one more row preserves the merged state of the batch before it. |
| Store.FlushUpserts | breakingball/load.py:350-351 | After the merges are committed, the following hold. Every record is stored under its key. The last record for each key has all of its columns written. No row disappears. A key no merge names keeps its row. |
| Store.UpsertsSucceed | breakingball/load.py:350-351 | Merges whose rows all have complete keys and fill every NOT NULL column always commit. |
| Store.Session.constructor | breakingball/load.py:19 | `sessionmaker()` opens a session over the database with nothing pending. |
| Store.Session.AddAll | breakingball/load.py:346 | `add_all` queues one INSERT per record, in order. |
| Store.Session.Merge | gameloader.py:150-153 | `merge` queues one merge of the record. |
| Store.Session.MergeEach | breakingball/load.py:350 | `[merge(x) for x in batch]` queues one merge per record, in order. |
| Store.Session.Commit | breakingball/load.py:347 | A commit flushes the queue: on success the rows are the flushed ones and nothing is pending; on `IntegrityError` nothing changes and the queue stays until a rollback. |
| Store.Session.Rollback | breakingball/load.py:349 | A rollback empties the queue and keeps the committed rows. |
| Store.Session.Close | breakingball/load.py:352 | `close` discards the queue and marks the session closed. |
| Loading.MergeCommit | gameloader.py:150-153 | A merge then a commit raises only `IntegrityError`, which leaves the merge pending. Otherwise the row's key is stored and nothing is pending. |
| Loading.MergeCommitStores | gameloader.py:150-153 | On an idle session, a row with a complete key and its NOT NULL columns set is stored: its columns overwrite the stored row's, or the row is inserted with defaults, and no other row changes. |
| Loading.MergeCommitWrites | gameloader.py:150-153 | Each column the row sets is written under its key, and no other row changes. |
| Loading.MergeCommitNullKey | breakingball/load.py:102-104 | A merge-and-commit of a row with a NULL key column always raises `IntegrityError`. |
| Loading.Persist | breakingball/load.py:345-351 | The `try` block ends Added exactly when the INSERTs commit, otherwise Upserted or `IntegrityError`. Only a failed fallback leaves work pending: its merges. |
| Loading.PersistAdded | breakingball/load.py:345-347 | On an idle session, the INSERTs commit exactly when the batch is insertable, and then store each record with its defaults while keeping every other row. |
| Loading.PersistMerged | breakingball/load.py:348-351 | After a successful fallback, every record is stored under its key with its columns written. |
| Loading.PersistFailed | breakingball/load.py:348-351 | The fallback fails only when some record has a NULL key or misses a NOT NULL column. |
| Loading.Then | gameloader.py:397-408 | The next parser runs only when nothing has raised yet; it only appends to `to_load`. |
| Loading.ThenThen | gameloader.py:397-408 | Two parsers in a row leave what one loop over all their elements leaves. |
| Loading.Collect | breakingball/load.py:146-185 | A `parse_*` loop, one element at a time, returns the records `Gather` gives and the first exception. |
| Loading.StoreAll | breakingball/load.py:345-351 | `add_all`, `commit`, and on `IntegrityError` a `rollback`, a merge per record and another `commit`: the resulting session is exactly what `Persist` states. |
| Loading.Finish | breakingball/load.py:343-352 | A parser's exception propagates with the session still open. Otherwise the records are stored, and the session is closed unless the fallback's commit raised. |
| Loading.FinishAdded | breakingball/load.py:345-347 | A load that ends with `add_all` stores every record as a new row with defaults and keeps the rest. |
| Loading.FinishUpserted | breakingball/load.py:348-351 | A load that falls back had its INSERTs refused, and leaves every record merged under its key. |
| Loading.FinishAddedFinal | breakingball/load.py:339-340 | A game stored by `add_all` with status `'Final'` is what the `exists` query finds. |
| LegacyLoader.TeamStep | gameloader.py:124-153 | `parse_team` merges and commits only a team whose id is an integer; a short league code raises `IndexError`; only `IntegrityError` can come from the commit. |
| LegacyLoader.TeamStepStores | gameloader.py:150-153 | A team with an integer id and both names is stored under (id, season) with every column it sets, and no other row changes. |
| LegacyLoader.TeamThen | gameloader.py:400-401 | The second `parse_team` runs only when the first did not raise; it leaves `to_load` unchanged. |
| LegacyLoader.TeamsSpec | gameloader.py:399-401 | `parse_game` appends exactly one game record, then both teams are handled in the session. |
| LegacyLoader.RecordsGather | gameloader.py:402-408 | The parsers after the teams leave what one loop over all their elements leaves. |
| LegacyLoader.ParseSpec | gameloader.py:397-408 | Without a linescore or a boxscore, nothing is parsed. Otherwise the game record comes first, and parsing stops at the first exception. |
| LegacyLoader.LoadSpec | gameloader.py:410-441 | `load` skips exactly when `skip_if_final` is set and a final game is stored, and then closes the session and changes nothing. No load removes a row. |
| LegacyLoader.LoadAddedStores | gameloader.py:433-436 | A load ending in `add_all` stores every parsed record with defaults on top of the team merges. |
| LegacyLoader.LoadUpsertedStores | gameloader.py:437-440 | After the fallback, every record of `to_load` is under its key, and the last one for each key is written in full. |
| LegacyLoader.LoadWithoutGame | gameloader.py:397-398 | Without a linescore game or a boxscore, a load on a fresh session stores nothing and closes. |
| LegacyLoader.LoadedFinalIsSkipped | gameloader.py:418-428 | Once a final game is stored, the next load with `skip_if_final` skips. |
| LegacyLoader.GameLoader.constructor | gameloader.py:38-49 | A new loader holds the derived date, season and URL, a fresh session, and an empty `to_load`. |
| LegacyLoader.GameLoader.FetchAll | gameloader.py:391-395 | `linescore` becomes the page's `game` element, `boxscore` its `boxscore` element, and `innings` the inning document. |
| LegacyLoader.GameLoader.ParseGame | gameloader.py:82-122 | It appends exactly the game record, or raises `AttributeError` without a linescore. |
| LegacyLoader.GameLoader.ParseTeam | gameloader.py:124-153 | Nothing happens without a boxscore; otherwise the session changes exactly as `TeamStep` says. |
| LegacyLoader.GameLoader.ParseTeamStats | gameloader.py:155-200 | It appends the role's team-stats record, or raises. |
| LegacyLoader.GameLoader.ParsePitchers | gameloader.py:245-285 | It appends the record of each `pitcher` element in turn, up to the first that raises. |
| LegacyLoader.GameLoader.ParseBatters | gameloader.py:202-243 | It appends the record of each `batter` element in turn, up to the first that raises. |
| LegacyLoader.GameLoader.ParseAtBats | gameloader.py:287-316 | It appends the record of each `atbat` element in turn, up to the first that raises. |
| LegacyLoader.GameLoader.ParsePitches | gameloader.py:318-368 | It appends each pitch record, with the counter fallback, up to the first that raises. |
| LegacyLoader.GameLoader.ParseRunners | gameloader.py:370-389 | It appends the record of each `runner` element in turn, up to the first that raises. |
| LegacyLoader.GameLoader.ParseAll | gameloader.py:397-408 | The session and `to_load` end exactly as `ParseSpec` states. |
| LegacyLoader.GameLoader.Load | gameloader.py:410-441 | The session, `closed` and `to_load` end exactly as `LoadSpec` states. A skipped load leaves the fetched documents as they were; any other load leaves the pages' linescore game, boxscore and innings. |
| LegacyLoader.NewGameLoader | gameloader.py:38-49 | The constructor raises `ValueError` exactly when `gid_to_date` rejects the id; otherwise the loader has the derived values and a fresh session. |
| Loader.InningsOf | breakingball/load.py:44 | Each inning page gives its first `inning` element, or `None`. |
| Loader.FirstMissing | breakingball/load.py:49-55 | The loop runs over the pages up to the first one without an inning. |
| Loader.FlattenAppend | breakingball/load.py:49-55 | Flattening two runs of innings is flattening each and concatenating. |
| Loader.FlattenLength | breakingball/load.py:49-55 | Each flattened list is as long as the sum of the innings' own lists. |
| Loader.FlattenAt | breakingball/load.py:49-55 | The `j`-th element of inning `i` follows all elements of earlier innings, so document order is kept. |
| Loader.FlattenSnoc | breakingball/load.py:49-55 | One more inning appends its own elements at the end. |
| Loader.FlattenAllSnoc | breakingball/load.py:49-55 | One more inning appends its at-bats, pitches and runners to the three lists. |
| Loader.AppendEach | breakingball/load.py:50-51 | `for x in hs: acc.append(x)` leaves `acc + hs`. |
| Loader.TeamStep | breakingball/load.py:88-104 | `parse_team` merges and commits the team unconditionally; only `IndexError` or `IntegrityError` can result. |
| Loader.TeamWithoutIdRaises | breakingball/load.py:102-104 | A team whose id is not an integer makes `parse_team` raise `IntegrityError`. |
| Loader.TeamThen | breakingball/load.py:328-329 | The second `parse_team` runs only when the first did not raise; it leaves `to_load` unchanged. |
| Loader.TeamsSpec | breakingball/load.py:327-329 | `parse_game` appends exactly one game record, then both teams are handled in the session. |
| Loader.RecordsGather | breakingball/load.py:330-336 | The parsers after the teams leave what one loop over all their elements leaves. |
| Loader.ParseSpec | breakingball/load.py:325-336 | Without a linescore or a boxscore, nothing is parsed. Otherwise the game record comes first, and parsing stops at the first exception. |
| Loader.FetchParse | breakingball/load.py:320-336 | A page without an inning raises in `fetch_innings` before anything is parsed. |
| Loader.LoadSpec | breakingball/load.py:338-352 | `load` skips exactly when `skip_if_final` is set and a final game is stored. That path leaves the session unchanged and open. |
| Loader.LoadMissingInning | breakingball/load.py:44-50 | A missing inning makes `load` raise `AttributeError`, with nothing parsed or stored and the session open. |
| Loader.LoadAddedStores | breakingball/load.py:345-347 | A load ending in `add_all` stores every parsed record with defaults on top of the team merges. |
| Loader.LoadUpsertedStores | breakingball/load.py:348-351 | After the fallback, every record of `to_load` is under its key, and the last one for each key is written in full. |
| Loader.LoadedFinalIsSkipped | breakingball/load.py:339-342 | Once a final game is stored, the next load with `skip_if_final` skips. |
| Loader.GameLoader.constructor | breakingball/load.py:17-24 | A new loader holds the derived date, season and URL, a fresh session, and an empty `to_load`. |
| Loader.GameLoader.FetchInnings | breakingball/load.py:38-55 | The lists are reset, then filled inning by inning with each inning's at-bats, pitches and runners in document order. The first page without an inning raises `AttributeError`, keeping what the earlier innings appended. |
| Loader.GameLoader.FetchAll | breakingball/load.py:320-323 | It sets the linescore game, the boxscore, and the innings as `FetchInnings` states. |
| Loader.GameLoader.ParseGame | breakingball/load.py:57-86 | It appends exactly the game record, or raises `AttributeError` without a linescore. |
| Loader.GameLoader.ParseTeam | breakingball/load.py:88-104 | Nothing happens without a boxscore; otherwise the session changes exactly as `TeamStep` says. |
| Loader.GameLoader.ParseTeamStats | breakingball/load.py:106-144 | It appends the role's team-stats record, or raises. |
| Loader.GameLoader.ParsePitchers | breakingball/load.py:187-225 | It appends the record of each `pitcher` element in turn, up to the first that raises. |
| Loader.GameLoader.ParseBatters | breakingball/load.py:146-185 | It appends the record of each `batter` element in turn, up to the first that raises. |
| Loader.GameLoader.ParseAtBats | breakingball/load.py:227-255 | It appends the record of each flattened at-bat in turn, up to the first that raises. |
| Loader.GameLoader.ParsePitches | breakingball/load.py:257-302 | It appends each flattened pitch's record, with `try_int` of its id, up to the first that raises. |
| Loader.GameLoader.ParseRunners | breakingball/load.py:304-318 | It appends the record of each flattened runner in turn, up to the first that raises. |
| Loader.GameLoader.ParseAll | breakingball/load.py:325-336 | The session and `to_load` end exactly as `ParseSpec` states. |
| Loader.GameLoader.FetchParseAll | breakingball/load.py:343-344 | An exception in `fetch_all` skips the parsers; otherwise it behaves as `FetchParse`. Either way the fetched fields are the pages' documents, with the innings flattened up to the first page without one. |
| Loader.GameLoader.Load | breakingball/load.py:338-352 | The session, `closed` and `to_load` end exactly as `LoadSpec` states. A skipped load leaves the linescore, boxscore, innings and flattened lists as they were; any other load leaves what `fetch_all` read from the pages. |
| Loader.NewGameLoader | breakingball/load.py:17-24 | The constructor raises `ValueError` exactly when `gid_to_date` rejects the id; otherwise the loader has the derived values and a fresh session. |
| SoupModels.IdOf | models.py:46 | `self.game_id` is text from the keyword arguments, or `None` when it is missing or not text. |
| SoupModels.Derive | models.py:44-48 | After `__init__`, `game_date`, `season == game_date.year` and `url` are set, and every other argument is kept. |
| SoupModels.DeriveOverwrites | models.py:44-48 | Arguments for the derived columns are always overwritten. |
| SoupModels.GameInit | models.py:44-48 | `Game(**kwargs)` raises `TypeError` without a text id and `ValueError` for an id `gid_to_date` rejects. Otherwise the derived columns are set. |
| SoupModels.GameInitOfGid | models.py:44-48 | A game with id `gid_YYYY_MM_DD...` falls on that date, in that season, under that date's directory. |
| SoupModels.Game.constructor | models.py:44-48 | The columns are the arguments followed by the three derived assignments. |
| SoupModels.Game.Assign | models.py:64-78 | `self.<name> = value` sets one column and changes no other. |
| SoupModels.Game.AssignColumns | models.py:64-78 | Assigning the attribute columns leaves the columns `Columns` states over the previous ones. |
| SoupModels.Game.Fill | models.py:58-78 | The assignments after construction leave exactly the columns `Filled` states. |
| SoupModels.NewGame | models.py:44-48 | `Game(**kwargs)` builds an object whose columns are `GameInit`'s, or raises that exception. |
| SoupModels.StartColumn | models.py:58-63 | `game_datetime` is assigned only when the time text parses, and then at the game date. |
| SoupModels.LinescoreColumns | models.py:64-78 | The columns read from the `game` element never touch the id, a derived column or the start time; `game_type` is the raw attribute and `top_inning` is True exactly for a present `'Y'`. |
| SoupModels.Filled | models.py:58-78 | The id and derived columns stay as constructed. `game_type` is the raw attribute. `top_inning` is True exactly for a present `'Y'`. `game_datetime` is set only when the time parses. |
| SoupModels.GameFromSoup | models.py:53-80 | The id is `'gid_' + gameday_link`. A missing `game` element is an `AttributeError`, a missing link a `TypeError`, and a bad id the constructor's `ValueError`. |
| SoupModels.FromSoup | models.py:53-80 | The returned object's columns are exactly `GameFromSoup`'s, or its exception is raised. |
| SoupModels.GameColsApart | models.py:64-78 | The twelve element columns are disjoint from the columns set separately. |
| SoupModels.DropNoneAgree | gameloader.py:120 | Two dictionaries that agree on every present value outside `skip` agree after the `None` drop, outside `skip`. |
| SoupModels.MergedAgree | models.py:58-78 | The constructor-and-assignment layout and the parse-dictionary layout give the same record after dropping `None`. |
| SoupModels.GameRecordsAgree | models.py:58-78 | `from_soup`'s columns and `parse_game`'s columns agree after the `None` drop, except possibly `game_type`. |
| SoupModels.StartAgree | models.py:58-63 | `from_soup` and `parse_game` read the start time the same way. |
| SoupModels.FilledMatchesParseGame | models.py:53-80 | For the same game, `from_soup` (without `None`s) equals the record `parse_game` appends, except `game_type`. They agree on that too exactly when the linescore has one. |
| SoupModels.FilledAsMerge | models.py:58-78 | The game `from_soup` builds, as a constructor part plus an element part. |
| SoupModels.ParseGameAsMerge | breakingball/load.py:57-86 | The record `parse_game` appends, as element columns followed by its own columns. |
| SoupModels.StatsOwnColumns | models.py:150-166 | The computed team-stats arguments: id, team, `at_home`, both games-back values, counts and win rate. |
| SoupModels.StatsFromSoup | models.py:145-185 | `Team_Stats.from_soup` fails, in this order, without a `game` element, a `gameday_link`, a `boxscore`, numeric counts, or a `batting` element, and succeeds exactly when all five are there. |
| SoupModels.StatsBattingApart | models.py:167-179 | The batting columns never collide with the computed ones. |
| SoupModels.StatsFromSoupRecord | models.py:150-166 | The record belongs to the linescore's game and the boxscore's team, and its two games-back columns are equal (0 for `'-'`). Both counts are numbers, and the rate is 0 when both counts are 0. |
| SoupModels.StatsMissingWins | models.py:164-166 | A missing `wins` attribute raises `TypeError` here, though the loaders count it as 0. |

## Left out

- HTTP retrieval (`requests.get`, the inning listing and its URL regex) is left out. The fetched documents are inputs (`Pages`).
- In `gameloader.py`, the inning pages' texts are concatenated and parsed as one document; that document is the input `innings`.
- BeautifulSoup parsing is modelled as an abstract element tree. `find`/`find_all` are the document-order searches in `Doc`.
- `urljoin` is modelled as concatenation. That is exact for `date_to_url`. For `gid_to_url` it is exact when the id begins with `gid_` and contains none of `/`, `?`, `#`, tab, CR or LF. Outside that range `urljoin` can differ. An id with a scheme-like prefix, such as `abc:2015_04_27_x`, replaces the base. Leading whitespace and control characters are stripped, and tab, CR and LF are removed anywhere.
- LegacyUtils.GidToUrlAgrees: it compares the format-string URL with the concatenation model of `urljoin`. The two Python functions agree only on the ids for which that model is exact (the line above). On an id such as `abc:2015_04_27_x`, which `gid_to_date` accepts, `breakingball/utils.py` returns `abc:2015_04_27_x/` while `utils.py` returns the full URL.
- Floats are modelled as exact reals, plus the infinities and NaN. Binary64 rounding is left out, so `try_float('0.133')` is exactly 133/1000.
- Utils.IntOf: `int()` and `float()` use ASCII digits and Python's whitespace set. Unicode digits are left out.
- Time parsing (`strptime` with `'%I:%M %p'`) and timestamp conversion (`dateutil` and `pytz` to America/New_York) are left out. They are injected partial functions (`Clock`, `StampParser`), and a failure omits the column.
- SQLAlchemy internals are left out. The session is the `Store.Session` class: committed rows by key, a queue of INSERT and merge operations, and an all-or-nothing commit. Autoflush, identity-map caching, relationships and per-type column checks are not modelled.
- The `exists` query is the `FinalExists` predicate over the committed rows.
- Logging calls, the Celery task (`gameloader.py:444-449`) and the `multiprocessing.Pool` driver (`breakingball/load.py:355-365`) are left out.
- `Game.from_path`, `load_from_path` and the `__main__` script of `models.py` are left out, because they read from the file system.
- `models.py` line 214 defines a second `from_soup` on `Pitcher` that builds a team. It is a copy of `Team.from_soup`, and `Schema.TeamFromTags` models that body once.
- `Team.from_soup` is identical in `models.py:102-118` and `breakingball/models.py:60-76`, and is modelled once (`Schema.TeamFromTags`).
- `gid_to_date` is identical in `utils.py` and `breakingball/utils.py`, and is modelled once (`Utils.GidToDate`).
- `gameloader.py` (line 7) and `models.py` (line 8) import `try_int` and `try_float` from `utils`, which defines neither. The model uses `breakingball/utils.py`'s (`Utils.TryInt`, `Utils.TryFloat`), including for the columns `models.py` converts in `Game.from_soup` and `Team_Stats.from_soup`.
- LegacyLoader: its records are stored into the tables of `breakingball/models.py` (`Schema`), not of `models.py`. `gameloader.py` imports `TeamStats`, `Batter`, `Runner`, `AtBat` and `Pitch` from `models`, and `models.py` defines none of them. It defines only `Game`, `Team`, `Team_Stats` and `Pitcher`, and its `Pitcher` has a `pos` column where the loader writes `position`. `breakingball/models.py` defines all eight classes, with the `position` column the loader writes.
- The `Game` constructor's keyword-only argument checking (an unknown keyword is a `TypeError`) is left out: `NewGame` requires known column names.
- `Game.from_soup` assigns one column per statement. The model assigns them as one column map (`AssignColumns`), which gives the same result because the columns are distinct.
- The type of each `None`-dropped column is not checked against its SQL type.
- `tests.py` is left out. `tests.py` expects a URL without the trailing slash, which neither `gid_to_url` produces.
- Schema.TeamSeasonOfYear: it states the season only for a `game_id` that begins with a zero-padded four-digit year, not for arbitrary text. A `gid_`-prefixed id gives `None`, because its first four characters are `gid_` (`Schema.TeamSeasonOfGid`).
