# btscreener: event-date estimation, calendar summary and collection pipeline

This project is a Dafny model of the two pieces of logic inside btscreener, a
tool that collects price and corporate-event data for a list of stock symbols
into one table.

- **Calendar summary** (`btscreener/iex.py`):
  - `estimate_next` projects every past event date one year and two years
    ahead, keeps the guesses whose own one-year projection is still after
    today, and returns the earliest survivor, or None.
  - The earnings and dividends loaders check the date columns of the records
    the API returns. The dividends loader yields no series at all when no
    record has an `exDate` field.
  - `load_calendar` assembles the five-field summary: last and next earnings
    report date, last ex-date, the dividend at that ex-date, and the next
    ex-date. As in the code, the next ex-date is estimated from the *earnings*
    report dates.
- **Collection** (`btscreener/collector.py`):
  - the DJI and favourites group lists;
  - `load_symbol_list`, which extends the caller's list in place with the
    chosen group (faves before dji before sp), fails when the list is then
    empty, and deduplicates;
  - `generate_stats`, a loop yielding one row per symbol: the backtest stats
    followed by the calendar entries;
  - `run_collection`, which indexes those rows by the symbols;
  - the `collect` command, which composes the two;
  - the cleaning of the weights page's Change cell (the text before the first
    double space) and Price cell (all commas removed).

How the model represents the world:

- Dates are day numbers and "today" is a parameter.
- The API's answers are inputs. For the calendar, they are the records of the
  earnings and dividends responses. For the collection, they are a function
  `fetch` from a symbol to its responses.
- The backtest is an abstract function from chart records to a row of named
  stats.
- The S&P 500 weights table enters as its Symbol column.
- Python's exceptions become `Failure` values:
  - the `min` ValueError inside `estimate_next` is caught, so it becomes None;
  - `max` of an empty series, a missing column, an unparseable date, a missing
    `amount` column, and reading the index of absent earnings each become
    their own error.
- The caller's list is a `PyList` object that `LoadSymbolList` modifies in
  place.

A symbol with no earnings records is not an absence. `load_earnings` builds
a frame from the empty list and then selects its `EPSReportDate` and
`fiscalEndDate` columns, which raises a KeyError, so `load_calendar` fails
(`Iex.LoadEarnings`, `Iex.LoadCalendar`). Because `load_earnings` never returns
None, `load_calendar` behind the real loaders can fail only through a loader or
through a missing `amount` column.

## Model

| member | source | states |
|---|---|---|
| Iex.Shift | btscreener/iex.py:74-75 | each date moved by the offset, order and length kept |
| Iex.Survivors | btscreener/iex.py:77-78 | a guess survives exactly when it was guessed and its one-year projection is strictly after today |
| Iex.Min | btscreener/iex.py:76-80 | the minimum is None exactly for an empty sequence; otherwise it is a member of the sequence and at most every member |
| Iex.Max | btscreener/iex.py:156 | the maximum of a non-empty sequence is a member and at least every member |
| Iex.EstimateNext | btscreener/iex.py:63-80 | None exactly when no guess survives the filter (so for no past dates); otherwise a past date plus 365 or plus 730, still ahead of today, and at most every surviving guess |
| Iex.EstimateIsOneYearGuessWhenFresh | btscreener/iex.py:74-78 | when every one-year guess survives, the estimate exists and is a one-year guess |
| Iex.EstimateNextExample | btscreener/iex.py:74-78 | a single date 486 days before today gives the one-year guess |
| Iex.FirstMissing | btscreener/iex.py:115-116 | no column is reported exactly when every column is present in some record; a reported column is one of them and absent from all records |
| Iex.FirstBadDate | btscreener/iex.py:115-116 | no column is reported exactly when every cell of every column parses as a date; a reported column has a cell that does not |
| Iex.CheckDates | btscreener/iex.py:134-135 | selecting and parsing the date columns succeeds exactly when every column exists and every cell in them is a date |
| Iex.EarningsParseImpliesCheck | btscreener/iex.py:114-116 | non-empty earnings records whose two dates all parse pass the column check |
| Iex.LoadEarnings | btscreener/iex.py:113-117 | success exactly when the "earnings" key is present, the list is non-empty and every record's two dates parse; then one earning per record with its dates |
| Iex.LoadDividends | btscreener/iex.py:132-138 | no series exactly when no record has "exDate"; a series exactly when some record has it and every record's four dates parse; then one dividend per record, indexed by its ex-date |
| Iex.MatchingIndices | btscreener/iex.py:164 | the positions of the records with the ex-date: every one of them, only those, in increasing order |
| Iex.AmountsAt | btscreener/iex.py:164 | one amount per record with the ex-date, in series order, each that record's amount (null when it has none) |
| Iex.SoleExDateMatches | btscreener/iex.py:164 | when one record alone has the ex-date, it is the only match |
| Iex.AmountAt | btscreener/iex.py:164 | a scalar exactly when one record has the ex-date, and then that record's amount; otherwise the Series of all amounts at that ex-date in order |
| Iex.BuildCalendar | btscreener/iex.py:155-177 | fails exactly for empty earnings, or for dividends that are empty, lack an amount column or come without earnings; absent earnings leave both report fields None; present earnings give the maximum report date and the estimate over the report dates; absent dividends leave the three dividend fields None; present dividends give the maximum ex-date, the amount at it, and a next ex-date equal to the next report date |
| Iex.LastDividendIsScalar | btscreener/iex.py:163-164 | with distinct ex-dates the summary succeeds and the last dividend is the plain amount of the record with the latest ex-date |
| Iex.AmountsAtUnique | btscreener/iex.py:164 | with distinct ex-dates exactly one amount is found at a record's ex-date |
| Iex.LoadCalendar | btscreener/iex.py:140-178 | a failure is a loader's or a missing amount column, never the empty-series or missing-earnings branches; a success always has a last report date; the next ex-date is None or the next report date |
| Iex.Lookup | btscreener/iex.py:171-177 | a key is found exactly when the row holds it, and what is found is that key's cell |
| Iex.Entries | btscreener/iex.py:171-177 | the summary's keys, in order: lastEPSReportDate, nextEPSReportDate, lastExDate, lastDividend, nextExDate |
| Iex.LookupEntries | btscreener/iex.py:171-177 | each of the five keys reads back its own field of the summary |
| Iex.LookupSkipsPrefix | btscreener/collector.py:119 | a lookup passes over leading entries that do not hold the key |
| Iex.LookupPastStats | btscreener/collector.py:119 | a calendar key reads past stats entries that hold no calendar key |
| Collector.ChosenGroup | btscreener/collector.py:131-137 | faves is chosen exactly when named; dji exactly when named without faves; sp exactly when named without the other two; none exactly when none of the three is named |
| Collector.GroupMembers | btscreener/collector.py:131-137 | no member is added exactly when no group is chosen or the chosen sp table is empty |
| Collector.GroupPriority | btscreener/collector.py:131-137 | faves beats dji beats sp; only the first group named in that order contributes members, and none contributes when none is named |
| Collector.GroupOrderIrrelevant | btscreener/collector.py:131-137 | the contributed members depend only on which groups are named, not on their order |
| Collector.Unique | btscreener/collector.py:141 | the result has no duplicates and holds exactly the symbols of the input |
| Collector.LoadSymbolList | btscreener/collector.py:130-141 | the caller's list is extended in place by the chosen group's members; failure exactly when the list is then empty; otherwise the symbols of the list, each once |
| Collector.SharedDefaultLeak | btscreener/collector.py:130-132 | two calls on the shared default list: the dji call also returns "fb", which is no DJI member |
| Collector.LoadGroupSymbols | btscreener/collector.py:130-141 | with a fresh empty list, failure exactly when the chosen group adds nothing; otherwise exactly the group's members, each once |
| Collector.StatsRow | btscreener/collector.py:116-119 | a symbol's row fails exactly when its calendar fails, with that failure; otherwise its labels are the stats labels followed by the five calendar keys |
| Collector.RowLayout | btscreener/collector.py:116-119 | a row is the stats entries, first and untouched, then the five calendar entries; when no stats key is a calendar key, each calendar key reads back its calendar field |
| Collector.GeneratedRows | btscreener/collector.py:114-120 | a successful generation has one row per symbol |
| Collector.GeneratedRowsSpec | btscreener/collector.py:114-120 | rows are generated exactly when every symbol's row can be built; then row i is symbol i's row; otherwise the failure is that of the first symbol whose row cannot be built |
| Collector.GeneratedRowsAllBuilt | btscreener/collector.py:114-120 | when every symbol's row is built, the generated rows are exactly those rows |
| Collector.GeneratedRowsStopsAt | btscreener/collector.py:114-120 | generation stops at the first symbol whose row cannot be built, with its failure |
| Collector.GenerateStats | btscreener/collector.py:101-120 | the loop yields exactly the rows of the generation rule for the same symbols |
| Collector.CollidingStatsKey | btscreener/collector.py:119 | a stats entry named like a calendar field gives the row a repeated label |
| Collector.Tabulate | btscreener/collector.py:124-126 | the table is built exactly when no row holds a label twice; then its index is the given symbols and its rows the given rows |
| Collector.RunCollection | btscreener/collector.py:123-127 | the table's index is the symbols in input order with one row each, row i being symbol i's row; success exactly when every symbol's row is built with no repeated label; a row failure exactly when some symbol's row cannot be built, and it carries that symbol's error |
| Collector.RunCollectionBySymbol | btscreener/collector.py:123-127 | the same outcome stated over the set of symbols collected: success exactly when each is collectable; a row failure carries a collected symbol's error; a repeated-label failure comes from a collected symbol whose row was built |
| Collector.CalendarKeysAreColumns | btscreener/collector.py:118-126 | every calendar key is a column of a non-empty table |
| Collector.Collect | btscreener/collector.py:153-156 | the configuration error exactly when no symbols and no group members are given; success exactly when there are symbols and each given symbol and group member has a row without repeated labels; a row failure carries the error of one of those symbols, a repeated-label failure comes from one of them; on success the index is duplicate-free, holds exactly the given symbols and the group's members, and the table is the collection over that index |
| Collector.FirstDoubleSpace | btscreener/collector.py:92 | the position of the first double space, or the length when there is none |
| Collector.CleanChange | btscreener/collector.py:92 | the result is a prefix holding no double space, and it is all of the cell or stops just where the cell's first double space starts |
| Collector.ChangeOfAnnotated | btscreener/collector.py:92 | a value followed by a double space and any annotation cleans to the value |
| Collector.CleanChangeIdempotent | btscreener/collector.py:92 | cleaning a cleaned cell changes nothing |
| Collector.StripCommas | btscreener/collector.py:93 | the result holds no comma and is no longer than the cell |
| Collector.StripCommasConcat | btscreener/collector.py:93 | removing commas from two joined pieces is removing them from each piece |
| Collector.StripCommasKeepsCommaFree | btscreener/collector.py:93 | a cell without commas is unchanged |
| Collector.StripCommasKeepsOthers | btscreener/collector.py:93 | every character other than a comma occurs as often as before |

## Left out

- HTTP fetching and URL formatting in `load_historical`, `load_earnings` and `load_dividends` are left out. Their responses are inputs.
- `datetime.today()` is left out; today is a parameter. Both `estimate_next` calls in `load_calendar` use the same today, although the source reads the clock on each call.
- `parsedate` is left out. A date cell is either a date, given as its day number, or something that does not parse.
- `load_sp500_weights` is left out:
  - its file reads, CSV cache and HTML parsing;
  - the `float` conversions of the Change, Price and Weight cells, because that is floating-point work.
  The string cleaning before the conversions is modelled. The table enters as its Symbol column.
- `run_backtest` is left out. Its module is not part of this model, so it is an abstract function from chart records to a row.
- Logging, the argparse subparsers, the `__main__` blocks and the extra argument `cmd_calendar` passes to `load_calendar` are left out, because they are command-line glue.
- The `collector/test/test_collect.py` timing script is left out. It makes no assertions, and the module it imports is not part of this model.
- Collector.LoadSymbolList: the default `groups=["faves"]` is not modelled. Only a library caller that omits `groups` reaches it, because the collect command always passes a list.
- Collector.Unique: Python's `list(set(...))` gives no particular order. The model keeps first occurrences in order, which is one order Python may give. Contracts about the result speak only of its elements and their distinctness.
- Collector.RunCollection: the pandas table is a sequence of rows under the index. Reconciling the rows into one column set appears only through `Columns`, and missing cells are not filled with NaN. A row holding a label twice fails the table, as pandas' alignment does. The model does not say which pandas exception that is.
- Iex.LoadCalendar: the contract states only the reachable failures and the summary's overall shape. Field by field, the summary is stated by `Iex.BuildCalendar`, which `Iex.LoadCalendar` calls.
- Iex.Entries: the calendar is read back key by key (`Iex.LookupEntries`). There is no inverse function from a row back to a summary.
- Iex.LoadEarnings and Iex.LoadDividends: pandas' NaN for a record missing a field is not a separate value. Such a cell fails to parse, and a missing amount reads as null.

## Findings

| source | as written | input that shows it | evidently intended | confidence | as-written member | corrected member |
|---|---|---|---|---|---|---|
| btscreener/collector.py:130-132 | the default `symbols=[]` is one list object, created once and extended in place by every call that relies on it | `load_symbol_list(groups=["faves"])` then `load_symbol_list(groups=["dji"])`: the second result contains "fb" | a call without explicit symbols starts from an empty list, so only the chosen group's members are returned | high, not executed | Collector.SharedDefaultLeak | Collector.LoadGroupSymbols |
