/** Event-date estimation and the per-symbol calendar summary of btscreener/iex.py.

    Dates are day numbers (the date `parsedate` would produce, counted in days),
    "today" is a parameter instead of a clock reading, and the HTTP responses of
    the earnings and dividends endpoints are inputs: sequences of JSON records. */
module Iex {
  import opened Wrappers

  /** A calendar date, as a number of days from some fixed epoch. */
  type Day = int

  const YearDays: int := 365
  const TwoYearDays: int := 730

  /** A value found in a JSON record: a "YYYY-MM-DD" string (given by the day it
      parses to), a number, any other text, or null. */
  datatype Raw = Null | Date(day: Day) | Number(x: real) | Text(s: string)

  /** One JSON object of an API response: field name to value. */
  type Record = map<string, Raw>

  // ---------------------------------------------------------------------------
  // estimate_next
  // ---------------------------------------------------------------------------

  /** Every date moved on by `offset` days, in the same order. */
  function Shift(dates: seq<Day>, offset: int): (r: seq<Day>)
    ensures |r| == |dates|
    ensures forall i :: 0 <= i < |dates| ==> r[i] == dates[i] + offset
  {
    seq(|dates|, i requires 0 <= i < |dates| => dates[i] + offset)
  }

  /** The guesses of estimate_next: each past date one year on, then each past date two years on. */
  function Guesses(prev: seq<Day>): seq<Day>
  {
    Shift(prev, YearDays) + Shift(prev, TwoYearDays)
  }

  /** The freshness filter: a guess survives while its own one-year projection is
      strictly after today. A midnight date against a wall-clock today compares
      exactly as day numbers do under `>`. */
  predicate StillAhead(guess: Day, today: Day)
  {
    guess + YearDays > today
  }

  /** The guesses that pass the freshness filter, in their original order. */
  function Survivors(guesses: seq<Day>, today: Day): (r: seq<Day>)
    ensures |r| <= |guesses|
    ensures forall g :: g in r <==> g in guesses && StillAhead(g, today)
  {
    if guesses == [] then []
    else if StillAhead(guesses[0], today) then [guesses[0]] + Survivors(guesses[1..], today)
    else Survivors(guesses[1..], today)
  }

  /** Python's `min` over a sequence, with the ValueError it raises on an empty
      sequence turned into None. */
  function Min(s: seq<int>): (r: Option<int>)
    ensures r.None? <==> s == []
    ensures r.Some? ==> r.value in s && forall x :: x in s ==> r.value <= x
  {
    if s == [] then None
    else
      var rest := Min(s[1..]);
      assert forall x :: x in s ==> x == s[0] || x in s[1..];
      if rest.None? then Some(s[0])
      else Some(if s[0] <= rest.value then s[0] else rest.value)
  }

  /** Python's `max` over a non-empty sequence. */
  function Max(s: seq<int>): (r: int)
    requires s != []
    ensures r in s && forall x :: x in s ==> x <= r
  {
    if |s| == 1 then s[0]
    else
      var m := Max(s[1..]);
      assert forall x :: x in s ==> x == s[0] || x in s[1..];
      if s[0] >= m then s[0] else m
  }

  /** estimate_next: the earliest guess that survives the freshness filter, or
      None when no guess does (in particular when there are no past dates). */
  function EstimateNext(prev: seq<Day>, today: Day): (r: Option<Day>)
    ensures r.None? <==> forall g :: g in Guesses(prev) ==> !StillAhead(g, today)
    ensures r.Some? ==>
      exists i :: 0 <= i < |prev| && (r.value == prev[i] + YearDays || r.value == prev[i] + TwoYearDays)
    ensures r.Some? ==> r.value + YearDays > today
    ensures r.Some? ==> forall g :: g in Guesses(prev) && StillAhead(g, today) ==> r.value <= g
  {
    var r := Min(Survivors(Guesses(prev), today));
    if r.Some? then
      assert r.value in Guesses(prev);
      var k :| 0 <= k < |Guesses(prev)| && Guesses(prev)[k] == r.value;
      assert k < |prev| ==> r.value == prev[k] + YearDays;
      assert k >= |prev| ==> r.value == prev[k - |prev|] + TwoYearDays;
      r
    else
      r
  }

  /** A guess two years on never beats the one-year guess from the same date when
      that one survives, so the estimate only falls back to two years for dates
      whose one-year guess is already stale. */
  lemma {:induction false} EstimateIsOneYearGuessWhenFresh(prev: seq<Day>, today: Day)
    requires forall i :: 0 <= i < |prev| ==> StillAhead(prev[i] + YearDays, today)
    requires prev != []
    ensures EstimateNext(prev, today).Some?
    ensures exists i :: 0 <= i < |prev| && EstimateNext(prev, today).value == prev[i] + YearDays
  {
    var g := Guesses(prev);
    assert g[0] == prev[0] + YearDays && StillAhead(g[0], today);
    var r := EstimateNext(prev, today).value;
    var i :| 0 <= i < |prev| && (r == prev[i] + YearDays || r == prev[i] + TwoYearDays);
    assert g[i] == prev[i] + YearDays && g[i] in g;
    assert r <= g[i];
  }

  /** The worked case of a single past date 486 days ago (2023-02-01 seen from
      2024-06-01): both guesses survive and the one-year guess is chosen. */
  lemma EstimateNextExample(d: Day)
    ensures EstimateNext([d], d + 486) == Some(d + 365)
  {
    var g := Guesses([d]);
    assert g == [d + 365, d + 730];
    assert g[0] in g && StillAhead(g[0], d + 486);
  }

  // ---------------------------------------------------------------------------
  // load_earnings and load_dividends: turning response records into series
  // ---------------------------------------------------------------------------

  /** What goes wrong while turning a response into a series: the response has no
      "earnings" key; a date column that no record has (pandas' KeyError); or a
      record whose cell in a date column is absent or not a date string (the
      TypeError or ValueError of strptime). */
  datatype LoadError = NoEarningsKey | MissingColumn(column: string) | BadDate(column: string)

  const EarningsDateColumns: seq<string> := ["EPSReportDate", "fiscalEndDate"]
  const DividendDateColumns: seq<string> := ["declaredDate", "exDate", "paymentDate", "recordDate"]

  /** Some record has the field, so pandas builds a column for it. */
  predicate HasColumn(rows: seq<Record>, column: string)
  {
    exists i :: 0 <= i < |rows| && column in rows[i]
  }

  /** The record's cell in this column parses as a date. */
  predicate DateAt(row: Record, column: string)
  {
    column in row && row[column].Date?
  }

  /** The first of the columns that no record has. */
  function FirstMissing(rows: seq<Record>, columns: seq<string>): (r: Option<string>)
    ensures r.None? <==> forall c :: c in columns ==> HasColumn(rows, c)
    ensures r.Some? ==> r.value in columns && !HasColumn(rows, r.value)
  {
    if columns == [] then None
    else if !HasColumn(rows, columns[0]) then Some(columns[0])
    else FirstMissing(rows, columns[1..])
  }

  /** The first of the columns in which some record's cell is not a date. */
  function FirstBadDate(rows: seq<Record>, columns: seq<string>): (r: Option<string>)
    ensures r.None? <==> forall i, j :: 0 <= i < |rows| && 0 <= j < |columns| ==> DateAt(rows[i], columns[j])
    ensures r.Some? ==> r.value in columns && exists i :: 0 <= i < |rows| && !DateAt(rows[i], r.value)
  {
    if columns == [] then None
    else if exists i :: 0 <= i < |rows| && !DateAt(rows[i], columns[0]) then
      var i :| 0 <= i < |rows| && !DateAt(rows[i], columns[0]);
      assert columns[0] in columns;
      Some(columns[0])
    else
      assert forall j :: 1 <= j < |columns| ==> columns[j] == columns[1..][j - 1];
      FirstBadDate(rows, columns[1..])
  }

  /** Selecting the date columns and parsing every cell in them: a missing column
      fails before any cell is parsed. */
  function CheckDates(rows: seq<Record>, columns: seq<string>): (r: Option<LoadError>)
    ensures r.None? <==>
      (forall c :: c in columns ==> HasColumn(rows, c)) &&
      (forall i, j :: 0 <= i < |rows| && 0 <= j < |columns| ==> DateAt(rows[i], columns[j]))
  {
    match FirstMissing(rows, columns)
    case Some(c) => Some(MissingColumn(c))
    case None =>
      match FirstBadDate(rows, columns)
      case Some(c) => Some(BadDate(c))
      case None => None
  }

  /** One earnings record, indexed by its report date. */
  datatype Earning = Earning(reportDate: Day, fiscalEndDate: Day)

  /** One dividend record, indexed by its ex-date; `amount` is None when the
      record has no "amount" field. */
  datatype Dividend = Dividend(declaredDate: Day, exDate: Day, paymentDate: Day, recordDate: Day, amount: Option<Raw>)

  /** Both date fields of an earnings record parse. */
  predicate ParsesAsEarning(row: Record)
  {
    DateAt(row, "EPSReportDate") && DateAt(row, "fiscalEndDate")
  }

  /** All four date fields of a dividend record parse. */
  predicate ParsesAsDividend(row: Record)
  {
    DateAt(row, "declaredDate") && DateAt(row, "exDate") && DateAt(row, "paymentDate") && DateAt(row, "recordDate")
  }

  /** The earnings record of a response record whose two date fields parse. */
  function EarningOf(row: Record): Earning
    requires ParsesAsEarning(row)
  {
    Earning(row["EPSReportDate"].day, row["fiscalEndDate"].day)
  }

  /** The dividend record of a response record whose four date fields parse. */
  function DividendOf(row: Record): Dividend
    requires ParsesAsDividend(row)
  {
    Dividend(row["declaredDate"].day, row["exDate"].day, row["paymentDate"].day, row["recordDate"].day,
             if "amount" in row then Some(row["amount"]) else None)
  }

  /** Records that all parse as earnings pass the column check. */
  lemma EarningsParseImpliesCheck(rows: seq<Record>)
    ensures rows != [] && (forall i :: 0 <= i < |rows| ==> ParsesAsEarning(rows[i])) ==>
      CheckDates(rows, EarningsDateColumns).None?
  {
    if rows != [] && forall i :: 0 <= i < |rows| ==> ParsesAsEarning(rows[i]) {
      assert ParsesAsEarning(rows[0]);
      forall c | c in EarningsDateColumns ensures HasColumn(rows, c) {
        assert c in rows[0];
      }
      forall i, j | 0 <= i < |rows| && 0 <= j < |EarningsDateColumns|
        ensures DateAt(rows[i], EarningsDateColumns[j])
      {
        assert ParsesAsEarning(rows[i]);
      }
    }
  }

  /** load_earnings after the fetch: `response` is the list under the "earnings"
      key of the response, None when that key is absent. */
  function LoadEarnings(response: Option<seq<Record>>): (r: Result<seq<Earning>, LoadError>)
    ensures r.Success? <==>
      response.Some? && response.value != [] &&
      (forall i :: 0 <= i < |response.value| ==> ParsesAsEarning(response.value[i]))
    ensures r.Success? ==>
      |r.value| == |response.value| &&
      forall i :: 0 <= i < |r.value| ==>
        r.value[i].reportDate == response.value[i]["EPSReportDate"].day &&
        r.value[i].fiscalEndDate == response.value[i]["fiscalEndDate"].day
  {
    match response
    case None => Failure(NoEarningsKey)
    case Some(rows) =>
      var check := CheckDates(rows, EarningsDateColumns);
      EarningsParseImpliesCheck(rows);
      if check.Some? then Failure(check.value)
      else
        assert EarningsDateColumns[0] == "EPSReportDate" && EarningsDateColumns[1] == "fiscalEndDate";
        assert HasColumn(rows, "EPSReportDate");
        assert forall i :: 0 <= i < |rows| ==> ParsesAsEarning(rows[i]) by {
          forall i | 0 <= i < |rows| ensures ParsesAsEarning(rows[i]) {
            assert DateAt(rows[i], EarningsDateColumns[0]) && DateAt(rows[i], EarningsDateColumns[1]);
          }
        }
        Success(seq(|rows|, i requires 0 <= i < |rows| => EarningOf(rows[i])))
  }

  /** load_dividends after the fetch: no series at all when no record has an
      "exDate" field (an empty response included); otherwise every date column
      must parse in every record. */
  function LoadDividends(rows: seq<Record>): (r: Result<Option<seq<Dividend>>, LoadError>)
    ensures r == Success(None) <==> !HasColumn(rows, "exDate")
    ensures r.Success? && r.value.Some? <==>
      HasColumn(rows, "exDate") &&
      (forall i :: 0 <= i < |rows| ==> ParsesAsDividend(rows[i]))
    ensures r.Success? && r.value.Some? ==>
      |r.value.value| == |rows| > 0 &&
      forall i :: 0 <= i < |rows| ==>
        r.value.value[i] == DividendOf(rows[i]) && r.value.value[i].exDate == rows[i]["exDate"].day
  {
    if !HasColumn(rows, "exDate") then Success(None)
    else
      var check := CheckDates(rows, DividendDateColumns);
      assert DividendDateColumns == ["declaredDate", "exDate", "paymentDate", "recordDate"];
      if check.Some? then Failure(check.value)
      else
        assert forall i :: 0 <= i < |rows| ==> ParsesAsDividend(rows[i]) by {
          forall i | 0 <= i < |rows| ensures ParsesAsDividend(rows[i]) {
            assert DateAt(rows[i], DividendDateColumns[0]) && DateAt(rows[i], DividendDateColumns[1]);
            assert DateAt(rows[i], DividendDateColumns[2]) && DateAt(rows[i], DividendDateColumns[3]);
          }
        }
        Success(Some(seq(|rows|, i requires 0 <= i < |rows| => DividendOf(rows[i]))))
  }

  // ---------------------------------------------------------------------------
  // load_calendar
  // ---------------------------------------------------------------------------

  /** The value `.loc[exDate, "amount"]` gives: a scalar when one record has that
      ex-date, a Series of the amounts when several do. */
  datatype Amount = Scalar(value: Raw) | Series(values: seq<Raw>)

  /** The five-field calendar summary of one symbol. */
  datatype Calendar = Calendar(
    lastEPSReportDate: Option<Day>,
    nextEPSReportDate: Option<Day>,
    lastExDate: Option<Day>,
    lastDividend: Option<Amount>,
    nextExDate: Option<Day>)

  /** Why load_calendar fails: a loader failed; `max` of an empty series (a
      ValueError); no "amount" column to look up (a KeyError); or dividends
      without earnings, whose missing index the next ex-date is read from (an
      AttributeError on None). */
  datatype CalendarError = Load(cause: LoadError) | EmptyEarnings | EmptyDividends | NoAmountColumn | NoEarningsIndex

  function ReportDates(earnings: seq<Earning>): (r: seq<Day>)
    ensures |r| == |earnings|
    ensures forall i :: 0 <= i < |earnings| ==> r[i] == earnings[i].reportDate
  {
    seq(|earnings|, i requires 0 <= i < |earnings| => earnings[i].reportDate)
  }

  function ExDates(dividends: seq<Dividend>): (r: seq<Day>)
    ensures |r| == |dividends|
    ensures forall i :: 0 <= i < |dividends| ==> r[i] == dividends[i].exDate
  {
    seq(|dividends|, i requires 0 <= i < |dividends| => dividends[i].exDate)
  }

  /** Some dividend record has an "amount" field, so pandas has that column. */
  predicate HasAmount(dividends: seq<Dividend>)
  {
    exists i :: 0 <= i < |dividends| && dividends[i].amount.Some?
  }

  /** The amount a dividend record contributes to the "amount" column: its
      field, or null (NaN) when the record has none. */
  function AmountOf(d: Dividend): Raw
  {
    if d.amount.Some? then d.amount.value else Null
  }

  /** The positions of the records with the given ex-date: each of them, once, in
      increasing order. */
  function MatchingIndices(dividends: seq<Dividend>, exDate: Day): (r: seq<nat>)
    ensures forall k :: 0 <= k < |r| ==> r[k] < |dividends| && dividends[r[k]].exDate == exDate
    ensures forall k, l :: 0 <= k < l < |r| ==> r[k] < r[l]
    ensures forall i :: 0 <= i < |dividends| && dividends[i].exDate == exDate ==> i in r
  {
    if dividends == [] then []
    else
      var n := |dividends| - 1;
      var init := MatchingIndices(dividends[..n], exDate);
      assert forall i :: 0 <= i < n ==> dividends[..n][i] == dividends[i];
      if dividends[n].exDate == exDate then init + [n] else init
  }

  /** The amounts `.loc` finds at an ex-date: that of every record with the
      ex-date, in series order. */
  function AmountsAt(dividends: seq<Dividend>, exDate: Day): (r: seq<Raw>)
    ensures |r| == |MatchingIndices(dividends, exDate)|
    ensures forall k :: 0 <= k < |r| ==> r[k] == AmountOf(dividends[MatchingIndices(dividends, exDate)[k]])
  {
    if dividends == [] then []
    else
      var n := |dividends| - 1;
      var init := AmountsAt(dividends[..n], exDate);
      var m := MatchingIndices(dividends[..n], exDate);
      assert forall k :: 0 <= k < |m| ==> dividends[..n][m[k]] == dividends[m[k]];
      if dividends[n].exDate == exDate then init + [AmountOf(dividends[n])] else init
  }

  /** Record i is the only record with this ex-date. */
  predicate SoleExDate(dividends: seq<Dividend>, exDate: Day, i: int)
  {
    0 <= i < |dividends| && dividends[i].exDate == exDate &&
    forall j :: 0 <= j < |dividends| && dividends[j].exDate == exDate ==> j == i
  }

  /** In a strictly increasing sequence the first element is below the second. */
  lemma FirstTwoIncrease(m: seq<nat>)
    requires forall k, l :: 0 <= k < l < |m| ==> m[k] < m[l]
    ensures |m| >= 2 ==> m[0] < m[1]
  {
  }

  /** When record i alone has the ex-date, it is the only match. */
  lemma SoleExDateMatches(dividends: seq<Dividend>, exDate: Day, i: int)
    requires SoleExDate(dividends, exDate, i)
    ensures MatchingIndices(dividends, exDate) == [i]
  {
    var m := MatchingIndices(dividends, exDate);
    assert i in m;
    assert forall k :: 0 <= k < |m| ==> m[k] == i;
    FirstTwoIncrease(m);
  }

  /** The `.loc[exDate, "amount"]` lookup: a scalar exactly when one record has the
      ex-date, and then that record's amount; otherwise the Series of all the
      amounts there. */
  function AmountAt(dividends: seq<Dividend>, exDate: Day): (r: Amount)
    ensures r.Scalar? <==> exists i :: SoleExDate(dividends, exDate, i)
    ensures r.Scalar? ==> forall i :: SoleExDate(dividends, exDate, i) ==> r.value == AmountOf(dividends[i])
    ensures r.Series? ==> r.values == AmountsAt(dividends, exDate)
  {
    var amounts := AmountsAt(dividends, exDate);
    var m := MatchingIndices(dividends, exDate);
    assert forall i :: SoleExDate(dividends, exDate, i) ==> m == [i] by {
      forall i | SoleExDate(dividends, exDate, i) ensures m == [i] {
        SoleExDateMatches(dividends, exDate, i);
      }
    }
    assert |amounts| == 1 ==> SoleExDate(dividends, exDate, m[0]);
    if |amounts| == 1 then Scalar(amounts[0]) else Series(amounts)
  }

  /** The summary load_calendar assembles once both series are loaded: the last
      and next report dates from the earnings, the last ex-date and its dividend
      from the dividends, and the next ex-date estimated, as written, from the
      earnings report dates. */
  function BuildCalendar(earnings: Option<seq<Earning>>, dividends: Option<seq<Dividend>>, today: Day)
    : (r: Result<Calendar, CalendarError>)
    ensures r.Failure? <==>
      earnings == Some([]) ||
      (earnings != Some([]) && dividends.Some? &&
       (dividends.value == [] || !HasAmount(dividends.value) || earnings.None?))
    ensures r.Success? && earnings.None? ==>
      r.value.lastEPSReportDate.None? && r.value.nextEPSReportDate.None?
    ensures r.Success? && earnings.Some? ==>
      var dates := ReportDates(earnings.value);
      r.value.lastEPSReportDate.Some? && r.value.lastEPSReportDate.value in dates &&
      (forall d :: d in dates ==> d <= r.value.lastEPSReportDate.value) &&
      r.value.nextEPSReportDate == EstimateNext(dates, today)
    ensures r.Success? && dividends.None? ==>
      r.value.lastExDate.None? && r.value.lastDividend.None? && r.value.nextExDate.None?
    ensures r.Success? && dividends.Some? ==>
      var exDates := ExDates(dividends.value);
      r.value.lastExDate.Some? && r.value.lastExDate.value in exDates &&
      (forall d :: d in exDates ==> d <= r.value.lastExDate.value) &&
      r.value.lastDividend == Some(AmountAt(dividends.value, r.value.lastExDate.value)) &&
      r.value.nextExDate == r.value.nextEPSReportDate
  {
    var (lastReport, nextReport) :-
      match earnings
      case None => Success((None, None))
      case Some(e) =>
        if e == [] then Failure(EmptyEarnings)
        else Success((Some(Max(ReportDates(e))), EstimateNext(ReportDates(e), today)));
    match dividends
    case None => Success(Calendar(lastReport, nextReport, None, None, None))
    case Some(d) =>
      if d == [] then Failure(EmptyDividends)
      else if !HasAmount(d) then Failure(NoAmountColumn)
      else if earnings.None? then Failure(NoEarningsIndex)
      else
        var lastEx := Max(ExDates(d));
        Success(Calendar(lastReport, nextReport, Some(lastEx), Some(AmountAt(d, lastEx)),
                         EstimateNext(ReportDates(earnings.value), today)))
  }

  /** When no two dividend records share an ex-date, the last dividend is the
      plain amount of the one record with the latest ex-date. */
  lemma LastDividendIsScalar(earnings: seq<Earning>, dividends: seq<Dividend>, today: Day)
    requires earnings != [] && HasAmount(dividends)
    requires forall i, j :: 0 <= i < j < |dividends| ==> dividends[i].exDate != dividends[j].exDate
    ensures BuildCalendar(Some(earnings), Some(dividends), today).Success?
    ensures
      var c := BuildCalendar(Some(earnings), Some(dividends), today).value;
      exists i :: 0 <= i < |dividends| &&
        c.lastExDate == Some(dividends[i].exDate) && c.lastDividend == Some(Scalar(AmountOf(dividends[i])))
  {
    var c := BuildCalendar(Some(earnings), Some(dividends), today).value;
    var lastEx := c.lastExDate.value;
    var k :| 0 <= k < |dividends| && dividends[k].exDate == lastEx;
    assert SoleExDate(dividends, lastEx, k);
  }

  /** With distinct ex-dates, exactly one amount is found at the ex-date of record k. */
  lemma AmountsAtUnique(dividends: seq<Dividend>, k: nat)
    requires k < |dividends|
    requires forall i, j :: 0 <= i < j < |dividends| ==> dividends[i].exDate != dividends[j].exDate
    ensures AmountsAt(dividends, dividends[k].exDate) == [AmountOf(dividends[k])]
  {
    SoleExDateMatches(dividends, dividends[k].exDate, k);
  }

  /** load_calendar with the two fetches replaced by their responses: the earnings
      are loaded, then the dividends, then the summary is built. */
  function LoadCalendar(earningsResponse: Option<seq<Record>>, dividendRows: seq<Record>, today: Day)
    : (r: Result<Calendar, CalendarError>)
    ensures r.Failure? ==> r.error.Load? || r.error == NoAmountColumn
    ensures r.Success? ==> r.value.lastEPSReportDate.Some?
    ensures r.Success? ==> r.value.nextExDate.None? || r.value.nextExDate == r.value.nextEPSReportDate
  {
    var earnings := LoadEarnings(earningsResponse);
    if earnings.Failure? then Failure(Load(earnings.error))
    else
      var dividends := LoadDividends(dividendRows);
      if dividends.Failure? then Failure(Load(dividends.error))
      else BuildCalendar(Some(earnings.value), dividends.value, today)
  }

  // ---------------------------------------------------------------------------
  // The calendar as a row of named cells
  // ---------------------------------------------------------------------------

  /** One cell of a table row: absent (None/NaN), a date, a single value, or a
      Series of values. */
  datatype Cell = Empty | DayCell(day: Day) | Value(raw: Raw) | Values(raws: seq<Raw>)

  /** A pandas Series: named cells in order. */
  type Row = seq<(string, Cell)>

  const CalendarKeys: seq<string> :=
    ["lastEPSReportDate", "nextEPSReportDate", "lastExDate", "lastDividend", "nextExDate"]

  function Keys(row: Row): (r: seq<string>)
    ensures |r| == |row|
    ensures forall i :: 0 <= i < |row| ==> r[i] == row[i].0
  {
    seq(|row|, i requires 0 <= i < |row| => row[i].0)
  }

  /** The cell of the first entry with this key. */
  function Lookup(row: Row, key: string): (r: Option<Cell>)
    ensures r.None? <==> key !in Keys(row)
    ensures r.Some? ==> (key, r.value) in row
  {
    if row == [] then None
    else if row[0].0 == key then Some(row[0].1)
    else
      assert Keys(row) == [row[0].0] + Keys(row[1..]);
      Lookup(row[1..], key)
  }

  function DateCell(d: Option<Day>): Cell
  {
    if d.Some? then DayCell(d.value) else Empty
  }

  function AmountCell(a: Option<Amount>): Cell
  {
    match a
    case None => Empty
    case Some(Scalar(x)) => Value(x)
    case Some(Series(xs)) => Values(xs)
  }

  /** The calendar as the ordered Series load_calendar returns. */
  function Entries(c: Calendar): (r: Row)
    ensures Keys(r) == CalendarKeys
  {
    [ ("lastEPSReportDate", DateCell(c.lastEPSReportDate)),
      ("nextEPSReportDate", DateCell(c.nextEPSReportDate)),
      ("lastExDate", DateCell(c.lastExDate)),
      ("lastDividend", AmountCell(c.lastDividend)),
      ("nextExDate", DateCell(c.nextExDate)) ]
  }

  /** A calendar key is never found among stats entries that hold no calendar key. */
  lemma LookupPastStats(stats: Row, rest: Row, key: string)
    requires forall i :: 0 <= i < |stats| ==> stats[i].0 !in CalendarKeys
    requires key in CalendarKeys
    ensures Lookup(stats + rest, key) == Lookup(rest, key)
  {
    LookupSkipsPrefix(stats, rest, key);
  }

  /** Each calendar key finds its own field's cell in the calendar's entries, so
      the Series gives back every field of the summary. */
  lemma LookupEntries(c: Calendar)
    ensures Lookup(Entries(c), "lastEPSReportDate") == Some(DateCell(c.lastEPSReportDate))
    ensures Lookup(Entries(c), "nextEPSReportDate") == Some(DateCell(c.nextEPSReportDate))
    ensures Lookup(Entries(c), "lastExDate") == Some(DateCell(c.lastExDate))
    ensures Lookup(Entries(c), "lastDividend") == Some(AmountCell(c.lastDividend))
    ensures Lookup(Entries(c), "nextExDate") == Some(DateCell(c.nextExDate))
  {
    var e := Entries(c);
    assert Lookup(e, "nextEPSReportDate") == Lookup(e[1..], "nextEPSReportDate");
    assert Lookup(e, "lastExDate") == Lookup(e[1..], "lastExDate") == Lookup(e[2..], "lastExDate");
    assert Lookup(e, "lastDividend") == Lookup(e[1..], "lastDividend") == Lookup(e[2..], "lastDividend")
      == Lookup(e[3..], "lastDividend");
    assert Lookup(e, "nextExDate") == Lookup(e[1..], "nextExDate") == Lookup(e[2..], "nextExDate")
      == Lookup(e[3..], "nextExDate") == Lookup(e[4..], "nextExDate");
  }

  /** A lookup passes over a prefix that does not hold the key. */
  lemma {:induction false} LookupSkipsPrefix(prefix: Row, rest: Row, key: string)
    requires key !in Keys(prefix)
    ensures Lookup(prefix + rest, key) == Lookup(rest, key)
  {
    if prefix != [] {
      assert (prefix + rest)[1..] == prefix[1..] + rest;
      assert (prefix + rest)[0] == prefix[0];
      assert Keys(prefix)[0] == prefix[0].0;
      assert prefix[0].0 in Keys(prefix);
      assert Lookup(prefix + rest, key) == Lookup(prefix[1..] + rest, key);
      assert forall j :: 0 <= j < |prefix[1..]| ==> Keys(prefix[1..])[j] == Keys(prefix)[j + 1];
      assert key !in Keys(prefix[1..]);
      LookupSkipsPrefix(prefix[1..], rest, key);
    } else {
      assert prefix + rest == rest;
    }
  }
}
