/** Symbol-list resolution, the collection pipeline and the weights-page cleaning
    of btscreener/collector.py.

    The network stays outside: what the API answers for a symbol is a function
    `fetch` from the symbol to its responses, the backtest is a function from the
    chart records to a row of named stats, and the S&P 500 weights table enters as
    its Symbol column. */
module Collector {
  import opened Wrappers
  import opened Iex

  // ---------------------------------------------------------------------------
  // Symbol groups
  // ---------------------------------------------------------------------------

  /** The Dow Jones Industrial Average components. */
  const DjiComponents: seq<string> :=
    ["v", "xom", "wmt", "cat", "cvx", "aapl", "gs", "axp",
     "ibm", "mcd", "mmm", "jpm", "ba", "trv", "msft", "dwdp",
     "pg", "nke", "ko", "mrk", "dis", "csco", "intc", "jnj",
     "pfe", "unh", "hd", "wba", "vz", "utx"]

  /** The author's list of liquid, optionable, well-known tickers. */
  const FavesComponents: seq<string> :=
    ["aapl", "fb", "amzn", "goog", "nflx",
     "dis", "de", "mcd", "ibm", "cpb",
     "nvda", "amd", "mu", "intc",
     "bac", "usb", "brk.b",
     "x", "cat", "ba", "luv",
     "tsla", "snap", "twtr", "spot",
     "tlry", "cgc", "stz",
     "pfe"]

  datatype Group = Faves | Dji | Sp

  /** The one group whose members are added: "faves" before "dji" before "sp",
      whatever their order in `groups`. */
  function ChosenGroup(groups: seq<string>): (r: Option<Group>)
    ensures r == Some(Faves) <==> "faves" in groups
    ensures r == Some(Dji) <==> "faves" !in groups && "dji" in groups
    ensures r == Some(Sp) <==> "faves" !in groups && "dji" !in groups && "sp" in groups
    ensures r.None? <==> "faves" !in groups && "dji" !in groups && "sp" !in groups
  {
    if "faves" in groups then Some(Faves)
    else if "dji" in groups then Some(Dji)
    else if "sp" in groups then Some(Sp)
    else None
  }

  /** The symbols the chosen group adds; `spSymbols` is the Symbol column of the
      S&P 500 weights table, read only when "sp" is the chosen group. */
  function GroupMembers(groups: seq<string>, spSymbols: seq<string>): (r: seq<string>)
    ensures r == [] <==> ChosenGroup(groups).None? || (ChosenGroup(groups) == Some(Sp) && spSymbols == [])
  {
    match ChosenGroup(groups)
    case None => []
    case Some(Faves) => FavesComponents
    case Some(Dji) => DjiComponents
    case Some(Sp) => spSymbols
  }

  /** Only the highest-priority group named contributes, and naming lower groups
      as well changes nothing. */
  lemma GroupPriority(groups: seq<string>, spSymbols: seq<string>)
    ensures "faves" in groups ==> GroupMembers(groups, spSymbols) == FavesComponents
    ensures "faves" !in groups && "dji" in groups ==> GroupMembers(groups, spSymbols) == DjiComponents
    ensures "faves" !in groups && "dji" !in groups && "sp" in groups ==> GroupMembers(groups, spSymbols) == spSymbols
    ensures "faves" !in groups && "dji" !in groups && "sp" !in groups ==> GroupMembers(groups, spSymbols) == []
  {
  }

  /** The order in which groups are named does not matter, only which are named. */
  lemma GroupOrderIrrelevant(groups: seq<string>, others: seq<string>, spSymbols: seq<string>)
    requires forall g :: g in groups <==> g in others
    ensures GroupMembers(groups, spSymbols) == GroupMembers(others, spSymbols)
  {
  }

  // ---------------------------------------------------------------------------
  // load_symbol_list
  // ---------------------------------------------------------------------------

  /** A Python list object: the caller and load_symbol_list share it, so extending
      it is seen by both. */
  class PyList {
    var items: seq<string>

    constructor (items: seq<string>)
      ensures this.items == items
    {
      this.items := items;
    }
  }

  /** The ValueError "No symbols or groups provided". */
  datatype ConfigError = NoSymbols

  predicate Distinct(s: seq<string>)
  {
    forall i, j :: 0 <= i < j < |s| ==> s[i] != s[j]
  }

  /** `list(set(s))`: each symbol of `s` exactly once. Python leaves the order
      open; this keeps first occurrences in order, which is one of the orders it
      may give. */
  method Unique(s: seq<string>) returns (r: seq<string>)
    ensures Distinct(r)
    ensures forall x :: x in r <==> x in s
  {
    var seen: set<string> := {};
    r := [];
    for i := 0 to |s|
      invariant Distinct(r)
      invariant forall x :: x in r <==> x in s[..i]
      invariant forall x :: x in seen <==> x in r
    {
      if s[i] !in seen {
        r := r + [s[i]];
        seen := seen + {s[i]};
      }
      assert s[..i + 1] == s[..i] + [s[i]];
    }
    assert s[..|s|] == s;
  }

  /** load_symbol_list: extends the caller's list in place with the members of
      the chosen group, fails when the list is then empty, and otherwise returns
      its symbols without duplicates. */
  method LoadSymbolList(groups: seq<string>, symbols: PyList, spSymbols: seq<string>)
    returns (r: Result<seq<string>, ConfigError>)
    modifies symbols
    ensures symbols.items == old(symbols.items) + GroupMembers(groups, spSymbols)
    ensures r.Failure? <==> symbols.items == []
    ensures r.Success? ==> Distinct(r.value) && forall x :: x in r.value <==> x in symbols.items
  {
    var chosen := ChosenGroup(groups);
    if chosen == Some(Faves) {
      symbols.items := symbols.items + FavesComponents;
    } else if chosen == Some(Dji) {
      symbols.items := symbols.items + DjiComponents;
    } else if chosen == Some(Sp) {
      symbols.items := symbols.items + spSymbols;
    }
    if |symbols.items| == 0 {
      return Failure(NoSymbols);
    }
    var unique := Unique(symbols.items);
    return Success(unique);
  }

  /** Two calls that both rely on the default `symbols=[]` share one list object,
      created when the function is defined: after a "faves" call, a "dji" call
      also returns the favourites, "fb" among them, though "fb" is no DJI member. */
  method SharedDefaultLeak() returns (second: Result<seq<string>, ConfigError>)
    ensures second.Success? && "fb" in second.value
    ensures "fb" !in GroupMembers(["dji"], [])
  {
    var shared := new PyList([]);
    var first := LoadSymbolList(["faves"], shared, []);
    second := LoadSymbolList(["dji"], shared, []);
    assert FavesComponents[1] == "fb";
    assert "fb" in shared.items;
  }

  /** load_symbol_list called with the groups only, as intended: a fresh empty
      list each call, so the result holds exactly the chosen group's members. */
  method LoadGroupSymbols(groups: seq<string>, spSymbols: seq<string>)
    returns (r: Result<seq<string>, ConfigError>)
    ensures r.Failure? <==> GroupMembers(groups, spSymbols) == []
    ensures r.Success? ==> Distinct(r.value) && forall x :: x in r.value <==> x in GroupMembers(groups, spSymbols)
  {
    var empty := new PyList([]);
    r := LoadSymbolList(groups, empty, spSymbols);
  }

  // ---------------------------------------------------------------------------
  // generate_stats and run_collection
  // ---------------------------------------------------------------------------

  /** What the API answers for one symbol: the chart records, the list under the
      "earnings" key (None when there is no such key) and the dividend records. */
  datatype Responses = Responses(chart: seq<Record>, earnings: Option<seq<Record>>, dividends: seq<Record>)

  /** The row generate_stats yields for one symbol: the backtest stats of its
      history followed by its calendar; a failing calendar load aborts. */
  function StatsRow(symbol: string, fetch: string -> Responses, backtest: seq<Record> -> Row, today: Day)
    : (r: Result<Row, CalendarError>)
    ensures r.Failure? <==> LoadCalendar(fetch(symbol).earnings, fetch(symbol).dividends, today).Failure?
    ensures r.Failure? ==> r.error == LoadCalendar(fetch(symbol).earnings, fetch(symbol).dividends, today).error
    ensures r.Success? ==> Keys(r.value) == Keys(backtest(fetch(symbol).chart)) + CalendarKeys
  {
    var calendar :- LoadCalendar(fetch(symbol).earnings, fetch(symbol).dividends, today);
    Success(backtest(fetch(symbol).chart) + Entries(calendar))
  }

  /** A row holds the stats entries, untouched and first, then the five calendar
      entries; a calendar key not used by the stats reads back the calendar's
      field. */
  lemma RowLayout(symbol: string, fetch: string -> Responses, backtest: seq<Record> -> Row, today: Day)
    requires StatsRow(symbol, fetch, backtest, today).Success?
    ensures
      var row := StatsRow(symbol, fetch, backtest, today).value;
      var stats := backtest(fetch(symbol).chart);
      var calendar := LoadCalendar(fetch(symbol).earnings, fetch(symbol).dividends, today).value;
      |row| == |stats| + 5 && row[..|stats|] == stats && row[|stats|..] == Entries(calendar) &&
      Keys(row) == Keys(stats) + CalendarKeys &&
      ((forall i :: 0 <= i < |stats| ==> stats[i].0 !in CalendarKeys) ==>
        Lookup(row, "lastExDate") == Some(DateCell(calendar.lastExDate)) &&
        Lookup(row, "nextExDate") == Some(DateCell(calendar.nextExDate)) &&
        Lookup(row, "lastDividend") == Some(AmountCell(calendar.lastDividend)) &&
        Lookup(row, "lastEPSReportDate") == Some(DateCell(calendar.lastEPSReportDate)) &&
        Lookup(row, "nextEPSReportDate") == Some(DateCell(calendar.nextEPSReportDate)))
  {
    var row := StatsRow(symbol, fetch, backtest, today).value;
    var stats := backtest(fetch(symbol).chart);
    var calendar := LoadCalendar(fetch(symbol).earnings, fetch(symbol).dividends, today).value;
    assert row == stats + Entries(calendar);
    assert Keys(row) == Keys(stats) + Keys(Entries(calendar));
    if forall i :: 0 <= i < |stats| ==> stats[i].0 !in CalendarKeys {
      LookupEntries(calendar);
      assert CalendarKeys[0] == "lastEPSReportDate" && CalendarKeys[1] == "nextEPSReportDate";
      assert CalendarKeys[2] == "lastExDate" && CalendarKeys[3] == "lastDividend" && CalendarKeys[4] == "nextExDate";
      LookupPastStats(stats, Entries(calendar), CalendarKeys[0]);
      LookupPastStats(stats, Entries(calendar), CalendarKeys[1]);
      LookupPastStats(stats, Entries(calendar), CalendarKeys[2]);
      LookupPastStats(stats, Entries(calendar), CalendarKeys[3]);
      LookupPastStats(stats, Entries(calendar), CalendarKeys[4]);
    }
  }

  /** The row builder generate_stats applies to each symbol. */
  function RowBuilder(fetch: string -> Responses, backtest: seq<Record> -> Row, today: Day)
    : string -> Result<Row, CalendarError>
  {
    symbol => StatsRow(symbol, fetch, backtest, today)
  }

  /** The rows a generator yields, in symbol order, when each symbol's row is built
      by rowOf; it stops at the first symbol whose row cannot be built. */
  function GeneratedRows(symbols: seq<string>, rowOf: string -> Result<Row, CalendarError>)
    : (r: Result<seq<Row>, CalendarError>)
    ensures r.Success? ==> |r.value| == |symbols|
  {
    if symbols == [] then Success([])
    else
      var rows :- GeneratedRows(symbols[..|symbols| - 1], rowOf);
      var row :- rowOf(symbols[|symbols| - 1]);
      Success(rows + [row])
  }

  /** All rows are built exactly when every symbol's row can be; then row i is the
      row of symbol i. Otherwise the failure is that of the first symbol whose row
      cannot be built. */
  lemma {:induction false} GeneratedRowsSpec(symbols: seq<string>, rowOf: string -> Result<Row, CalendarError>)
    ensures var r := GeneratedRows(symbols, rowOf);
      r.Success? <==> forall i :: 0 <= i < |symbols| ==> rowOf(symbols[i]).Success?
    ensures var r := GeneratedRows(symbols, rowOf);
      r.Success? ==> forall i :: 0 <= i < |symbols| ==> rowOf(symbols[i]) == Success(r.value[i])
    ensures var r := GeneratedRows(symbols, rowOf);
      r.Failure? ==>
        exists k :: (0 <= k < |symbols| && rowOf(symbols[k]) == Failure(r.error) &&
          forall i :: 0 <= i < k ==> rowOf(symbols[i]).Success?)
  {
    if symbols != [] {
      var init := symbols[..|symbols| - 1];
      var n := |init|;
      GeneratedRowsSpec(init, rowOf);
      assert forall i :: 0 <= i < n ==> init[i] == symbols[i];
      var prefix := GeneratedRows(init, rowOf);
      var last := rowOf(symbols[n]);
      if prefix.Success? && last.Success? {
        var r := GeneratedRows(symbols, rowOf);
        assert r == Success(prefix.value + [last.value]);
        assert forall i :: 0 <= i < n ==> r.value[i] == prefix.value[i];
      } else if prefix.Success? {
        assert rowOf(symbols[n]) == Failure(last.error);
      } else {
        var k :| 0 <= k < n && rowOf(init[k]) == Failure(prefix.error) &&
          forall i :: 0 <= i < k ==> rowOf(init[i]).Success?;
        assert rowOf(symbols[k]) == Failure(prefix.error);
      }
    }
  }

  /** When every symbol's row is built, the generated rows are exactly those. */
  lemma GeneratedRowsAllBuilt(symbols: seq<string>, rowOf: string -> Result<Row, CalendarError>, rows: seq<Row>)
    requires |rows| == |symbols|
    requires forall j :: 0 <= j < |symbols| ==> rowOf(symbols[j]) == Success(rows[j])
    ensures GeneratedRows(symbols, rowOf) == Success(rows)
  {
    GeneratedRowsSpec(symbols, rowOf);
    var r := GeneratedRows(symbols, rowOf);
    assert r.Success?;
    assert r.value == rows;
  }

  /** When the rows of the first i symbols are built and that of symbol i is not,
      the generation fails with symbol i's failure. */
  lemma GeneratedRowsStopsAt(symbols: seq<string>, rowOf: string -> Result<Row, CalendarError>, i: int)
    requires 0 <= i < |symbols|
    requires forall j :: 0 <= j < i ==> rowOf(symbols[j]).Success?
    requires rowOf(symbols[i]).Failure?
    ensures GeneratedRows(symbols, rowOf) == Failure(rowOf(symbols[i]).error)
  {
    GeneratedRowsSpec(symbols, rowOf);
    var r := GeneratedRows(symbols, rowOf);
    var k :| 0 <= k < |symbols| && rowOf(symbols[k]) == Failure(r.error) &&
      forall j :: 0 <= j < k ==> rowOf(symbols[j]).Success?;
    assert k == i;
  }

  /** generate_stats, consumed to the end: one row per symbol, built in order; a
      symbol whose row cannot be built stops the collection. */
  method GenerateStats(symbols: seq<string>, fetch: string -> Responses, backtest: seq<Record> -> Row, today: Day)
    returns (r: Result<seq<Row>, CalendarError>)
    ensures r == GeneratedRows(symbols, RowBuilder(fetch, backtest, today))
  {
    var rowOf := RowBuilder(fetch, backtest, today);
    var rows: seq<Row> := [];
    for i := 0 to |symbols|
      invariant |rows| == i
      invariant forall j :: 0 <= j < i ==> rowOf(symbols[j]) == Success(rows[j])
    {
      var row := rowOf(symbols[i]);
      if row.Failure? {
        GeneratedRowsStopsAt(symbols, rowOf, i);
        return Failure(row.error);
      }
      rows := rows + [row.value];
    }
    GeneratedRowsAllBuilt(symbols, rowOf, rows);
    return Success(rows);
  }

  /** The combined table: its index is the symbol sequence as given, one row each. */
  datatype Table = Table(index: seq<string>, rows: seq<Row>)

  /** No label occurs twice in the row. */
  predicate UniqueLabels(row: Row)
  {
    forall i, j :: 0 <= i < j < |row| ==> row[i].0 != row[j].0
  }

  /** A stats entry named like a calendar field gives its row a repeated label. */
  lemma CollidingStatsKey(symbol: string, fetch: string -> Responses, backtest: seq<Record> -> Row, today: Day,
                          i: int, j: int)
    requires StatsRow(symbol, fetch, backtest, today).Success?
    requires 0 <= i < |backtest(fetch(symbol).chart)| && 0 <= j < |CalendarKeys|
    requires backtest(fetch(symbol).chart)[i].0 == CalendarKeys[j]
    ensures !UniqueLabels(StatsRow(symbol, fetch, backtest, today).value)
  {
    var row := StatsRow(symbol, fetch, backtest, today).value;
    var n := |backtest(fetch(symbol).chart)|;
    assert Keys(row)[i] == CalendarKeys[j] == Keys(row)[n + j];
  }

  /** Why a table cannot be built: a symbol's row cannot be built, or a row holds
      a label twice, which pandas cannot align to the table's columns. */
  datatype CollectionError = RowFailed(cause: CalendarError) | DuplicateLabels

  /** The DataFrame built from the rows under the symbols as index. */
  function Tabulate(index: seq<string>, rows: seq<Row>): (r: Result<Table, CollectionError>)
    ensures r.Success? <==> forall i :: 0 <= i < |rows| ==> UniqueLabels(rows[i])
    ensures r.Success? ==> r.value.index == index && r.value.rows == rows
    ensures r.Failure? ==> r.error == DuplicateLabels
  {
    if exists i :: 0 <= i < |rows| && !UniqueLabels(rows[i]) then Failure(DuplicateLabels)
    else Success(Table(index, rows))
  }

  /** The symbol's row can be built and be placed in the table. */
  predicate Collectable(symbol: string, fetch: string -> Responses, backtest: seq<Record> -> Row, today: Day)
  {
    StatsRow(symbol, fetch, backtest, today).Success? && UniqueLabels(StatsRow(symbol, fetch, backtest, today).value)
  }

  /** run_collection: the generated rows under the symbols as index. */
  function RunCollection(symbols: seq<string>, fetch: string -> Responses, backtest: seq<Record> -> Row, today: Day)
    : (r: Result<Table, CollectionError>)
    ensures r.Success? ==> r.value.index == symbols && |r.value.rows| == |symbols|
    ensures r.Success? ==>
      forall i :: 0 <= i < |symbols| ==> StatsRow(symbols[i], fetch, backtest, today) == Success(r.value.rows[i])
    ensures r.Success? <==> forall i :: 0 <= i < |symbols| ==> Collectable(symbols[i], fetch, backtest, today)
    ensures r.Failure? && r.error.RowFailed? <==>
      exists i :: 0 <= i < |symbols| && StatsRow(symbols[i], fetch, backtest, today).Failure?
    ensures r.Failure? && r.error.RowFailed? ==>
      exists i :: 0 <= i < |symbols| && StatsRow(symbols[i], fetch, backtest, today) == Failure(r.error.cause)
  {
    GeneratedRowsSpec(symbols, RowBuilder(fetch, backtest, today));
    match GeneratedRows(symbols, RowBuilder(fetch, backtest, today))
    case Failure(e) => Failure(RowFailed(e))
    case Success(rows) => Tabulate(symbols, rows)
  }

  /** The outcome of run_collection depends only on which symbols are collected:
      it succeeds exactly when every one is collectable, and a failure names a
      collected symbol's error or a row with a repeated label. */
  lemma RunCollectionBySymbol(symbols: seq<string>, fetch: string -> Responses, backtest: seq<Record> -> Row, today: Day)
    ensures RunCollection(symbols, fetch, backtest, today).Success? <==>
      forall s :: s in symbols ==> Collectable(s, fetch, backtest, today)
    ensures var r := RunCollection(symbols, fetch, backtest, today);
      r.Failure? && r.error.RowFailed? ==>
        exists s :: s in symbols && StatsRow(s, fetch, backtest, today) == Failure(r.error.cause)
    ensures var r := RunCollection(symbols, fetch, backtest, today);
      r.Failure? && r.error.DuplicateLabels? ==>
        (forall s :: s in symbols ==> StatsRow(s, fetch, backtest, today).Success?) &&
        exists s :: s in symbols && !Collectable(s, fetch, backtest, today)
  {
    var r := RunCollection(symbols, fetch, backtest, today);
    if r.Failure? && r.error.RowFailed? {
      var i :| 0 <= i < |symbols| && StatsRow(symbols[i], fetch, backtest, today) == Failure(r.error.cause);
      assert symbols[i] in symbols;
    }
    if r.Failure? {
      var i :| 0 <= i < |symbols| && !Collectable(symbols[i], fetch, backtest, today);
      assert symbols[i] in symbols;
    }
  }

  /** The table's columns: every key some row holds. */
  function Columns(t: Table): set<string>
  {
    set i, k | 0 <= i < |t.rows| && k in Keys(t.rows[i]) :: k
  }

  /** Every calendar key is a column of a table with at least one row. */
  lemma {:induction false} CalendarKeysAreColumns(symbols: seq<string>, fetch: string -> Responses, backtest: seq<Record> -> Row, today: Day)
    requires symbols != []
    requires RunCollection(symbols, fetch, backtest, today).Success?
    ensures forall k :: k in CalendarKeys ==> k in Columns(RunCollection(symbols, fetch, backtest, today).value)
  {
    var t := RunCollection(symbols, fetch, backtest, today).value;
    RowLayout(symbols[0], fetch, backtest, today);
    assert forall k :: k in CalendarKeys ==> k in Keys(t.rows[0]);
  }

  // ---------------------------------------------------------------------------
  // The collect command
  // ---------------------------------------------------------------------------

  /** Why the collect command fails: no symbols to collect, or the collection. */
  datatype CollectError = Config(config: ConfigError) | Collection(cause: CollectionError)

  /** The collect command: the symbols named on the command line (a fresh list),
      extended and deduplicated by load_symbol_list, then collected into a table.
      It succeeds exactly when there are symbols and every one of them is
      collectable. */
  method Collect(groups: seq<string>, symbolArgs: seq<string>, spSymbols: seq<string>,
                 fetch: string -> Responses, backtest: seq<Record> -> Row, today: Day)
    returns (r: Result<Table, CollectError>)
    ensures r == Failure(Config(NoSymbols)) <==> symbolArgs == [] && GroupMembers(groups, spSymbols) == []
    ensures r.Success? <==>
      (symbolArgs != [] || GroupMembers(groups, spSymbols) != []) &&
      forall s :: s in symbolArgs || s in GroupMembers(groups, spSymbols) ==> Collectable(s, fetch, backtest, today)
    ensures r.Failure? && r.error.Collection? && r.error.cause.RowFailed? ==>
      exists s :: (s in symbolArgs || s in GroupMembers(groups, spSymbols)) &&
        StatsRow(s, fetch, backtest, today) == Failure(r.error.cause.cause)
    ensures r.Failure? && r.error.Collection? && r.error.cause.DuplicateLabels? ==>
      (forall s :: s in symbolArgs || s in GroupMembers(groups, spSymbols) ==> StatsRow(s, fetch, backtest, today).Success?) &&
      exists s :: (s in symbolArgs || s in GroupMembers(groups, spSymbols)) && !Collectable(s, fetch, backtest, today)
    ensures r.Success? ==>
      Distinct(r.value.index) && |r.value.rows| == |r.value.index| &&
      (forall s :: s in r.value.index <==> s in symbolArgs || s in GroupMembers(groups, spSymbols)) &&
      RunCollection(r.value.index, fetch, backtest, today) == Success(r.value)
  {
    var symbols := new PyList(symbolArgs);
    var resolved := LoadSymbolList(groups, symbols, spSymbols);
    assert symbols.items == symbolArgs + GroupMembers(groups, spSymbols);
    if resolved.Failure? {
      assert resolved.error == NoSymbols;
      return Failure(Config(NoSymbols));
    }
    var index := resolved.value;
    assert forall s :: s in index <==> s in symbolArgs || s in GroupMembers(groups, spSymbols);
    ghost var run := RunCollection(index, fetch, backtest, today);
    RunCollectionBySymbol(index, fetch, backtest, today);
    var rows := GenerateStats(index, fetch, backtest, today);
    if rows.Failure? {
      assert run == Failure(RowFailed(rows.error));
      return Failure(Collection(RowFailed(rows.error)));
    }
    var table := Tabulate(index, rows.value);
    assert run == table;
    if table.Failure? {
      return Failure(Collection(table.error));
    }
    return Success(table.value);
  }

  // ---------------------------------------------------------------------------
  // Cleaning the weights page's Change and Price cells
  // ---------------------------------------------------------------------------

  /** Two spaces start at position i. */
  predicate DoubleSpaceAt(s: string, i: int)
  {
    0 <= i && i + 1 < |s| && s[i] == ' ' && s[i + 1] == ' '
  }

  /** Where the first double space starts, or |s| when there is none. */
  function FirstDoubleSpace(s: string): (k: nat)
    ensures k <= |s|
    ensures k < |s| ==> DoubleSpaceAt(s, k)
    ensures forall i :: 0 <= i < k ==> !DoubleSpaceAt(s, i)
  {
    if |s| < 2 then |s|
    else if s[0] == ' ' && s[1] == ' ' then 0
    else
      assert forall i {:trigger DoubleSpaceAt(s, i)} :: 1 <= i ==> (DoubleSpaceAt(s, i) <==> DoubleSpaceAt(s[1..], i - 1));
      1 + FirstDoubleSpace(s[1..])
  }

  /** The Change cell before number parsing: `s.split("  ")[0]`, the text before
      the first double space, or all of it when there is none. */
  function CleanChange(s: string): (r: string)
    ensures r <= s
    ensures forall i :: 0 <= i < |r| ==> !DoubleSpaceAt(s, i)
    ensures r == s || DoubleSpaceAt(s, |r|)
  {
    s[..FirstDoubleSpace(s)]
  }

  /** A value followed by a double space and an annotation cleans to the value,
      provided the value itself holds no double space and does not end in a space. */
  lemma ChangeOfAnnotated(v: string, note: string)
    requires forall i :: 0 <= i < |v| ==> !DoubleSpaceAt(v, i)
    requires v == [] || v[|v| - 1] != ' '
    ensures CleanChange(v + "  " + note) == v
  {
    var s := v + "  " + note;
    assert DoubleSpaceAt(s, |v|);
    forall i | 0 <= i < |v| ensures !DoubleSpaceAt(s, i) {
      if i + 1 < |v| {
        assert s[i] == v[i] && s[i + 1] == v[i + 1];
        assert !DoubleSpaceAt(v, i);
      } else {
        assert s[i] == v[|v| - 1];
      }
    }
    assert FirstDoubleSpace(s) == |v|;
    assert s[..|v|] == v;
  }

  /** Cleaning a cleaned Change cell changes nothing. */
  lemma CleanChangeIdempotent(s: string)
    ensures CleanChange(CleanChange(s)) == CleanChange(s)
  {
    var r := CleanChange(s);
    forall i | 0 <= i < |r| ensures !DoubleSpaceAt(r, i) {
      if i + 1 < |r| {
        assert r[i] == s[i] && r[i + 1] == s[i + 1];
        assert !DoubleSpaceAt(s, i);
      }
    }
    assert FirstDoubleSpace(r) == |r|;
  }

  /** The Price cell before number parsing: `s.replace(",", "")`. */
  function StripCommas(s: string): (r: string)
    ensures ',' !in r
    ensures |r| <= |s|
  {
    if s == [] then []
    else (if s[0] == ',' then [] else [s[0]]) + StripCommas(s[1..])
  }

  /** Removing commas works piecewise: a split string is cleaned piece by piece. */
  lemma {:induction false} StripCommasConcat(a: string, b: string)
    ensures StripCommas(a + b) == StripCommas(a) + StripCommas(b)
  {
    if a != [] {
      assert (a + b)[0] == a[0] && (a + b)[1..] == a[1..] + b;
      StripCommasConcat(a[1..], b);
    } else {
      assert a + b == b;
    }
  }

  /** A string without commas is left as it is. */
  lemma {:induction false} StripCommasKeepsCommaFree(s: string)
    requires ',' !in s
    ensures StripCommas(s) == s
  {
    if s != [] {
      assert s == [s[0]] + s[1..];
      StripCommasKeepsCommaFree(s[1..]);
    }
  }

  /** Every character other than a comma keeps its number of occurrences. */
  lemma {:induction false} StripCommasKeepsOthers(s: string, c: char)
    requires c != ','
    ensures multiset(StripCommas(s))[c] == multiset(s)[c]
  {
    if s != [] {
      StripCommasKeepsOthers(s[1..], c);
      assert s == [s[0]] + s[1..];
      assert multiset(s) == multiset([s[0]]) + multiset(s[1..]);
      var head := if s[0] == ',' then [] else [s[0]];
      assert StripCommas(s) == head + StripCommas(s[1..]);
      assert multiset(StripCommas(s)) == multiset(head) + multiset(StripCommas(s[1..]));
    }
  }
}
