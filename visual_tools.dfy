/** The data preparation behind the trading chart: the continuous calendar
    of a price series, the filter that keeps the records whose date has a
    bar, and the replay of trades into daily holdings, average cost and
    total assets.

    Dates are day numbers; a price that pandas leaves as NaN is `None`. */
module VisualTools {
  import opened Wrappers
  import Text

  // ---------------------------------------------------------------------------
  // prepare_continuous_dates

  /** One row of a price series: its date and its close. */
  datatype PriceRow = PriceRow(date: int, close: real)

  /** One calendar day of the continuous series: the close if the day has a bar. */
  datatype Day = Day(date: int, close: Option<real>)

  /** Every date appears at most once. */
  predicate DistinctDates(rows: seq<PriceRow>) {
    forall i, j :: 0 <= i < j < |rows| ==> rows[i].date != rows[j].date
  }

  function MinDate(rows: seq<PriceRow>): (m: int)
    requires |rows| > 0
    ensures forall i :: 0 <= i < |rows| ==> m <= rows[i].date
    ensures exists i :: 0 <= i < |rows| && m == rows[i].date
  {
    if |rows| == 1 then rows[0].date
    else
      var rest := MinDate(rows[1..]);
      assert forall i :: 1 <= i < |rows| ==> rows[i] == rows[1..][i - 1];
      if rows[0].date <= rest then rows[0].date else rest
  }

  function MaxDate(rows: seq<PriceRow>): (m: int)
    requires |rows| > 0
    ensures forall i :: 0 <= i < |rows| ==> rows[i].date <= m
    ensures exists i :: 0 <= i < |rows| && m == rows[i].date
  {
    if |rows| == 1 then rows[0].date
    else
      var rest := MaxDate(rows[1..]);
      assert forall i :: 1 <= i < |rows| ==> rows[i] == rows[1..][i - 1];
      if rows[0].date >= rest then rows[0].date else rest
  }

  /** The close recorded for `date`, if any row has that date. */
  function CloseOn(rows: seq<PriceRow>, date: int): (r: Option<real>)
    ensures r.Some? <==> exists i :: 0 <= i < |rows| && rows[i].date == date
    ensures r.Some? ==> exists i :: 0 <= i < |rows| && rows[i].date == date && rows[i].close == r.value
  {
    if rows == [] then None
    else if rows[0].date == date then Some(rows[0].close)
    else
      var r := CloseOn(rows[1..], date);
      assert forall i :: 1 <= i < |rows| ==> rows[i] == rows[1..][i - 1];
      r
  }

  /** `prepare_continuous_dates`: every calendar day from the first to the
      last date, with the close where the series has a bar. pandas raises for
      an empty series (no first date) and for duplicate dates (`reindex`). */
  function PrepareContinuousDates(rows: seq<PriceRow>): (r: Result<seq<Day>, string>)
    ensures r.Success? <==> |rows| > 0 && DistinctDates(rows)
    ensures r.Success? ==> |r.value| == MaxDate(rows) - MinDate(rows) + 1
    ensures r.Success? ==> forall k :: 0 <= k < |r.value| ==>
      r.value[k].date == MinDate(rows) + k && r.value[k].close == CloseOn(rows, MinDate(rows) + k)
  {
    if |rows| == 0 then Failure("cannot build a date range without dates")
    else if !DistinctDates(rows) then Failure("cannot reindex on an axis with duplicate labels")
    else
      var lo, hi := MinDate(rows), MaxDate(rows);
      Success(seq(hi - lo + 1, k => Day(lo + k, CloseOn(rows, lo + k))))
  }

  /** Every original bar appears in the continuous series, with its close. */
  lemma ContinuousKeepsEveryBar(rows: seq<PriceRow>, i: int)
    requires |rows| > 0 && DistinctDates(rows) && 0 <= i < |rows|
    ensures var days := PrepareContinuousDates(rows).value;
      var k := rows[i].date - MinDate(rows);
      0 <= k < |days| && days[k] == Day(rows[i].date, Some(rows[i].close))
  {
    var c := CloseOn(rows, rows[i].date);
    var j :| 0 <= j < |rows| && rows[j].date == rows[i].date && rows[j].close == c.value;
    assert i == j;
  }

  // ---------------------------------------------------------------------------
  // filter_valid_dates

  /** A cell of a record table. */
  datatype Cell = DateCell(day: int) | TextCell(text: string) | NumberCell(x: real) | Blank

  /** A record table (signals or trades): column names and one map per row. */
  datatype Frame = Frame(columns: seq<string>, rows: seq<map<string, Cell>>)

  const EmptyFrame := Frame([], [])

  /** A DataFrame is empty when it has no rows or no columns. */
  predicate IsEmpty(f: Frame) {
    |f.rows| == 0 || |f.columns| == 0
  }

  function CellOf(row: map<string, Cell>, column: string): Cell {
    if column in row then row[column] else Blank
  }

  /** `isin(valid_dates)`: the cell holds a date that has a bar. */
  predicate OnValidDate(row: map<string, Cell>, column: string, validDates: set<int>) {
    CellOf(row, column).DateCell? && CellOf(row, column).day in validDates
  }

  /** The rows whose `column` holds a valid date, in their original order. */
  function KeepRows(rows: seq<map<string, Cell>>, column: string, validDates: set<int>): (r: seq<map<string, Cell>>)
    ensures |r| <= |rows|
    ensures forall x :: x in r <==> x in rows && OnValidDate(x, column, validDates)
  {
    if rows == [] then []
    else
      var rest := KeepRows(rows[1..], column, validDates);
      assert forall x :: x in rows <==> x == rows[0] || x in rows[1..];
      if OnValidDate(rows[0], column, validDates) then [rows[0]] + rest else rest
  }

  /** A single row is kept exactly when its date is valid. With
      `KeepRowsAppend` this determines the filter on every sequence: the kept
      rows keep their order and their multiplicity. */
  lemma KeepRowsSingleton(x: map<string, Cell>, column: string, validDates: set<int>)
    ensures KeepRows([x], column, validDates) == (if OnValidDate(x, column, validDates) then [x] else [])
  {
    assert [x][1..] == [];
  }

  /** The filter works row by row, so it keeps the rows' order: filtering a
      concatenation is concatenating the filtered parts. */
  lemma {:induction false} KeepRowsAppend(a: seq<map<string, Cell>>, b: seq<map<string, Cell>>, column: string, validDates: set<int>)
    ensures KeepRows(a + b, column, validDates) == KeepRows(a, column, validDates) + KeepRows(b, column, validDates)
  {
    if a != [] {
      assert (a + b)[1..] == a[1..] + b;
      KeepRowsAppend(a[1..], b, column, validDates);
    } else {
      assert a + b == b;
    }
  }

  predicate DateLike(column: string) {
    Text.Contains(Text.Lower(column), "date")
  }

  /** The index of the first column whose lower-cased name contains "date",
      or the number of columns when there is none. */
  function FirstDateLikeIndex(columns: seq<string>): (k: nat)
    ensures k <= |columns|
    ensures k < |columns| ==> DateLike(columns[k])
    ensures forall j :: 0 <= j < k ==> !DateLike(columns[j])
  {
    if columns == [] then 0
    else if DateLike(columns[0]) then 0
    else 1 + FirstDateLikeIndex(columns[1..])
  }

  /** The first date-like column, if any. */
  function FirstDateLike(columns: seq<string>): (r: Option<string>)
    ensures r.None? <==> forall c :: c in columns ==> !DateLike(c)
    ensures r.Some? ==>
      exists k :: 0 <= k < |columns| && columns[k] == r.value && DateLike(columns[k])
        && forall j :: 0 <= j < k ==> !DateLike(columns[j])
  {
    var k := FirstDateLikeIndex(columns);
    if k < |columns| then Some(columns[k]) else None
  }

  /** The column `filter_valid_dates` filters on: "date", else the first
      date-like column, else none. */
  function DateColumn(f: Frame): (r: Option<string>)
    ensures "date" in f.columns ==> r == Some("date")
    ensures "date" !in f.columns ==> r == FirstDateLike(f.columns)
  {
    if "date" in f.columns then Some("date") else FirstDateLike(f.columns)
  }

  /** `filter_valid_dates(df, records)`, with `validDates` the dates of the
      price series. */
  function FilterValidDates(validDates: set<int>, records: Option<Frame>): (r: Frame)
    ensures records.None? || IsEmpty(records.value) ==> r == EmptyFrame
    ensures records.Some? && !IsEmpty(records.value) ==> r.columns == records.value.columns
    ensures records.Some? && !IsEmpty(records.value) && DateColumn(records.value).None? ==> r == records.value
    ensures records.Some? && !IsEmpty(records.value) && DateColumn(records.value).Some? ==>
      forall x :: x in r.rows <==> x in records.value.rows && OnValidDate(x, DateColumn(records.value).value, validDates)
    ensures records.Some? && !IsEmpty(records.value) && DateColumn(records.value).Some? ==>
      r.rows == KeepRows(records.value.rows, DateColumn(records.value).value, validDates)
  {
    match records
    case None => EmptyFrame
    case Some(f) =>
      if IsEmpty(f) then EmptyFrame
      else match DateColumn(f)
        case None => f
        case Some(column) => Frame(f.columns, KeepRows(f.rows, column, validDates))
  }

  // ---------------------------------------------------------------------------
  // calculate_holdings

  /** A trade as the chart reads it: date, action ("B", "S" or other),
      price, size and commission. */
  datatype Trade = Trade(date: int, action: string, price: real, size: int, commission: real)

  /** The replay's running values: shares held, average cost, cost of the
      holding, and cash. */
  datatype Position = Position(holdings: int, avgCost: real, totalCost: real, capital: real)

  /** One output row: date, holdings, average cost and total assets (NaN,
      here `None`, on a day without a close). */
  datatype HoldingsRow = HoldingsRow(date: int, holdings: int, avgCost: real, totalAssets: Option<real>)

  function Start(initialCapital: real): Position {
    Position(0, 0.0, 0.0, initialCapital)
  }

  /** A buy divides by the new holding, so its size must be positive. */
  predicate BuySizesPositive(trades: seq<Trade>) {
    forall i :: 0 <= i < |trades| && trades[i].action == "B" ==> trades[i].size > 0
  }

  /** The holding's cost is the holding times its average cost. */
  predicate CostConsistent(p: Position) {
    p.holdings >= 0 && p.totalCost == p.holdings as real * p.avgCost
  }

  lemma DivCancel(x: real, h: real)
    requires h != 0.0
    ensures h * (x / h) == x
  {
  }

  lemma DivOfMultiple(h: real, a: real)
    requires h != 0.0
    ensures (h * a) / h == a
  {
  }

  /** The cost of the holding after a buy: the old holding at its average
      cost (nothing when there is no holding) plus size times price. */
  function BuyCost(p: Position, t: Trade): real {
    if p.holdings > 0 then p.holdings as real * p.avgCost + t.size as real * t.price
    else t.size as real * t.price
  }

  /** The effect of one trade on the replay. */
  function ApplyTrade(p: Position, t: Trade): (r: Position)
    requires p.holdings >= 0 && (t.action == "B" ==> t.size > 0)
    ensures r.holdings >= 0
  {
    if t.action == "B" then
      var total := BuyCost(p, t);
      var holdings := p.holdings + t.size;
      Position(holdings, total / holdings as real, total, p.capital - (t.size as real * t.price + t.commission))
    else if t.action == "S" then
      var holdings := p.holdings - t.size;
      var total := p.totalCost - p.avgCost * t.size as real;
      var capital := p.capital + (t.size as real * t.price - t.commission);
      if holdings <= 0 then Position(0, 0.0, 0.0, capital)
      else Position(holdings, total / holdings as real, total, capital)
    else p
  }

  /** A buy adds its size, moves the average cost to the size-weighted
      average of the old cost and the price, and pays size times price plus
      commission. */
  lemma {:induction false} BuyEffect(p: Position, t: Trade)
    requires CostConsistent(p) && t.action == "B" && t.size > 0
    ensures var r := ApplyTrade(p, t);
      && r.holdings == p.holdings + t.size
      && r.avgCost == (p.totalCost + t.size as real * t.price) / (p.holdings + t.size) as real
      && r.capital == p.capital - t.size as real * t.price - t.commission
      && CostConsistent(r)
  {
    var c := BuyCost(p, t);
    assert c == p.totalCost + t.size as real * t.price by {
      if p.holdings == 0 {
        assert p.totalCost == 0.0;
      }
    }
    var h := (p.holdings + t.size) as real;
    assert ApplyTrade(p, t) == Position(p.holdings + t.size, c / h, c, p.capital - (t.size as real * t.price + t.commission));
    DivCancel(c, h);
  }

  /** A sell that leaves shares keeps the average cost and receives size
      times price less commission. */
  lemma {:induction false} PartialSellEffect(p: Position, t: Trade)
    requires CostConsistent(p) && t.action == "S" && t.size < p.holdings
    ensures var r := ApplyTrade(p, t);
      && r.holdings == p.holdings - t.size
      && r.avgCost == p.avgCost
      && r.capital == p.capital + t.size as real * t.price - t.commission
      && CostConsistent(r)
  {
    var h := (p.holdings - t.size) as real;
    var total := p.totalCost - p.avgCost * t.size as real;
    assert total == h * p.avgCost;
    DivOfMultiple(h, p.avgCost);
  }

  /** A sell of the whole holding or more resets holding, cost and average to zero. */
  lemma FullSellEffect(p: Position, t: Trade)
    requires p.holdings >= 0 && t.action == "S" && t.size >= p.holdings
    ensures ApplyTrade(p, t) == Position(0, 0.0, 0.0, p.capital + t.size as real * t.price - t.commission)
  {
  }

  /** Every trade keeps the holding's cost equal to holdings times average cost. */
  lemma {:induction false} ApplyTradeConsistent(p: Position, t: Trade)
    requires CostConsistent(p) && (t.action == "B" ==> t.size > 0)
    ensures CostConsistent(ApplyTrade(p, t))
  {
    if t.action == "B" {
      BuyEffect(p, t);
    } else if t.action == "S" && t.size < p.holdings {
      PartialSellEffect(p, t);
    }
  }

  /** The trades of `trades` dated `date`, applied in their order. */
  function ApplyDay(p: Position, trades: seq<Trade>, date: int): (r: Position)
    requires p.holdings >= 0 && BuySizesPositive(trades)
    ensures r.holdings >= 0
    decreases |trades|
  {
    if trades == [] then p
    else
      var before := ApplyDay(p, trades[..|trades| - 1], date);
      var t := trades[|trades| - 1];
      if t.date == date then ApplyTrade(before, t) else before
  }

  /** The running values after the trades of every day of `days`. */
  function PositionAfter(days: seq<Day>, trades: seq<Trade>, start: Position): (r: Position)
    requires start.holdings >= 0 && BuySizesPositive(trades)
    ensures r.holdings >= 0
    decreases |days|
  {
    if days == [] then start
    else ApplyDay(PositionAfter(days[..|days| - 1], trades, start), trades, days[|days| - 1].date)
  }

  /** A day's output row: total assets are cash plus holdings at the close. */
  function RowOf(d: Day, p: Position): (r: HoldingsRow)
    ensures r.date == d.date && r.holdings == p.holdings && r.avgCost == p.avgCost
    ensures r.totalAssets.Some? <==> d.close.Some?
    ensures d.close.Some? ==> r.totalAssets.value == p.capital + p.holdings as real * d.close.value
  {
    HoldingsRow(d.date, p.holdings, p.avgCost,
                match d.close
                case Some(c) => Some(p.capital + p.holdings as real * c)
                case None => None)
  }

  /** One row per day, each after that day's trades. */
  function Rows(days: seq<Day>, trades: seq<Trade>, start: Position): (r: seq<HoldingsRow>)
    requires start.holdings >= 0 && BuySizesPositive(trades)
    ensures |r| == |days|
    decreases |days|
  {
    if days == [] then []
    else Rows(days[..|days| - 1], trades, start) + [RowOf(days[|days| - 1], PositionAfter(days, trades, start))]
  }

  /** `calculate_holdings` as a value: without trades, zero holdings and the
      initial capital on every day; otherwise the replay. */
  function Holdings(days: seq<Day>, trades: Option<seq<Trade>>, initialCapital: real): (r: seq<HoldingsRow>)
    requires trades.Some? ==> BuySizesPositive(trades.value)
    ensures |r| == |days|
  {
    if trades.None? || trades.value == [] then
      seq(|days|, k requires 0 <= k < |days| => HoldingsRow(days[k].date, 0, 0.0, Some(initialCapital)))
    else Rows(days, trades.value, Start(initialCapital))
  }

  /** Row `k` belongs to day `k` and shows the position after that day's trades. */
  lemma {:induction false} RowsAt(days: seq<Day>, trades: seq<Trade>, start: Position, k: int)
    requires start.holdings >= 0 && BuySizesPositive(trades) && 0 <= k < |days|
    ensures Rows(days, trades, start)[k] == RowOf(days[k], PositionAfter(days[..k + 1], trades, start))
    decreases |days|
  {
    if k < |days| - 1 {
      var init := days[..|days| - 1];
      RowsAt(init, trades, start, k);
      assert init[..k + 1] == days[..k + 1];
    } else {
      assert days[..k + 1] == days;
    }
  }

  /** Without trades every day shows no holding and the initial capital. */
  lemma NoTradesConstant(days: seq<Day>, trades: Option<seq<Trade>>, initialCapital: real, k: int)
    requires trades.None? || trades.value == []
    requires 0 <= k < |days|
    ensures Holdings(days, trades, initialCapital)[k] == HoldingsRow(days[k].date, 0, 0.0, Some(initialCapital))
  {
  }

  /** Over the whole replay the holding's cost stays holdings times average cost. */
  lemma {:induction false} ReplayConsistent(days: seq<Day>, trades: seq<Trade>, start: Position)
    requires CostConsistent(start) && BuySizesPositive(trades)
    ensures CostConsistent(PositionAfter(days, trades, start))
    decreases |days|
  {
    if days != [] {
      ReplayConsistent(days[..|days| - 1], trades, start);
      DayConsistent(PositionAfter(days[..|days| - 1], trades, start), trades, days[|days| - 1].date);
    }
  }

  lemma {:induction false} DayConsistent(p: Position, trades: seq<Trade>, date: int)
    requires CostConsistent(p) && BuySizesPositive(trades)
    ensures CostConsistent(ApplyDay(p, trades, date))
    decreases |trades|
  {
    if trades != [] {
      var init := trades[..|trades| - 1];
      DayConsistent(p, init, date);
      var t := trades[|trades| - 1];
      if t.date == date {
        ApplyTradeConsistent(ApplyDay(p, init, date), t);
      }
    }
  }

  /** The body of the inner loop of `calculate_holdings` for a trade of the
      day: updates holdings, average cost, cost and cash. */
  method ApplyTradeStep(holdings: int, avgCost: real, totalCost: real, capital: real, trade: Trade)
    returns (holdings': int, avgCost': real, totalCost': real, capital': real)
    requires holdings >= 0 && (trade.action == "B" ==> trade.size > 0)
    ensures Position(holdings', avgCost', totalCost', capital') == ApplyTrade(Position(holdings, avgCost, totalCost, capital), trade)
  {
    holdings', avgCost', totalCost', capital' := holdings, avgCost, totalCost, capital;
    var commission := trade.commission;
    if trade.action == "B" {
      totalCost' := if holdings' > 0 then holdings' as real * avgCost' + trade.size as real * trade.price
                    else trade.size as real * trade.price;
      holdings' := holdings' + trade.size;
      avgCost' := totalCost' / holdings' as real;
      capital' := capital' - (trade.size as real * trade.price + commission);
      assert totalCost' == BuyCost(Position(holdings, avgCost, totalCost, capital), trade);
    } else if trade.action == "S" {
      var costToReduce := avgCost' * trade.size as real;
      holdings' := holdings' - trade.size;
      totalCost' := totalCost' - costToReduce;
      if holdings' <= 0 {
        avgCost' := 0.0;
        totalCost' := 0.0;
        holdings' := 0;
      } else {
        avgCost' := totalCost' / holdings' as real;
      }
      capital' := capital' + (trade.size as real * trade.price - commission);
    }
  }

  /** `calculate_holdings(df_continuous, valid_trades, initial_capital)`:
      walks the days, applies each day's trades in their order, and records
      holdings, average cost and total assets for the day. */
  method CalculateHoldings(days: seq<Day>, trades: Option<seq<Trade>>, initialCapital: real)
    returns (rows: seq<HoldingsRow>)
    requires trades.Some? ==> BuySizesPositive(trades.value)
    ensures rows == Holdings(days, trades, initialCapital)
  {
    if trades.None? || |trades.value| == 0 {
      return seq(|days|, k requires 0 <= k < |days| => HoldingsRow(days[k].date, 0, 0.0, Some(initialCapital)));
    }
    var ts := trades.value;
    ghost var start := Start(initialCapital);
    var totalHoldings := 0;
    var capital := initialCapital;
    var totalCost := 0.0;
    var avgCost := 0.0;
    rows := [];
    var i := 0;
    while i < |days|
      invariant 0 <= i <= |days|
      invariant Position(totalHoldings, avgCost, totalCost, capital) == PositionAfter(days[..i], ts, start)
      invariant rows == Rows(days[..i], ts, start)
    {
      var date := days[i].date;
      ghost var before := Position(totalHoldings, avgCost, totalCost, capital);
      var j := 0;
      while j < |ts|
        invariant 0 <= j <= |ts|
        invariant Position(totalHoldings, avgCost, totalCost, capital) == ApplyDay(before, ts[..j], date)
      {
        var trade := ts[j];
        ghost var prev := Position(totalHoldings, avgCost, totalCost, capital);
        assert ts[..j + 1][..j] == ts[..j];
        if trade.date == date {
          totalHoldings, avgCost, totalCost, capital := ApplyTradeStep(totalHoldings, avgCost, totalCost, capital, trade);
        }
        assert Position(totalHoldings, avgCost, totalCost, capital)
            == if trade.date == date then ApplyTrade(prev, trade) else prev;
        j := j + 1;
      }
      assert ts[..|ts|] == ts;
      assert days[..i + 1][..i] == days[..i];
      rows := rows + [RowOf(days[i], Position(totalHoldings, avgCost, totalCost, capital))];
      i := i + 1;
    }
    assert days[..|days|] == days;
  }
}
