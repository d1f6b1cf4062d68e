/** Trade and asset bookkeeping shared by the strategies, and the order
    lifecycle of the strategy base class (`StrategyBase.notify_order`).

    The broker, the data feed and the commission model are outside the model:
    the bar date, the broker value and the fee the commission model charged
    are parameters. */
module TradingCommon {
  import opened Wrappers
  import OrderPolicy

  // ---------------------------------------------------------------------------
  // Records

  /** The value handed to a record as its date: a `datetime.date` (as a day
      number), a `str`, or a value of any other type. */
  datatype DateValue = CalendarDate(day: int) | DateText(text: string) | OtherValue

  const DateTypeError := "date must be datetime.date or str"

  /** Only a `datetime.date` or a `str` is accepted. */
  predicate AcceptedDate(d: DateValue) {
    d.CalendarDate? || d.DateText?
  }

  /** backtrader's order states. */
  datatype OrderStatus = Created | Submitted | Accepted | Partial | Completed | Canceled | Expired | Margin | Rejected

  datatype Side = Buy | Sell

  /** An order the strategy has placed and not yet seen finish. */
  datatype Order = Order(side: Side, size: int, price: real)

  /** What `notify_order` reads from the order: its reference, side, status,
      and the executed size (negative for a sell) and price. */
  datatype OrderNotice = OrderNotice(ref: int, side: Side, status: OrderStatus, executedSize: int, executedPrice: real)

  datatype TradeRecord = TradeRecord(
    tradeId: int, date: DateValue, action: string, price: real, size: int,
    totalAmount: real, commission: real, orderType: string, status: OrderStatus)

  datatype AssetRecord = AssetRecord(date: DateValue, totalAssets: real)

  /** `TradeRecord(...)`: raises unless the date is a date or a string. */
  function NewTradeRecord(tradeId: int, date: DateValue, action: string, price: real, size: int,
                          totalAmount: real, commission: real, orderType: string,
                          status: OrderStatus): (r: Result<TradeRecord, string>)
    ensures r.Success? <==> AcceptedDate(date)
    ensures r.Failure? ==> r.error == DateTypeError
    ensures r.Success? ==> r.value.date == date && r.value.tradeId == tradeId && r.value.size == size
  {
    if AcceptedDate(date) then
      Success(TradeRecord(tradeId, date, action, price, size, totalAmount, commission, orderType, status))
    else
      Failure(DateTypeError)
  }

  /** `AssetRecord(date, total_assets)`: raises unless the date is a date or a string. */
  function NewAssetRecord(date: DateValue, totalAssets: real): (r: Result<AssetRecord, string>)
    ensures r.Success? <==> AcceptedDate(date)
    ensures r.Failure? ==> r.error == DateTypeError
    ensures r.Success? ==> r.value.date == date && r.value.totalAssets == totalAssets
  {
    if AcceptedDate(date) then Success(AssetRecord(date, totalAssets)) else Failure(DateTypeError)
  }

  /** The trade log of a strategy. */
  class TradeRecordManager {
    var tradeRecords: seq<TradeRecord>

    constructor ()
      ensures tradeRecords == []
    {
      tradeRecords := [];
    }

    /** `add_trade_record`: appends one record at the end, or raises (and
        appends nothing) when the record rejects its date. */
    method AddTradeRecord(tradeId: int, date: DateValue, action: string, price: real, size: int,
                          totalAmount: real, commission: real, orderType: string,
                          status: OrderStatus) returns (r: Result<(), string>)
      modifies this
      ensures r.Success? <==> AcceptedDate(date)
      ensures r.Failure? ==> r.error == DateTypeError && tradeRecords == old(tradeRecords)
      ensures r.Success? ==>
        tradeRecords == old(tradeRecords)
                        + [NewTradeRecord(tradeId, date, action, price, size, totalAmount, commission, orderType, status).value]
    {
      var rec := NewTradeRecord(tradeId, date, action, price, size, totalAmount, commission, orderType, status);
      if rec.Failure? {
        return Failure(rec.error);
      }
      tradeRecords := tradeRecords + [rec.value];
      r := Success(());
    }
  }

  /** The equity log of a strategy. */
  class AssetRecordManager {
    var assetRecords: seq<AssetRecord>

    constructor ()
      ensures assetRecords == []
    {
      assetRecords := [];
    }

    /** `add_asset_record`: appends one record at the end, or raises (and
        appends nothing) when the record rejects its date. */
    method AddAssetRecord(date: DateValue, totalAssets: real) returns (r: Result<(), string>)
      modifies this
      ensures r.Success? <==> AcceptedDate(date)
      ensures r.Failure? ==> r.error == DateTypeError && assetRecords == old(assetRecords)
      ensures r.Success? ==> assetRecords == old(assetRecords) + [AssetRecord(date, totalAssets)]
    {
      var rec := NewAssetRecord(date, totalAssets);
      if rec.Failure? {
        return Failure(rec.error);
      }
      assetRecords := assetRecords + [rec.value];
      r := Success(());
    }
  }

  // ---------------------------------------------------------------------------
  // Counting records

  /** The number of elements of `s` that satisfy `f`. */
  function Count<R>(s: seq<R>, f: R -> bool): (n: nat)
    ensures n <= |s|
  {
    if s == [] then 0 else Count(s[..|s| - 1], f) + (if f(s[|s| - 1]) then 1 else 0)
  }

  /** Appending one element raises the count by one exactly when it qualifies. */
  lemma CountAppend<R>(s: seq<R>, x: R, f: R -> bool)
    ensures Count(s + [x], f) == Count(s, f) + (if f(x) then 1 else 0)
  {
    assert (s + [x])[..|s + [x]| - 1] == s;
  }

  // ---------------------------------------------------------------------------
  // Strategy state and the order lifecycle

  /** What a strategy tracks between bars: the pending order, the four
      counters, and its trade log (`R` is the record type the strategy keeps)
      and equity log. */
  datatype Ledger<R> = Ledger(
    pending: Option<Order>,
    buySignals: nat, sellSignals: nat, executedBuys: nat, executedSells: nat,
    trades: seq<R>, assets: seq<AssetRecord>)

  function EmptyLedger<R>(): (l: Ledger<R>)
    ensures l.pending.None? && l.trades == [] && l.assets == []
    ensures l.buySignals == l.sellSignals == l.executedBuys == l.executedSells == 0
  {
    Ledger(None, 0, 0, 0, 0, [], [])
  }

  /** A fresh strategy's books balance. */
  lemma EmptyBalanced()
    ensures Balanced(EmptyLedger())
  {
  }

  /** Submitted and Accepted are the statuses on which `notify_order` returns at once. */
  predicate InFlight(status: OrderStatus) {
    status == Submitted || status == Accepted
  }

  /** The trade record a completed order leaves: `B`/`buy` or `S`/`sell`, the
      absolute executed size, and price times the signed executed size. */
  function ExecutionRecord(n: OrderNotice, date: int, fee: real): (r: TradeRecord)
    ensures r.action == (if n.side == Buy then "B" else "S")
    ensures r.orderType == (if n.side == Buy then "buy" else "sell")
    ensures r.size >= 0 && (r.size == n.executedSize || r.size == -n.executedSize)
    ensures r.tradeId == n.ref && r.date == CalendarDate(date) && r.status == n.status
    ensures r.commission == fee
    ensures r.price == n.executedPrice && r.totalAmount == n.executedPrice * n.executedSize as real
  {
    TradeRecord(n.ref, CalendarDate(date), if n.side == Buy then "B" else "S", n.executedPrice,
                OrderPolicy.Abs(n.executedSize), n.executedPrice * n.executedSize as real, fee,
                if n.side == Buy then "buy" else "sell", n.status)
  }

  /** The state after `StrategyBase.notify_order` for the notice `n` on bar
      `date`, with broker value `value` and commission `fee`. */
  function AfterNotify(l: Ledger<TradeRecord>, n: OrderNotice, date: int, value: real, fee: real): (r: Ledger<TradeRecord>)
    ensures InFlight(n.status) ==> r == l
    ensures !InFlight(n.status) ==> r.pending.None?
    ensures r.buySignals == l.buySignals && r.sellSignals == l.sellSignals
    ensures n.status != Completed ==>
      (r.trades == l.trades && r.assets == l.assets
       && r.executedBuys == l.executedBuys && r.executedSells == l.executedSells)
    ensures n.status == Completed ==> r.trades == l.trades + [ExecutionRecord(n, date, fee)]
    ensures n.status == Completed ==> r.assets == l.assets + [AssetRecord(CalendarDate(date), value)]
    ensures n.status == Completed && n.side == Buy ==> r.executedBuys == l.executedBuys + 1 && r.executedSells == l.executedSells
    ensures n.status == Completed && n.side == Sell ==> r.executedSells == l.executedSells + 1 && r.executedBuys == l.executedBuys
  {
    if InFlight(n.status) then l
    else if n.status == Completed then
      var l' := if n.side == Buy then l.(executedBuys := l.executedBuys + 1)
                else l.(executedSells := l.executedSells + 1);
      l'.(pending := None,
          trades := l.trades + [ExecutionRecord(n, date, fee)],
          assets := l.assets + [AssetRecord(CalendarDate(date), value)])
    else l.(pending := None)
  }

  predicate IsBuyRecord(t: TradeRecord) { t.action == "B" }
  predicate IsSellRecord(t: TradeRecord) { t.action == "S" }

  /** The base strategy's books balance: each executed buy and sell left
      exactly one trade record with the matching action and one asset record. */
  predicate Balanced(l: Ledger<TradeRecord>) {
    && l.executedBuys == Count(l.trades, IsBuyRecord)
    && l.executedSells == Count(l.trades, IsSellRecord)
    && |l.trades| == |l.assets| == l.executedBuys + l.executedSells
  }

  /** `notify_order` keeps the books balanced, whatever the notice. */
  lemma {:induction false} AfterNotifyBalanced(l: Ledger<TradeRecord>, n: OrderNotice, date: int, value: real, fee: real)
    requires Balanced(l)
    ensures Balanced(AfterNotify(l, n, date, value, fee))
  {
    if n.status == Completed {
      var rec := ExecutionRecord(n, date, fee);
      CountAppend(l.trades, rec, IsBuyRecord);
      CountAppend(l.trades, rec, IsSellRecord);
    }
  }

  /** One call of `notify_order`: the notice and the bar date, broker value
      and commission at that moment. */
  datatype Notification = Notification(notice: OrderNotice, date: int, value: real, fee: real)

  /** Notifications delivered one after another. */
  function NotifyAll(l: Ledger<TradeRecord>, ns: seq<Notification>): (r: Ledger<TradeRecord>)
    ensures r.buySignals == l.buySignals && r.sellSignals == l.sellSignals
    decreases |ns|
  {
    if ns == [] then l
    else NotifyAll(AfterNotify(l, ns[0].notice, ns[0].date, ns[0].value, ns[0].fee), ns[1..])
  }

  /** The books stay balanced over any sequence of notifications. */
  lemma {:induction false} NotifyAllBalanced(l: Ledger<TradeRecord>, ns: seq<Notification>)
    requires Balanced(l)
    ensures Balanced(NotifyAll(l, ns))
    decreases |ns|
  {
    if ns != [] {
      var n := ns[0];
      AfterNotifyBalanced(l, n.notice, n.date, n.value, n.fee);
      NotifyAllBalanced(AfterNotify(l, n.notice, n.date, n.value, n.fee), ns[1..]);
    }
  }

  // ---------------------------------------------------------------------------
  // Orders placed on a signal

  /** What a strategy reads on a bar: the bar date, the close (the order
      price), the broker's cash and value, and the position size. */
  datatype Bar = Bar(date: int, close: real, cash: real, value: real, position: int)

  /** The sell sizing divides by the close whenever a position is held. */
  predicate SellDefined(bar: Bar) {
    bar.position != 0 ==> bar.close != 0.0
  }

  /** `trading_strategy_buy`: the buy order placed at the close, or `None`
      when the sizer declines. */
  function BuyOrder(bar: Bar, p: OrderPolicy.SizingParams): (r: Option<Order>)
    requires p.minOrderSize > 0
    ensures r.Some? <==> OrderPolicy.BuySize(bar.cash, bar.value, bar.close, p).Some?
    ensures r.Some? ==> r.value.side == Buy && r.value.price == bar.close
    ensures r.Some? ==> && p.minOrderSize <= r.value.size && r.value.size % p.minOrderSize == 0
                        && r.value.size as real * bar.close <= bar.cash
  {
    match OrderPolicy.BuySize(bar.cash, bar.value, bar.close, p)
    case None => None
    case Some(size) => Some(Order(Buy, size, bar.close))
  }

  /** `trading_strategy_sell`: the sell order placed at the close, or `None`
      when there is no position or the sizer declines. */
  function SellOrder(bar: Bar, p: OrderPolicy.SizingParams): (r: Option<Order>)
    requires p.minOrderSize > 0 && SellDefined(bar)
    ensures bar.position == 0 ==> r.None?
    ensures r.Some? <==> OrderPolicy.SellSize(bar.position, bar.value, bar.close, p).Some?
    ensures r.Some? ==> r.value.side == Sell && r.value.price == bar.close
    ensures r.Some? ==> && p.minOrderSize <= r.value.size <= bar.position
                        && r.value.size % p.minOrderSize == 0
  {
    match OrderPolicy.SellSize(bar.position, bar.value, bar.close, p)
    case None => None
    case Some(size) => Some(Order(Sell, size, bar.close))
  }

  /** The strategy base class: its order lifecycle and its two logs. */
  class StrategyBase {
    const params: OrderPolicy.SizingParams
    const tradeRecordManager: TradeRecordManager
    const assetRecordManager: AssetRecordManager
    var order: Option<Order>
    var buySignalsCount: nat
    var sellSignalsCount: nat
    var executedBuysCount: nat
    var executedSellsCount: nat

    /** The strategy's state as a value. */
    function State(): Ledger<TradeRecord>
      reads this, tradeRecordManager, assetRecordManager
    {
      Ledger(order, buySignalsCount, sellSignalsCount, executedBuysCount, executedSellsCount,
             tradeRecordManager.tradeRecords, assetRecordManager.assetRecords)
    }

    /** A fresh strategy: default sizing parameters, no order, zero counters, empty logs. */
    constructor ()
      ensures params == OrderPolicy.DefaultSizing
      ensures State() == EmptyLedger()
      ensures fresh(tradeRecordManager) && fresh(assetRecordManager)
    {
      params := OrderPolicy.DefaultSizing;
      tradeRecordManager := new TradeRecordManager();
      assetRecordManager := new AssetRecordManager();
      order := None;
      buySignalsCount, sellSignalsCount, executedBuysCount, executedSellsCount := 0, 0, 0, 0;
    }

    /** The base class places no buy order. */
    method TradingStrategyBuy()
      ensures State() == old(State())
    {
    }

    /** The base class places no sell order. */
    method TradingStrategySell()
      ensures State() == old(State())
    {
    }

    /** `notify_order` on bar `date`, with the broker value and the commission
        that the commission model charged for the execution. */
    method NotifyOrder(n: OrderNotice, date: int, value: real, fee: real)
      modifies this, tradeRecordManager, assetRecordManager
      ensures State() == AfterNotify(old(State()), n, date, value, fee)
    {
      if InFlight(n.status) {
        return;
      }
      if n.status == Completed {
        var rec := ExecutionRecord(n, date, fee);
        if n.side == Buy {
          executedBuysCount := executedBuysCount + 1;
        } else {
          executedSellsCount := executedSellsCount + 1;
        }
        var added := tradeRecordManager.AddTradeRecord(
          rec.tradeId, rec.date, rec.action, rec.price, rec.size, rec.totalAmount,
          rec.commission, rec.orderType, rec.status);
        var logged := assetRecordManager.AddAssetRecord(CalendarDate(date), value);
      }
      order := None;
    }
  }
}
