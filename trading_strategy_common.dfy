/** `EnhancedVolumeStrategy`: trades on the enhanced signals of the volume
    indicator, logs every order it places and the broker value of every bar
    on which no order was pending. */
module TradingStrategyCommon {
  import opened Wrappers
  import opened TradingCommon
  import OrderPolicy
  import EnhancedVolume

  /** This strategy's own trade record: the order it placed on a signal. */
  datatype SignalTrade = SignalTrade(date: DateValue, action: string, signalType: string, shares: int)

  /** `TradeRecord(date, action, signal_type, shares)`: raises unless the
      date is a date or a string. */
  function NewSignalTrade(date: DateValue, action: string, signalType: string, shares: int): (r: Result<SignalTrade, string>)
    ensures r.Success? <==> AcceptedDate(date)
    ensures r.Failure? ==> r.error == DateTypeError
    ensures r.Success? ==> r.value.date == date && r.value.shares == shares
  {
    if AcceptedDate(date) then Success(SignalTrade(date, action, signalType, shares)) else Failure(DateTypeError)
  }

  /** The strategy's log of placed orders. */
  class SignalTradeManager {
    var tradeRecords: seq<SignalTrade>

    constructor ()
      ensures tradeRecords == []
    {
      tradeRecords := [];
    }

    /** `add_signal_record`: appends one record at the end, or raises (and
        appends nothing) when the record rejects its date. */
    method AddSignalRecord(date: DateValue, action: string, signalType: string, shares: int) returns (r: Result<(), string>)
      modifies this
      ensures r.Success? <==> AcceptedDate(date)
      ensures r.Failure? ==> r.error == DateTypeError && tradeRecords == old(tradeRecords)
      ensures r.Success? ==> tradeRecords == old(tradeRecords) + [SignalTrade(date, action, signalType, shares)]
    {
      var rec := NewSignalTrade(date, action, signalType, shares);
      if rec.Failure? {
        return Failure(rec.error);
      }
      tradeRecords := tradeRecords + [rec.value];
      r := Success(());
    }
  }

  /** The record a placed order leaves: `B`/`strong_buy` or `S`/`strong_sell`
      with the order's size. */
  function PlacedRecord(date: int, o: Order): (r: SignalTrade)
    ensures r.action == (if o.side == Buy then "B" else "S")
    ensures r.signalType == (if o.side == Buy then "strong_buy" else "strong_sell")
    ensures r.shares == o.size && r.date == CalendarDate(date)
  {
    if o.side == Buy then SignalTrade(CalendarDate(date), "B", "strong_buy", o.size)
    else SignalTrade(CalendarDate(date), "S", "strong_sell", o.size)
  }

  /** Placing `order` (if the sizer produced one): it becomes the pending
      order and one record is logged; a declined order changes nothing. */
  function Place(l: Ledger<SignalTrade>, date: int, order: Option<Order>): (r: Ledger<SignalTrade>)
    ensures order.None? ==> r == l
    ensures order.Some? ==> r.pending == order && r.trades == l.trades + [PlacedRecord(date, order.value)]
    ensures r.assets == l.assets && r.buySignals == l.buySignals && r.sellSignals == l.sellSignals
    ensures r.executedBuys == l.executedBuys && r.executedSells == l.executedSells
  {
    match order
    case None => l
    case Some(o) => l.(pending := order, trades := l.trades + [PlacedRecord(date, o)])
  }

  /** The sell branch is taken and needs the close to be non-zero. */
  predicate StepDefined(l: Ledger<SignalTrade>, lines: EnhancedVolume.SignalLines, bar: Bar) {
    l.pending.None? && lines.enhancedBuy.None? && lines.enhancedSell.Some? ==> SellDefined(bar)
  }

  /** `next` on one bar, given the indicator's line values for the bar:
      nothing happens while an order is pending; otherwise an enhanced buy is
      handled first, an enhanced sell only when there is no enhanced buy, the
      main signals are ignored, and the bar's broker value is logged. */
  function Step(l: Ledger<SignalTrade>, lines: EnhancedVolume.SignalLines, bar: Bar, p: OrderPolicy.SizingParams): (r: Ledger<SignalTrade>)
    requires p.minOrderSize > 0 && StepDefined(l, lines, bar)
    ensures l.pending.Some? ==> r == l
    ensures l.pending.None? ==> r.assets == l.assets + [AssetRecord(CalendarDate(bar.date), bar.value)]
    ensures r.buySignals == l.buySignals + (if l.pending.None? && lines.enhancedBuy.Some? then 1 else 0)
    ensures r.sellSignals == l.sellSignals
      + (if l.pending.None? && lines.enhancedBuy.None? && lines.enhancedSell.Some? then 1 else 0)
    ensures r.executedBuys == l.executedBuys && r.executedSells == l.executedSells
    ensures r.trades == l.trades || (r.pending.Some? && r.trades == l.trades + [PlacedRecord(bar.date, r.pending.value)])
    ensures r.pending.Some? && l.pending.None? ==>
      if r.pending.value.side == Buy then lines.enhancedBuy.Some? && BuyOrder(bar, p) == r.pending
      else lines.enhancedBuy.None? && lines.enhancedSell.Some? && SellOrder(bar, p) == r.pending
    ensures l.pending.None? && lines.enhancedBuy.Some? ==>
      r.pending == BuyOrder(bar, p) && r.trades == Place(l, bar.date, BuyOrder(bar, p)).trades
    ensures l.pending.None? && lines.enhancedBuy.None? && lines.enhancedSell.Some? ==>
      r.pending == SellOrder(bar, p) && r.trades == Place(l, bar.date, SellOrder(bar, p)).trades
    ensures lines.enhancedBuy.None? && lines.enhancedSell.None? ==> r.pending == l.pending && r.trades == l.trades
  {
    if l.pending.Some? then l
    else
      var l' :=
        if lines.enhancedBuy.Some? then
          var placed := Place(l, bar.date, BuyOrder(bar, p));
          placed.(buySignals := placed.buySignals + 1)
        else if lines.enhancedSell.Some? then
          var placed := Place(l, bar.date, SellOrder(bar, p));
          placed.(sellSignals := placed.sellSignals + 1)
        else l;
      l'.(assets := l'.assets + [AssetRecord(CalendarDate(bar.date), bar.value)])
  }

  /** `notify_order` of this strategy: like the base class it clears the
      pending order on every status but Submitted and Accepted, and counts
      completions, but it logs nothing. */
  function AfterSignalNotify(l: Ledger<SignalTrade>, n: OrderNotice): (r: Ledger<SignalTrade>)
    ensures InFlight(n.status) ==> r == l
    ensures !InFlight(n.status) ==> r.pending.None?
    ensures r.trades == l.trades && r.assets == l.assets
    ensures r.buySignals == l.buySignals && r.sellSignals == l.sellSignals
    ensures r.executedBuys == l.executedBuys + (if n.status == Completed && n.side == Buy then 1 else 0)
    ensures r.executedSells == l.executedSells + (if n.status == Completed && n.side == Sell then 1 else 0)
  {
    if InFlight(n.status) then l
    else if n.status == Completed then
      match n.side
      case Buy => l.(pending := None, executedBuys := l.executedBuys + 1)
      case Sell => l.(pending := None, executedSells := l.executedSells + 1)
    else l.(pending := None)
  }

  predicate IsBuyTrade(t: SignalTrade) { t.action == "B" }
  predicate IsSellTrade(t: SignalTrade) { t.action == "S" }

  /** Every logged buy (sell) order was placed on a counted buy (sell)
      signal, and a pending order is the one logged last. */
  predicate SignalBooks(l: Ledger<SignalTrade>) {
    && Count(l.trades, IsBuyTrade) <= l.buySignals
    && Count(l.trades, IsSellTrade) <= l.sellSignals
    && (l.pending.Some? ==> |l.trades| > 0 && Records(l.trades[|l.trades| - 1], l.pending.value))
  }

  /** `t` is the record left by placing `o`. */
  predicate Records(t: SignalTrade, o: Order) {
    t.action == (if o.side == Buy then "B" else "S") && t.shares == o.size
  }

  /** A bar keeps the books. */
  lemma {:induction false} StepKeepsSignalBooks(l: Ledger<SignalTrade>, lines: EnhancedVolume.SignalLines, bar: Bar, p: OrderPolicy.SizingParams)
    requires p.minOrderSize > 0 && StepDefined(l, lines, bar)
    requires SignalBooks(l)
    ensures SignalBooks(Step(l, lines, bar, p))
  {
    var r := Step(l, lines, bar, p);
    if r.trades != l.trades {
      var rec := PlacedRecord(bar.date, r.pending.value);
      CountAppend(l.trades, rec, IsBuyTrade);
      CountAppend(l.trades, rec, IsSellTrade);
      assert r.trades[|r.trades| - 1] == rec;
    }
  }

  /** A notification adds no record and only clears or keeps the pending
      order, so it keeps the books. */
  lemma {:induction false} NotifyKeepsSignalBooks(l: Ledger<SignalTrade>, n: OrderNotice)
    requires SignalBooks(l)
    ensures SignalBooks(AfterSignalNotify(l, n))
  {
  }

  /** No order is placed and nothing but the bar's value is logged during the
      indicator's warm-up: the first fifty bars produce no enhanced signal. */
  lemma NoTradeDuringWarmup(l: Ledger<SignalTrade>, s: EnhancedVolume.Snapshot, bar: Bar, p: OrderPolicy.SizingParams)
    requires p.minOrderSize > 0 && EnhancedVolume.Sane(s) && s.barCount <= EnhancedVolume.MainWarmupBars
    ensures StepDefined(l, EnhancedVolume.Lines(s), bar)
    ensures var r := Step(l, EnhancedVolume.Lines(s), bar, p);
      && r.trades == l.trades && r.pending == l.pending
      && r.buySignals == l.buySignals && r.sellSignals == l.sellSignals
  {
    EnhancedVolume.NoSignalDuringWarmup(s);
  }

  /** The strategy object. */
  class EnhancedVolumeStrategy {
    const params: OrderPolicy.SizingParams
    const tradeRecordManager: SignalTradeManager
    const assetRecordManager: AssetRecordManager
    var order: Option<Order>
    var buySignalsCount: nat
    var sellSignalsCount: nat
    var executedBuysCount: nat
    var executedSellsCount: nat

    function State(): Ledger<SignalTrade>
      reads this, tradeRecordManager, assetRecordManager
    {
      Ledger(order, buySignalsCount, sellSignalsCount, executedBuysCount, executedSellsCount,
             tradeRecordManager.tradeRecords, assetRecordManager.assetRecords)
    }

    /** A fresh strategy with sizing parameters `p` (by default lot 100 and
        80%, 20%, 30%). */
    constructor (p: OrderPolicy.SizingParams)
      requires p.minOrderSize > 0
      ensures params == p && State() == EmptyLedger() && SignalBooks(State())
      ensures fresh(tradeRecordManager) && fresh(assetRecordManager)
    {
      params := p;
      tradeRecordManager := new SignalTradeManager();
      assetRecordManager := new AssetRecordManager();
      order := None;
      buySignalsCount, sellSignalsCount, executedBuysCount, executedSellsCount := 0, 0, 0, 0;
    }

    /** `trading_strategy_buy`. */
    method TradingStrategyBuy(bar: Bar)
      requires params.minOrderSize > 0
      modifies this, tradeRecordManager
      ensures State() == Place(old(State()), bar.date, BuyOrder(bar, params))
    {
      var size := OrderPolicy.BuySize(bar.cash, bar.value, bar.close, params);
      if size.Some? {
        order := Some(Order(Buy, size.value, bar.close));
        var logged := tradeRecordManager.AddSignalRecord(CalendarDate(bar.date), "B", "strong_buy", size.value);
      }
    }

    /** `trading_strategy_sell`. */
    method TradingStrategySell(bar: Bar)
      requires params.minOrderSize > 0 && SellDefined(bar)
      modifies this, tradeRecordManager
      ensures State() == Place(old(State()), bar.date, SellOrder(bar, params))
    {
      if bar.position != 0 {
        var size := OrderPolicy.SellSize(bar.position, bar.value, bar.close, params);
        if size.Some? {
          order := Some(Order(Sell, size.value, bar.close));
          var logged := tradeRecordManager.AddSignalRecord(CalendarDate(bar.date), "S", "strong_sell", size.value);
        }
      }
    }

    /** `next`, given the indicator's line values for the bar. */
    method Next(lines: EnhancedVolume.SignalLines, bar: Bar)
      requires params.minOrderSize > 0 && StepDefined(State(), lines, bar)
      modifies this, tradeRecordManager, assetRecordManager
      ensures State() == Step(old(State()), lines, bar, params)
    {
      if order.Some? {
        return;
      }
      if lines.enhancedBuy.Some? {
        TradingStrategyBuy(bar);
        buySignalsCount := buySignalsCount + 1;
      } else if lines.enhancedSell.Some? {
        TradingStrategySell(bar);
        sellSignalsCount := sellSignalsCount + 1;
      }
      var logged := assetRecordManager.AddAssetRecord(CalendarDate(bar.date), bar.value);
    }

    /** `notify_order`. */
    method NotifyOrder(n: OrderNotice)
      modifies this
      ensures State() == AfterSignalNotify(old(State()), n)
    {
      if InFlight(n.status) {
        return;
      }
      if n.status == Completed {
        if n.side == Buy {
          executedBuysCount := executedBuysCount + 1;
        } else {
          executedSellsCount := executedSellsCount + 1;
        }
      }
      order := None;
    }
  }
}
