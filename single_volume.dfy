/** `SingleVolumeStrategy`: a `StrategyBase` that trades on the main (normal)
    signals of its indicator. It sizes orders like `EnhancedVolumeStrategy`,
    logs nothing when it places an order and never logs the broker value;
    its `notify_order` is the base class's (`TradingCommon.StrategyBase.NotifyOrder`).

    Python inheritance becomes composition here: the strategy holds its
    `StrategyBase` and updates that object's fields. */
module SingleVolume {
  import opened Wrappers
  import opened TradingCommon
  import OrderPolicy

  /** The sell branch is taken and needs the close to be non-zero. */
  predicate StepDefined(l: Ledger<TradeRecord>, mainBuy: Option<real>, mainSell: Option<real>, bar: Bar) {
    l.pending.None? && mainBuy.None? && mainSell.Some? ==> SellDefined(bar)
  }

  /** `next` on one bar, given the indicator's main buy and sell line values
      for the bar: nothing happens while an order is pending; otherwise a main
      buy is handled first and a main sell only without a main buy. The
      signal is counted whether or not the sizer accepts the order. */
  function Step(l: Ledger<TradeRecord>, mainBuy: Option<real>, mainSell: Option<real>, bar: Bar,
                p: OrderPolicy.SizingParams): (r: Ledger<TradeRecord>)
    requires p.minOrderSize > 0 && StepDefined(l, mainBuy, mainSell, bar)
    ensures l.pending.Some? ==> r == l
    ensures r.trades == l.trades && r.assets == l.assets
    ensures r.executedBuys == l.executedBuys && r.executedSells == l.executedSells
    ensures r.buySignals == l.buySignals + (if l.pending.None? && mainBuy.Some? then 1 else 0)
    ensures r.sellSignals == l.sellSignals + (if l.pending.None? && mainBuy.None? && mainSell.Some? then 1 else 0)
    ensures r.pending != l.pending ==>
      || (mainBuy.Some? && r.pending == BuyOrder(bar, p) && r.pending.Some?)
      || (mainBuy.None? && mainSell.Some? && r.pending == SellOrder(bar, p) && r.pending.Some?)
    ensures l.pending.None? && mainBuy.Some? ==> r.pending == BuyOrder(bar, p)
    ensures l.pending.None? && mainBuy.None? && mainSell.Some? ==> r.pending == SellOrder(bar, p)
    ensures mainBuy.None? && mainSell.None? ==> r == l
  {
    if l.pending.Some? then l
    else if mainBuy.Some? then
      var order := BuyOrder(bar, p);
      l.(pending := if order.Some? then order else l.pending, buySignals := l.buySignals + 1)
    else if mainSell.Some? then
      var order := SellOrder(bar, p);
      l.(pending := if order.Some? then order else l.pending, sellSignals := l.sellSignals + 1)
    else l
  }

  /** A bar never unbalances the base class's books: it logs nothing and
      executes nothing. */
  lemma StepKeepsBalance(l: Ledger<TradeRecord>, mainBuy: Option<real>, mainSell: Option<real>, bar: Bar,
                         p: OrderPolicy.SizingParams)
    requires p.minOrderSize > 0 && StepDefined(l, mainBuy, mainSell, bar) && Balanced(l)
    ensures Balanced(Step(l, mainBuy, mainSell, bar, p))
  {
  }

  /** The strategy object. */
  class SingleVolumeStrategy {
    const base: StrategyBase

    constructor ()
      ensures fresh(base) && base.State() == EmptyLedger<TradeRecord>()
      ensures base.params == OrderPolicy.DefaultSizing
    {
      base := new StrategyBase();
    }

    /** `trading_strategy_buy`: sets the pending order when the sizer accepts. */
    method TradingStrategyBuy(bar: Bar)
      requires base.params.minOrderSize > 0
      modifies base
      ensures BuyOrder(bar, base.params).Some? ==> base.State() == old(base.State()).(pending := BuyOrder(bar, base.params))
      ensures BuyOrder(bar, base.params).None? ==> base.State() == old(base.State())
    {
      var size := OrderPolicy.BuySize(bar.cash, bar.value, bar.close, base.params);
      if size.Some? {
        base.order := Some(Order(Buy, size.value, bar.close));
      }
    }

    /** `trading_strategy_sell`: sets the pending order when there is a
        position and the sizer accepts. */
    method TradingStrategySell(bar: Bar)
      requires base.params.minOrderSize > 0 && SellDefined(bar)
      modifies base
      ensures SellOrder(bar, base.params).Some? ==> base.State() == old(base.State()).(pending := SellOrder(bar, base.params))
      ensures SellOrder(bar, base.params).None? ==> base.State() == old(base.State())
    {
      if bar.position != 0 {
        var size := OrderPolicy.SellSize(bar.position, bar.value, bar.close, base.params);
        if size.Some? {
          base.order := Some(Order(Sell, size.value, bar.close));
        }
      }
    }

    /** `next`, given the indicator's main line values for the bar. */
    method Next(mainBuy: Option<real>, mainSell: Option<real>, bar: Bar)
      requires base.params.minOrderSize > 0 && StepDefined(base.State(), mainBuy, mainSell, bar)
      modifies base
      ensures base.State() == Step(old(base.State()), mainBuy, mainSell, bar, base.params)
    {
      if base.order.Some? {
        return;
      } else if mainBuy.Some? {
        TradingStrategyBuy(bar);
        base.buySignalsCount := base.buySignalsCount + 1;
      } else if mainSell.Some? {
        TradingStrategySell(bar);
        base.sellSignalsCount := base.sellSignalsCount + 1;
      }
    }
  }
}
