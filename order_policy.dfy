/** Position sizing and the commission breakdown used by the volume strategies.

    `EnhancedVolumeStrategy` and `SingleVolumeStrategy` size their orders with
    the same arithmetic; it is defined once here. Cash, equity (broker value),
    position and price are the broker's values at the moment of the decision. */
module OrderPolicy {
  import opened Wrappers

  /** The strategy parameters that bound an order. */
  datatype SizingParams = SizingParams(
    minOrderSize: int,            // lot size
    maxPortfolioPercent: real,
    maxSingleBuyPercent: real,
    maxSingleSellPercent: real)

  /** Default parameters: lot 100, 80% portfolio, 20% per buy, 30% per sell. */
  const DefaultSizing := SizingParams(100, 0.8, 0.2, 0.3)

  function MinReal(a: real, b: real): real { if a <= b then a else b }
  function MaxReal(a: real, b: real): real { if a >= b then a else b }
  function MinInt(a: int, b: int): int { if a <= b then a else b }
  function MaxInt(a: int, b: int): int { if a >= b then a else b }

  /** `min(cash, value * buy%, value * portfolio%)`. */
  function UsableCash(cash: real, value: real, p: SizingParams): (r: real)
    ensures r <= cash
    ensures r <= value * p.maxSingleBuyPercent
    ensures r <= value * p.maxPortfolioPercent
    ensures r == cash || r == value * p.maxSingleBuyPercent || r == value * p.maxPortfolioPercent
  {
    MinReal(MinReal(cash, value * p.maxSingleBuyPercent), value * p.maxPortfolioPercent)
  }

  lemma ScaleLe(a: real, b: real, c: real)
    requires a <= b && c >= 0.0
    ensures a * c <= b * c
  {
    var d := b - a;
    assert d * c >= 0.0;
    assert b * c == a * c + d * c;
  }

  lemma ScaleLt(a: real, b: real, c: real)
    requires a < b && c > 0.0
    ensures a * c < b * c
  {
  }

  lemma IntMulToReal(a: int, b: int)
    ensures (a * b) as real == a as real * b as real
  {
  }

  lemma MulAtLeast(d: int, unit: int)
    requires d >= 1 && unit > 0
    ensures d * unit >= unit
  {
  }

  /** A multiple of `unit` leaves no remainder. */
  lemma MulMod(n: int, unit: int)
    requires unit > 0
    ensures (n * unit) % unit == 0
    ensures (n * unit) / unit == n
  {
    var r := n * unit;
    var q, m := r / unit, r % unit;
    assert r == q * unit + m;
    assert (n - q) * unit == m by {
      assert (n - q) * unit == n * unit - q * unit;
    }
    if n - q >= 1 {
      MulAtLeast(n - q, unit);
    } else if q - n >= 1 {
      MulAtLeast(q - n, unit);
    }
  }

  lemma DivideBack(amount: real, price: real, u: real)
    requires price != 0.0 && u != 0.0
    ensures amount / price / u * (u * price) == amount
  {
  }

  /** `n <= q < n + 1` for `n` the floor of `q`, scaled by a positive factor. */
  lemma FloorScaled(q: real, n: int, up: real)
    requires up > 0.0 && n == q.Floor
    ensures n as real * up <= q * up < (n + 1) as real * up
  {
    ScaleLe(n as real, q, up);
    ScaleLt(q, (n + 1) as real, up);
  }

  /** How many whole `unit`s of `price` fit in `amount`:
      `amount / price // unit * unit`, for a positive integer `unit`. */
  function WholeUnits(amount: real, price: real, unit: int): (r: int)
    requires price != 0.0 && unit > 0
    ensures r % unit == 0
    ensures price > 0.0 ==> r as real * price <= amount < (r + unit) as real * price
  {
    var n := (amount / price / unit as real).Floor;
    var r := n * unit;
    MulMod(n, unit);
    assert price > 0.0 ==> r as real * price <= amount < (r + unit) as real * price by {
      if price > 0.0 {
        WholeUnitsBounds(amount, price, unit, n, r, r + unit);
      }
    }
    r
  }

  lemma WholeUnitsBounds(amount: real, price: real, unit: int, n: int, lo: int, hi: int)
    requires price > 0.0 && unit > 0
    requires n == (amount / price / unit as real).Floor
    requires lo == n * unit && hi == lo + unit
    ensures lo as real * price <= amount < hi as real * price
  {
    var up := unit as real * price;
    var q := amount / price / unit as real;
    DivideBack(amount, price, unit as real);
    FloorScaled(q, n, up);
    Regroup(n, unit, price, lo);
    assert hi == (n + 1) * unit;
    Regroup(n + 1, unit, price, hi);
    LessThanVia(amount, q * up, (n + 1) as real * up, hi as real * price);
  }

  lemma LessThanVia(a: real, b: real, c: real, d: real)
    requires a == b && b < c && c == d
    ensures a < d
  {
  }

  /** `m * price` regrouped as `k * (unit * price)` for `m == k * unit`. */
  lemma Regroup(k: int, unit: int, price: real, m: int)
    requires m == k * unit
    ensures m as real * price == k as real * (unit as real * price)
  {
    IntMulToReal(k, unit);
  }

  /** Rounding an integer down to a multiple of `lot` (floor division). */
  lemma RoundToLot(n: int, lot: int)
    requires lot > 0
    ensures n / lot * lot <= n < n / lot * lot + lot
    ensures (n / lot * lot) % lot == 0
    ensures n >= lot ==> n / lot * lot >= lot
  {
    var q := n / lot;
    MulMod(q, lot);
    if q >= 1 {
      MulAtLeast(q, lot);
    } else {
      MulAtMost(q, lot);
    }
  }

  lemma MulAtMost(d: int, unit: int)
    requires d <= 0 && unit > 0
    ensures d * unit <= 0
  {
  }

  /** Lot-rounded buy size for an order at `price`, or `None` when the order is
      declined (non-positive price, or less usable cash than one lot costs). */
  function BuySize(cash: real, value: real, price: real, p: SizingParams): (r: Option<int>)
    requires p.minOrderSize > 0
    ensures r.Some? <==> price > 0.0 && UsableCash(cash, value, p) >= price * p.minOrderSize as real
    ensures r.Some? ==> r.value >= p.minOrderSize && r.value % p.minOrderSize == 0
    ensures r.Some? ==> r.value as real * price <= UsableCash(cash, value, p) <= cash
    ensures r.Some? ==> (r.value + p.minOrderSize) as real * price > UsableCash(cash, value, p)
  {
    var lot := p.minOrderSize;
    var usable := UsableCash(cash, value, p);
    if price > 0.0 && usable >= price * lot as real then
      var shares := WholeUnits(usable, price, 1);
      BuySharesAtLeastLot(usable, price, lot, shares);
      var buySize := MaxInt(shares, lot);
      assert buySize == shares;
      if buySize >= lot then
        var size := buySize / lot * lot;
        LotRoundingBounds(usable, price, lot, shares, size);
        Some(size)
      else None
    else None
  }

  lemma BuySharesAtLeastLot(usable: real, price: real, lot: int, shares: int)
    requires price > 0.0 && lot > 0 && usable >= price * lot as real
    requires shares == WholeUnits(usable, price, 1)
    ensures shares >= lot
  {
    assert usable < (shares + 1) as real * price;
    if shares < lot {
      ScaleLe((shares + 1) as real, lot as real, price);
      assert false;
    }
  }

  lemma LotRoundingBounds(usable: real, price: real, lot: int, shares: int, size: int)
    requires price > 0.0 && lot > 0 && shares >= lot
    requires shares as real * price <= usable < (shares + 1) as real * price
    requires size == shares / lot * lot
    ensures lot <= size && size % lot == 0
    ensures size as real * price <= usable < (size + lot) as real * price
  {
    RoundToLot(shares, lot);
    ScaleLe(size as real, shares as real, price);
    ScaleLe((shares + 1) as real, (size + lot) as real, price);
    LessThanAtMost(usable, (shares + 1) as real * price, (size + lot) as real * price);
  }

  lemma LessThanAtMost(a: real, b: real, c: real)
    requires a < b <= c
    ensures a < c
  {
  }

  /** Once the entry test passes, the "fewer shares than a lot" branch is never taken. */
  lemma BuyInnerRejectUnreachable(cash: real, value: real, price: real, p: SizingParams)
    requires p.minOrderSize > 0
    requires price > 0.0 && UsableCash(cash, value, p) >= price * p.minOrderSize as real
    ensures MaxInt(WholeUnits(UsableCash(cash, value, p), price, 1), p.minOrderSize)
         == WholeUnits(UsableCash(cash, value, p), price, 1)
  {
    var usable := UsableCash(cash, value, p);
    BuySharesAtLeastLot(usable, price, p.minOrderSize, WholeUnits(usable, price, 1));
  }

  /** `value * sell% / price // lot * lot`: the sell cap in shares, whole lots. */
  function SellCap(value: real, price: real, p: SizingParams): (r: int)
    requires p.minOrderSize > 0 && price != 0.0
    ensures r % p.minOrderSize == 0
    ensures price > 0.0 ==> r as real * price <= value * p.maxSingleSellPercent
    ensures price > 0.0 ==> (r + p.minOrderSize) as real * price > value * p.maxSingleSellPercent
  {
    WholeUnits(value * p.maxSingleSellPercent, price, p.minOrderSize)
  }

  /** Lot-rounded sell size, or `None` when declined: no position, or fewer
      sellable shares than one lot under the position and the sell cap. The
      source divides by the price here without a check, so a zero price with a
      position is excluded. */
  function SellSize(position: int, value: real, price: real, p: SizingParams): (r: Option<int>)
    requires p.minOrderSize > 0
    requires position != 0 ==> price != 0.0
    ensures position < p.minOrderSize ==> r.None?
    ensures r.Some? <==> position >= p.minOrderSize && SellCap(value, price, p) >= p.minOrderSize
    ensures r.Some? ==> p.minOrderSize <= r.value <= position && r.value % p.minOrderSize == 0
    ensures r.Some? ==> r.value + p.minOrderSize > position || r.value == SellCap(value, price, p)
    ensures r.Some? && price > 0.0 ==> r.value as real * price <= value * p.maxSingleSellPercent
  {
    var lot := p.minOrderSize;
    if position != 0 then
      var remaining := position / lot * lot;
      var cap := SellCap(value, price, p);
      var sellSize := MinInt(remaining, cap);
      RoundToLot(position, lot);
      assert price > 0.0 && sellSize >= lot ==> sellSize as real * price <= value * p.maxSingleSellPercent by {
        if price > 0.0 && sellSize >= lot {
          ScaleLe(sellSize as real, cap as real, price);
        }
      }
      if sellSize >= lot then Some(sellSize) else None
    else None
  }


  // ---------------------------------------------------------------------------
  // Commission breakdown

  /** Commission model parameters (the `comminfo.p` fields that the breakdown reads). */
  datatype CommissionParams = CommissionParams(
    commission: real, minCommission: real,
    stampDuty: real, transactionLevy: real, transactionFee: real,
    settlementFee: real, minSettlementFee: real, maxSettlementFee: real,
    tradingSystemFee: real)

  /** The Hong Kong example parameters. */
  const HongKong := CommissionParams(0.0003, 3.0, 0.0013, 0.000027, 0.00005, 0.00002, 2.0, 100.0, 15.0)

  datatype CommissionBreakdown = CommissionBreakdown(
    commission: real, stampDuty: real, transactionLevy: real, transactionFee: real,
    settlementFee: real, tradingSystemFee: real, totalCommission: real)

  function Abs(n: int): nat { if n < 0 then -n else n }

  /** The broker commission: the rate on the trade value, never below the minimum. */
  function BrokerCommission(value: real, c: CommissionParams): (f: real)
    ensures f >= c.minCommission && f >= value * c.commission
    ensures f == c.minCommission || f == value * c.commission
  {
    MaxReal(value * c.commission, c.minCommission)
  }

  /** The settlement fee: the rate on the trade value, clamped to its band. */
  function SettlementFee(value: real, c: CommissionParams): (f: real)
    ensures f >= c.minSettlementFee
    ensures c.minSettlementFee <= c.maxSettlementFee ==> f <= c.maxSettlementFee
    ensures c.minSettlementFee <= value * c.settlementFee <= c.maxSettlementFee ==> f == value * c.settlementFee
    ensures value * c.settlementFee <= c.minSettlementFee ==> f == c.minSettlementFee
    ensures c.minSettlementFee <= c.maxSettlementFee <= value * c.settlementFee ==> f == c.maxSettlementFee
  {
    MaxReal(MinReal(value * c.settlementFee, c.maxSettlementFee), c.minSettlementFee)
  }

  /** The fee breakdown for a trade worth `value`: the broker commission, three
      proportional fees, the settlement fee and the flat system fee, with the
      total their sum. */
  function Breakdown(value: real, c: CommissionParams): (b: CommissionBreakdown)
    ensures b.totalCommission == b.commission + b.stampDuty + b.transactionLevy + b.transactionFee
                                 + b.tradingSystemFee + b.settlementFee
    ensures b.commission >= c.minCommission && b.settlementFee >= c.minSettlementFee
    ensures b.commission == BrokerCommission(value, c) && b.settlementFee == SettlementFee(value, c)
    ensures b.stampDuty == value * c.stampDuty && b.transactionLevy == value * c.transactionLevy
    ensures b.transactionFee == value * c.transactionFee && b.tradingSystemFee == c.tradingSystemFee
  {
    var commission := BrokerCommission(value, c);
    var stampDuty := value * c.stampDuty;
    var transactionLevy := value * c.transactionLevy;
    var transactionFee := value * c.transactionFee;
    var settlementFee := SettlementFee(value, c);
    var tradingSystemFee := c.tradingSystemFee;
    var total := commission + stampDuty + transactionLevy + transactionFee + tradingSystemFee + settlementFee;
    CommissionBreakdown(commission, stampDuty, transactionLevy, transactionFee,
                        settlementFee, tradingSystemFee, total)
  }

  /** The fee breakdown for `size` shares at `price` (the trade value is
      `|size| * price`); `None` when the commission model carries no parameters. */
  function CommissionDetails(size: int, price: real, info: Option<CommissionParams>): (r: Option<CommissionBreakdown>)
    ensures r.Some? <==> info.Some?
    ensures r.Some? ==> r.value == Breakdown(Abs(size) as real * price, info.value)
  {
    match info
    case None => None
    case Some(c) => Some(Breakdown(Abs(size) as real * price, c))
  }

  /** Buying and selling the same quantity cost the same. */
  lemma {:induction false} CommissionIgnoresSign(size: int, price: real, info: Option<CommissionParams>)
    ensures CommissionDetails(-size, price, info) == CommissionDetails(size, price, info)
  {
    match info
    case None =>
    case Some(c) =>
      var v := Abs(size) as real * price;
      assert Abs(-size) as real * price == v;
      assert CommissionDetails(-size, price, info) == Some(Breakdown(v, c));
  }

  predicate NonNegativeRates(c: CommissionParams) {
    c.commission >= 0.0 && c.stampDuty >= 0.0 && c.transactionLevy >= 0.0
    && c.transactionFee >= 0.0 && c.settlementFee >= 0.0
  }

  /** For a fixed price and non-negative rates, the total never falls as the
      quantity grows. */
  lemma {:induction false} CommissionMonotone(s1: int, s2: int, price: real, c: CommissionParams)
    requires NonNegativeRates(c) && price >= 0.0
    requires Abs(s1) <= Abs(s2)
    ensures CommissionDetails(s1, price, Some(c)).value.totalCommission
         <= CommissionDetails(s2, price, Some(c)).value.totalCommission
  {
    var v1, v2 := Abs(s1) as real * price, Abs(s2) as real * price;
    assert CommissionDetails(s1, price, Some(c)).value == Breakdown(v1, c);
    assert CommissionDetails(s2, price, Some(c)).value == Breakdown(v2, c);
    ScaleLe(Abs(s1) as real, Abs(s2) as real, price);
    BreakdownMonotone(v1, v2, c);
  }

  /** For non-negative rates, a larger trade value never costs less. */
  lemma BreakdownMonotone(v1: real, v2: real, c: CommissionParams)
    requires NonNegativeRates(c) && v1 <= v2
    ensures Breakdown(v1, c).totalCommission <= Breakdown(v2, c).totalCommission
  {
    FeeMonotone(v1, v2, c);
    SumLe(Breakdown(v1, c), Breakdown(v2, c));
  }

  lemma FeeMonotone(v1: real, v2: real, c: CommissionParams)
    requires NonNegativeRates(c) && v1 <= v2
    ensures var b1, b2 := Breakdown(v1, c), Breakdown(v2, c);
      && b1.commission <= b2.commission && b1.stampDuty <= b2.stampDuty
      && b1.transactionLevy <= b2.transactionLevy && b1.transactionFee <= b2.transactionFee
      && b1.tradingSystemFee <= b2.tradingSystemFee && b1.settlementFee <= b2.settlementFee
  {
    CommissionFeeMonotone(v1, v2, c);
    SettlementFeeMonotone(v1, v2, c);
    FeeMonotoneC(v1, v2, c);
  }

  lemma CommissionFeeMonotone(v1: real, v2: real, c: CommissionParams)
    requires c.commission >= 0.0 && v1 <= v2
    ensures BrokerCommission(v1, c) <= BrokerCommission(v2, c)
  {
    var x1, x2 := v1 * c.commission, v2 * c.commission;
    ScaleLe(v1, v2, c.commission);
    assert x1 <= x2;
    MaxMono(x1, x2, c.minCommission);
  }

  lemma SettlementFeeMonotone(v1: real, v2: real, c: CommissionParams)
    requires c.settlementFee >= 0.0 && v1 <= v2
    ensures SettlementFee(v1, c) <= SettlementFee(v2, c)
  {
    var x1, x2 := v1 * c.settlementFee, v2 * c.settlementFee;
    ScaleLe(v1, v2, c.settlementFee);
    assert x1 <= x2;
    ClampMono(x1, x2, c.minSettlementFee, c.maxSettlementFee);
  }

  lemma FeeMonotoneC(v1: real, v2: real, c: CommissionParams)
    requires NonNegativeRates(c) && v1 <= v2
    ensures var b1, b2 := Breakdown(v1, c), Breakdown(v2, c);
      && b1.stampDuty <= b2.stampDuty
      && b1.transactionLevy <= b2.transactionLevy && b1.transactionFee <= b2.transactionFee
  {
    ScaleLe(v1, v2, c.stampDuty);
    ScaleLe(v1, v2, c.transactionLevy);
    ScaleLe(v1, v2, c.transactionFee);
  }

  lemma ClampMono(a: real, b: real, lo: real, hi: real)
    requires a <= b
    ensures MaxReal(MinReal(a, hi), lo) <= MaxReal(MinReal(b, hi), lo)
  {
  }

  lemma MaxMono(a: real, b: real, lo: real)
    requires a <= b
    ensures MaxReal(a, lo) <= MaxReal(b, lo)
  {
  }

  lemma SumLe(b1: CommissionBreakdown, b2: CommissionBreakdown)
    requires b1.commission <= b2.commission && b1.stampDuty <= b2.stampDuty
    requires b1.transactionLevy <= b2.transactionLevy && b1.transactionFee <= b2.transactionFee
    requires b1.tradingSystemFee <= b2.tradingSystemFee && b1.settlementFee <= b2.settlementFee
    ensures b1.commission + b1.stampDuty + b1.transactionLevy + b1.transactionFee + b1.tradingSystemFee + b1.settlementFee
         <= b2.commission + b2.stampDuty + b2.transactionLevy + b2.transactionFee + b2.tradingSystemFee + b2.settlementFee
  {
  }

  /** 10,000 shares at 10 HKD: commission 30, stamp duty 130, levy 2.7,
      trading fee 5, settlement 2 (the floor), system fee 15; 184.7 in all. */
  lemma HongKongExample()
    ensures CommissionDetails(10000, 10.0, Some(HongKong))
         == Some(CommissionBreakdown(30.0, 130.0, 2.7, 5.0, 2.0, 15.0, 184.7))
  {
  }

  /** With cash 100,000 and the default caps, one lot at 1,000 is out of reach
      (20,000 buys 20 shares), while at 100 the order is 200 shares. */
  lemma DefaultBuyExamples()
    ensures BuySize(100000.0, 100000.0, 1000.0, DefaultSizing) == None
    ensures BuySize(100000.0, 100000.0, 100.0, DefaultSizing) == Some(200)
  {
    assert (20000.0 / 100.0 / 1.0).Floor == 200;
    assert (100000.0 * 0.2 / 1000.0 / 1.0).Floor == 20;
  }

  /** The sizer caps the spend to the cash but not the fee: here the shares
      cost all of the cash and the commission comes on top. */
  lemma FeeNotBudgeted()
    ensures BuySize(2000.0, 100000.0, 20.0, DefaultSizing) == Some(100)
    ensures 100.0 * 20.0 + CommissionDetails(100, 20.0, Some(HongKong)).value.totalCommission > 2000.0
  {
    assert (2000.0 / 20.0 / 1.0).Floor == 100;
  }
}
