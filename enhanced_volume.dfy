/** The per-bar signal classifier of `EnhancedVolumeIndicator`: a volume spike
    against the 5- and 20-day averages after three same-coloured candles gives a
    "main" signal once more than 50 bars exist; RSI, Bollinger and KDJ filters
    on top of it give an "enhanced" (strong) signal.

    The rolling series (moving averages, standard deviations, Bollinger bands,
    the RSI averages, K and D) are computed by the backtesting framework; one
    bar's values of them form a `Snapshot`. */
module EnhancedVolume {
  import opened Wrappers

  /** The guard added to the RSI, RSV and volume-ratio denominators (`1e-10`). */
  const Epsilon: real := 0.0000000001

  /** `rsi_period`; the RSI cross-over is considered only after this many bars. */
  const RsiPeriod: nat := 14
  /** Main signals need strictly more bars than this (`BARSCOUNT(1) > 50`). */
  const MainWarmupBars: nat := 50

  const RsiOversold: real := 30.0
  const RsiOverbought: real := 70.0
  const KdjLow: real := 20.0
  const KdjHigh: real := 80.0

  /** One candle: the bar's open and close. */
  datatype Candle = Candle(open: real, close: real)

  /** The framework-computed values the indicator reads on one bar. */
  datatype Snapshot = Snapshot(
    barCount: nat,                                    // len(self)
    maVolToday: real, maVol5: real, maVol20: real,     // SMA of volume, periods 1, 5, 20
    maCloseToday: real, maClose5: real, maClose20: real,
    volStd5: real, volStd20: real,                     // standard deviation of volume
    today: Candle, yesterday: Candle, twoDaysAgo: Candle,
    low: real, high: real,
    rsiAvgUp: real, rsiAvgDown: real,                  // SMA(14) of gains and losses, today
    prevRsiAvgUp: real, prevRsiAvgDown: real,          // the same, yesterday
    bollTop: real, bollBot: real,
    k: real, d: real)

  /** Volumes and their statistics are never negative, nor are the RSI averages. */
  predicate Sane(s: Snapshot) {
    && s.maVolToday >= 0.0 && s.maVol5 >= 0.0 && s.maVol20 >= 0.0
    && s.volStd5 >= 0.0 && s.volStd20 >= 0.0
    && s.rsiAvgUp >= 0.0 && s.rsiAvgDown >= 0.0
    && s.prevRsiAvgUp >= 0.0 && s.prevRsiAvgDown >= 0.0
  }

  function Min(a: real, b: real): real { if a <= b then a else b }

  // ---------------------------------------------------------------------------
  // Formulas built in `__init__`

  /** Today's gain and loss against yesterday's close (`bt.Max(delta, 0)` and
      `abs(bt.Min(delta, 0))`): both non-negative and they recombine to the move.
      The snapshot takes the smoothed averages of these as inputs, so these two
      formulas, like `Rsv` and `KdjJ`, feed no other member of the model. */
  function RsiUp(delta: real): (r: real)
    ensures r >= 0.0 && r >= delta
    ensures r == 0.0 || r == delta
  {
    if delta > 0.0 then delta else 0.0
  }

  function RsiDown(delta: real): (r: real)
    ensures r >= 0.0 && r >= -delta
    ensures RsiUp(delta) - r == delta
  {
    if delta < 0.0 then -delta else 0.0
  }

  /** `rsi = avg_up / (avg_up + avg_down + 1e-10) * 100`; always in [0, 100). */
  function Rsi(avgUp: real, avgDown: real): (r: real)
    requires avgUp >= 0.0 && avgDown >= 0.0
    ensures 0.0 <= r < 100.0
    ensures avgUp == 0.0 ==> r == 0.0
  {
    var den := avgUp + avgDown + Epsilon;
    assert avgUp / den < 1.0 by {
      assert avgUp < den;
    }
    avgUp / den * 100.0
  }

  /** RSV with the 9-day lowest low in the numerator and a 3-day high/low range
      in the denominator. K and D, which smooth it, are snapshot inputs. */
  function Rsv(close: real, lowest9: real, highest3: real, lowest3: real): (r: real)
    requires highest3 >= lowest3
    ensures close >= lowest9 ==> r >= 0.0
    ensures close < lowest9 ==> r < 0.0
  {
    var den := highest3 - lowest3 + Epsilon;
    assert den > 0.0;
    (close - lowest9) / den * 100.0
  }

  /** Because the windows differ, RSV is not confined to [0, 100]. */
  lemma RsvMayExceedHundred()
    ensures Rsv(10.0, 0.0, 10.0, 5.0) > 100.0
  {
  }

  /** `j = 3k - 2d` */
  function KdjJ(k: real, d: real): (j: real)
    ensures k == d ==> j == k
    ensures j - k == 2.0 * (k - d)
  {
    3.0 * k - 2.0 * d
  }

  // ---------------------------------------------------------------------------
  // Volume gate

  /** `base + min(std / (ma + 1e-10), cap)`, between `base` and `base + cap`. */
  function VolumeMultiplier(std: real, ma: real, base: real, cap: real): (r: real)
    requires std >= 0.0 && ma >= 0.0 && cap >= 0.0
    ensures base <= r <= base + cap
  {
    var den := ma + Epsilon;
    assert std / den >= 0.0;
    base + Min(std / den, cap)
  }

  function VolMultiplier5(s: Snapshot): real
    requires Sane(s)
  {
    VolumeMultiplier(s.volStd5, s.maVol5, 0.9, 0.6)
  }

  function VolMultiplier20(s: Snapshot): real
    requires Sane(s)
  {
    VolumeMultiplier(s.volStd20, s.maVol20, 0.8, 0.5)
  }

  lemma MultiplierRanges(s: Snapshot)
    requires Sane(s)
    ensures 0.9 <= VolMultiplier5(s) <= 1.5
    ensures 0.8 <= VolMultiplier20(s) <= 1.3
  {
  }

  /** `vo_count`: the volume excess `today - ma`, kept only when today's volume
      beats `ma * multiplier`. Because the multiplier can be below 1, a kept
      excess can be negative; it is positive exactly when today beats both. */
  function VolumeExcess(today: real, ma: real, multiplier: real): (r: real)
    ensures r != 0.0 ==> today > ma * multiplier && r == today - ma
    ensures r > 0.0 <==> today > ma * multiplier && today > ma
  {
    if today > ma * multiplier then today - ma else 0.0
  }

  /** A spike that clears the multiplier yet leaves a negative excess. */
  lemma NegativeExcessPossible()
    ensures VolumeExcess(9.5, 10.0, 0.9) < 0.0
  {
  }

  function VoCount5(s: Snapshot): real
    requires Sane(s)
  {
    VolumeExcess(s.maVolToday, s.maVol5, VolMultiplier5(s))
  }

  function VoCount20(s: Snapshot): real
    requires Sane(s)
  {
    VolumeExcess(s.maVolToday, s.maVol20, VolMultiplier20(s))
  }

  // ---------------------------------------------------------------------------
  // Price gate

  predicate Bearish(c: Candle) { c.close < c.open }
  predicate Bullish(c: Candle) { c.close > c.open }

  /** Three down candles in a row; false before the third bar. */
  predicate Is3Down(s: Snapshot) {
    s.barCount >= 3 && Bearish(s.today) && Bearish(s.yesterday) && Bearish(s.twoDaysAgo)
  }

  predicate Is3Up(s: Snapshot) {
    s.barCount >= 3 && Bullish(s.today) && Bullish(s.yesterday) && Bullish(s.twoDaysAgo)
  }

  lemma DownUpExclusive(s: Snapshot)
    ensures !(Is3Down(s) && Is3Up(s))
  {
  }

  /** `ma_count_buy`: how far the horizon's close average sits above today's,
      counted only after three down candles. */
  function PriceCountBuy(threeDown: bool, horizonMa: real, todayMa: real): (r: real)
    ensures r >= 0.0
    ensures r != 0.0 <==> threeDown && horizonMa > todayMa
  {
    if threeDown && horizonMa > todayMa then horizonMa - todayMa else 0.0
  }

  /** `ma_count_sell`: how far today's close average sits above the horizon's,
      counted only after three up candles. */
  function PriceCountSell(threeUp: bool, horizonMa: real, todayMa: real): (r: real)
    ensures r >= 0.0
    ensures r != 0.0 <==> threeUp && horizonMa < todayMa
  {
    if threeUp && horizonMa < todayMa then todayMa - horizonMa else 0.0
  }

  // ---------------------------------------------------------------------------
  // Horizon scores

  /** A buy score is non-zero exactly when both inputs are positive, and then negative. */
  function BuyScore(voCount: real, maCount: real): (r: real)
    ensures r != 0.0 <==> voCount > 0.0 && maCount > 0.0
    ensures r <= 0.0
  {
    if voCount > 0.0 && maCount > 0.0 then -voCount * maCount else 0.0
  }

  /** A sell score is non-zero exactly when both inputs are positive, and then positive. */
  function SellScore(voCount: real, maCount: real): (r: real)
    ensures r != 0.0 <==> voCount > 0.0 && maCount > 0.0
    ensures r >= 0.0
  {
    if voCount > 0.0 && maCount > 0.0 then voCount * maCount else 0.0
  }

  function BuySignal5(s: Snapshot): real requires Sane(s) {
    BuyScore(VoCount5(s), PriceCountBuy(Is3Down(s), s.maClose5, s.maCloseToday))
  }
  function SellSignal5(s: Snapshot): real requires Sane(s) {
    SellScore(VoCount5(s), PriceCountSell(Is3Up(s), s.maClose5, s.maCloseToday))
  }
  function BuySignal20(s: Snapshot): real requires Sane(s) {
    BuyScore(VoCount20(s), PriceCountBuy(Is3Down(s), s.maClose20, s.maCloseToday))
  }
  function SellSignal20(s: Snapshot): real requires Sane(s) {
    SellScore(VoCount20(s), PriceCountSell(Is3Up(s), s.maClose20, s.maCloseToday))
  }

  function Indicator(b: bool): nat { if b then 1 else 0 }

  function BuySignalCount(s: Snapshot): nat requires Sane(s) {
    Indicator(BuySignal5(s) != 0.0) + Indicator(BuySignal20(s) != 0.0)
  }
  function SellSignalCount(s: Snapshot): nat requires Sane(s) {
    Indicator(SellSignal5(s) != 0.0) + Indicator(SellSignal20(s) != 0.0)
  }

  // ---------------------------------------------------------------------------
  // Signals

  predicate MainBuy(s: Snapshot) requires Sane(s) {
    BuySignalCount(s) >= 2 && s.barCount > MainWarmupBars
  }

  predicate MainSell(s: Snapshot) requires Sane(s) {
    SellSignalCount(s) >= 2 && s.barCount > MainWarmupBars
  }

  function RsiToday(s: Snapshot): real requires Sane(s) { Rsi(s.rsiAvgUp, s.rsiAvgDown) }
  function RsiPrev(s: Snapshot): real requires Sane(s) { Rsi(s.prevRsiAvgUp, s.prevRsiAvgDown) }

  /** RSI crossing up through 30, only once more than `rsi_period` bars exist. */
  predicate RsiBuyCross(s: Snapshot) requires Sane(s) {
    s.barCount > RsiPeriod && RsiToday(s) > RsiOversold && RsiPrev(s) < RsiOversold
  }

  predicate RsiSellCross(s: Snapshot) requires Sane(s) {
    s.barCount > RsiPeriod && RsiToday(s) < RsiOverbought && RsiPrev(s) > RsiOverbought
  }

  /** Low pierces the lower band, or the close is back above it. */
  predicate BollBuy(s: Snapshot) {
    s.low < s.bollBot || s.today.close > s.bollBot
  }

  predicate BollSell(s: Snapshot) {
    s.high > s.bollTop || s.today.close < s.bollTop
  }

  predicate KdjBuy(s: Snapshot) {
    (s.k < KdjLow && s.d < KdjLow) || KdjJ(s.k, s.d) < KdjLow
  }

  predicate KdjSell(s: Snapshot) {
    (s.k > KdjHigh && s.d > KdjHigh) || KdjJ(s.k, s.d) > KdjHigh
  }

  /** The active (RSI-including) strong-buy rule. */
  predicate EnhancedBuy(s: Snapshot) requires Sane(s) {
    MainBuy(s) && ((RsiToday(s) < RsiOversold || RsiBuyCross(s)) && BollBuy(s)) && KdjBuy(s)
  }

  predicate EnhancedSell(s: Snapshot) requires Sane(s) {
    MainSell(s) && ((RsiToday(s) > RsiOverbought || RsiSellCross(s)) && BollSell(s)) && KdjSell(s)
  }

  /** The four booleans `next` derives for one bar. */
  datatype BarSignals = BarSignals(mainBuy: bool, mainSell: bool, enhancedBuy: bool, enhancedSell: bool)

  function Classify(s: Snapshot): (r: BarSignals)
    requires Sane(s)
    ensures r.enhancedBuy ==> r.mainBuy
    ensures r.enhancedSell ==> r.mainSell
  {
    BarSignals(MainBuy(s), MainSell(s), EnhancedBuy(s), EnhancedSell(s))
  }

  // ---------------------------------------------------------------------------
  // Properties of the gating

  /** A volume spike against a horizon, in the sense the score needs. */
  predicate VolumeSpike(today: real, ma: real, multiplier: real) {
    today > ma * multiplier && today > ma
  }

  /** Main buy, unfolded: more than 50 bars, three down candles, both close
      averages above today's, and a spike against both volume averages. */
  lemma {:induction false} MainBuyMeaning(s: Snapshot)
    requires Sane(s)
    ensures MainBuy(s) <==>
      && s.barCount > MainWarmupBars
      && Is3Down(s)
      && s.maClose5 > s.maCloseToday && s.maClose20 > s.maCloseToday
      && VolumeSpike(s.maVolToday, s.maVol5, VolMultiplier5(s))
      && VolumeSpike(s.maVolToday, s.maVol20, VolMultiplier20(s))
  {
    var vo5, vo20 := VoCount5(s), VoCount20(s);
    var b5 := PriceCountBuy(Is3Down(s), s.maClose5, s.maCloseToday);
    var b20 := PriceCountBuy(Is3Down(s), s.maClose20, s.maCloseToday);
    assert BuySignal5(s) != 0.0 <==> vo5 > 0.0 && b5 > 0.0;
    assert BuySignal20(s) != 0.0 <==> vo20 > 0.0 && b20 > 0.0;
  }

  /** Main sell, unfolded symmetrically. */
  lemma {:induction false} MainSellMeaning(s: Snapshot)
    requires Sane(s)
    ensures MainSell(s) <==>
      && s.barCount > MainWarmupBars
      && Is3Up(s)
      && s.maClose5 < s.maCloseToday && s.maClose20 < s.maCloseToday
      && VolumeSpike(s.maVolToday, s.maVol5, VolMultiplier5(s))
      && VolumeSpike(s.maVolToday, s.maVol20, VolMultiplier20(s))
  {
    var vo5, vo20 := VoCount5(s), VoCount20(s);
    var c5 := PriceCountSell(Is3Up(s), s.maClose5, s.maCloseToday);
    var c20 := PriceCountSell(Is3Up(s), s.maClose20, s.maCloseToday);
    assert SellSignal5(s) != 0.0 <==> vo5 > 0.0 && c5 > 0.0;
    assert SellSignal20(s) != 0.0 <==> vo20 > 0.0 && c20 > 0.0;
  }

  /** A bar never carries both a main buy and a main sell. */
  lemma {:induction false} MainSignalsExclusive(s: Snapshot)
    requires Sane(s)
    ensures !(MainBuy(s) && MainSell(s))
    ensures !(EnhancedBuy(s) && EnhancedSell(s))
  {
    if MainBuy(s) && MainSell(s) {
      MainBuyMeaning(s);
      MainSellMeaning(s);
      DownUpExclusive(s);
      assert false;
    }
  }

  /** No signal of any kind during the first 50 bars. */
  lemma NoSignalDuringWarmup(s: Snapshot)
    requires Sane(s)
    requires s.barCount <= MainWarmupBars
    ensures Classify(s) == BarSignals(false, false, false, false)
  {
  }

  /** Given low <= close, the Bollinger buy confirmation fails only when low,
      close and the lower band coincide. */
  lemma BollBuyAlmostAlways(s: Snapshot)
    requires s.low <= s.today.close
    ensures !BollBuy(s) <==> s.low == s.today.close == s.bollBot
  {
  }

  lemma BollSellAlmostAlways(s: Snapshot)
    requires s.today.close <= s.high
    ensures !BollSell(s) <==> s.high == s.today.close == s.bollTop
  {
  }

  /** Oversold and crossing up through 30 are mutually exclusive ways in. */
  lemma RsiBuyTriggersExclusive(s: Snapshot)
    requires Sane(s)
    ensures !(RsiToday(s) < RsiOversold && RsiBuyCross(s))
  {
  }

  // ---------------------------------------------------------------------------
  // Signal lines and records

  /** One bar's values of the four output lines; `None` is NaN (no signal). */
  datatype SignalLines = SignalLines(mainBuy: Option<real>, mainSell: Option<real>,
                                     enhancedBuy: Option<real>, enhancedSell: Option<real>)

  /** The plotted marker positions: low x 0.96, high x 1.05, low x 0.90, high x 1.08. */
  function Lines(s: Snapshot): (r: SignalLines)
    requires Sane(s)
    ensures r.mainBuy.Some? <==> MainBuy(s)
    ensures r.mainSell.Some? <==> MainSell(s)
    ensures r.enhancedBuy.Some? <==> EnhancedBuy(s)
    ensures r.enhancedSell.Some? <==> EnhancedSell(s)
  {
    SignalLines(
      if MainBuy(s) then Some(s.low * 0.96) else None,
      if MainSell(s) then Some(s.high * 1.05) else None,
      if EnhancedBuy(s) then Some(s.low * 0.90) else None,
      if EnhancedSell(s) then Some(s.high * 1.08) else None)
  }

  /** A signal record: bar date (a day number), type and description. */
  datatype SignalRecord = SignalRecord(date: int, signalType: string, description: string)

  function NormalBuyOn(date: int): SignalRecord { SignalRecord(date, "normal_buy", "多") }
  function NormalSellOn(date: int): SignalRecord { SignalRecord(date, "normal_sell", "空") }
  function StrongBuyOn(date: int): SignalRecord { SignalRecord(date, "strong_buy", "强多") }
  function StrongSellOn(date: int): SignalRecord { SignalRecord(date, "strong_sell", "强空") }

  /** The records one bar appends, in the order `next` appends them. */
  function BarRecords(date: int, s: Snapshot): seq<SignalRecord>
    requires Sane(s)
  {
    (if MainBuy(s) then [NormalBuyOn(date)] else [])
    + (if MainSell(s) then [NormalSellOn(date)] else [])
    + (if EnhancedBuy(s) then [StrongBuyOn(date)] else [])
    + (if EnhancedSell(s) then [StrongSellOn(date)] else [])
  }

  /** A bar logs nothing, one main record, or a main record followed by the
      strong record of the same direction. */
  lemma {:induction false} BarRecordsShape(date: int, s: Snapshot)
    requires Sane(s)
    ensures var r := BarRecords(date, s);
      || r == []
      || r == [NormalBuyOn(date)]
      || r == [NormalBuyOn(date), StrongBuyOn(date)]
      || r == [NormalSellOn(date)]
      || r == [NormalSellOn(date), StrongSellOn(date)]
    ensures |BarRecords(date, s)| <= 2
    ensures forall rec :: rec in BarRecords(date, s) ==> rec.date == date
  {
    MainSignalsExclusive(s);
  }

  /** The indicator object: one value per processed bar on each line, and the
      signal log it appends to. */
  class EnhancedVolumeIndicator {
    var mainBuyLine: seq<Option<real>>
    var mainSellLine: seq<Option<real>>
    var enhancedBuyLine: seq<Option<real>>
    var enhancedSellLine: seq<Option<real>>
    var signalRecords: seq<SignalRecord>

    constructor ()
      ensures mainBuyLine == [] && mainSellLine == [] && enhancedBuyLine == [] && enhancedSellLine == []
      ensures signalRecords == []
    {
      mainBuyLine, mainSellLine, enhancedBuyLine, enhancedSellLine := [], [], [], [];
      signalRecords := [];
    }

    /** `next`: every line starts the bar as NaN and is set only when its
        signal fires, so the bar's values depend on this bar alone. */
    method Next(date: int, s: Snapshot)
      requires Sane(s)
      modifies this
      ensures mainBuyLine == old(mainBuyLine) + [Lines(s).mainBuy]
      ensures mainSellLine == old(mainSellLine) + [Lines(s).mainSell]
      ensures enhancedBuyLine == old(enhancedBuyLine) + [Lines(s).enhancedBuy]
      ensures enhancedSellLine == old(enhancedSellLine) + [Lines(s).enhancedSell]
      ensures signalRecords == old(signalRecords) + BarRecords(date, s)
    {
      var mainBuy: Option<real> := None;
      var mainSell: Option<real> := None;
      var enhancedBuy: Option<real> := None;
      var enhancedSell: Option<real> := None;
      var log := signalRecords;

      var signals := Classify(s);
      if signals.mainBuy {
        mainBuy := Some(s.low * 0.96);
        log := log + [NormalBuyOn(date)];
      }
      if signals.mainSell {
        mainSell := Some(s.high * 1.05);
        log := log + [NormalSellOn(date)];
      }
      if signals.enhancedBuy {
        enhancedBuy := Some(s.low * 0.90);
        log := log + [StrongBuyOn(date)];
      }
      if signals.enhancedSell {
        enhancedSell := Some(s.high * 1.08);
        log := log + [StrongSellOn(date)];
      }

      mainBuyLine := mainBuyLine + [mainBuy];
      mainSellLine := mainSellLine + [mainSell];
      enhancedBuyLine := enhancedBuyLine + [enhancedBuy];
      enhancedSellLine := enhancedSellLine + [enhancedSell];
      signalRecords := log;
    }
  }
}
