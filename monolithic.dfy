/** trading_bot.py: the single-file revision. Its target price, Heikin-Ashi
    transform, balance lookup, trade-time test, sell chain and coin table are
    the same code as the package revision and reuse those modules; what
    differs is modelled here: the strategies take the target price as an
    argument, the Heikin-Ashi rule asks for a continuing rise, the combined
    strategy is an AND, and the buy sizing is 5 % of the KRW balance. */
module Monolithic {
  import opened Types
  import opened Account
  import Volatility
  import HeikinAshi
  import Strategies

  /** VolatilityStrategy.should_buy with the target handed in. */
  predicate VolatilityShouldBuy(price: real, target: real)
    ensures forall c :: Volatility.TargetPrice(c) == Some(target) ==>
      (VolatilityShouldBuy(price, target) <==> Volatility.ShouldBuy(c, price))
  {
    price > target
  }

  /** HeikinAshiStrategy.should_buy: latest bar up, strong trend, a non-zero
      body and the previous bar up; false when no summary exists. */
  predicate HeikinAshiShouldBuy(hourly: Option<seq<Candle>>)
    ensures HeikinAshiShouldBuy(hourly) ==> hourly.Some? && |hourly.value| >= 3
  {
    match HeikinAshi.GetHeikinAshi(hourly)
    case None => false
    case Some(s) => s.trendUp && s.strongTrend && s.bodySize > 0.0 && s.prevTrendUp
  }

  /** The latest three synthetic bars all close above their open. */
  predicate LastThreeRise(candles: seq<Candle>)
    requires |candles| >= 3
  {
    var bars := HeikinAshi.Transform(candles);
    HeikinAshi.Directed(bars[|bars| - 1], true) && HeikinAshi.Directed(bars[|bars| - 2], true)
    && HeikinAshi.Directed(bars[|bars| - 3], true)
  }

  /** The four conditions say exactly: at least three candles were fetched and
      the last three synthetic bars rise (the body and previous-bar tests add
      nothing to the strong up-trend). */
  lemma HeikinAshiMeaning(hourly: Option<seq<Candle>>)
    ensures HeikinAshiShouldBuy(hourly) <==> hourly.Some? && |hourly.value| >= 3 && LastThreeRise(hourly.value)
  {
    var r := HeikinAshi.GetHeikinAshi(hourly);
    if r.Some? && r.value.trendUp && r.value.strongTrend {
      HeikinAshi.StrongUpTrendContinues(hourly);
    }
    if hourly.Some? && |hourly.value| >= 3 {
      HeikinAshi.StrongTrendMeaning(HeikinAshi.Transform(hourly.value));
    }
  }

  /** CombinedStrategy.should_buy: breakout AND Heikin-Ashi, short-circuit. */
  predicate CombinedShouldBuy(hourly: Option<seq<Candle>>, price: real, target: real)
    ensures CombinedShouldBuy(hourly, price, target) ==> price > target && hourly.Some? && |hourly.value| >= 3
  {
    VolatilityShouldBuy(price, target) && HeikinAshiShouldBuy(hourly)
  }

  /** Both constituents are needed, and without a breakout the hourly candles
      (the Heikin-Ashi fetch) do not matter. */
  lemma CombinedNeedsBoth(hourly: Option<seq<Candle>>, other: Option<seq<Candle>>, price: real, target: real)
    ensures CombinedShouldBuy(hourly, price, target) <==> price > target && HeikinAshiShouldBuy(hourly)
    ensures price <= target ==> CombinedShouldBuy(hourly, price, target) == CombinedShouldBuy(other, price, target)
  {
  }

  /** _get_strategy followed by should_buy. */
  predicate ShouldBuy(kind: Strategies.StrategyKind, hourly: Option<seq<Candle>>, price: real, target: real)
    ensures ShouldBuy(kind, hourly, price, target) ==> kind.HeikinAshiKind? || price > target
    ensures ShouldBuy(kind, hourly, price, target) ==> kind.VolatilityKind? || (hourly.Some? && |hourly.value| >= 3)
  {
    match kind
    case VolatilityKind => VolatilityShouldBuy(price, target)
    case HeikinAshiKind => HeikinAshiShouldBuy(hourly)
    case CombinedKind => CombinedShouldBuy(hourly, price, target)
  }

  /** execute_buy: no target, no order (for every strategy, since the target
      is fetched first); otherwise, with a signal and more than 5,000 KRW, a
      buy of min(krw * 0.9995, krw * 0.05). */
  function BuyOrder(ticker: string, price: real, kind: Strategies.StrategyKind, m: MarketSnapshot,
                    balances: Option<seq<BalanceEntry>>): (o: Action)
    ensures Volatility.TargetPrice(m.fourHourly).None? ==> o == NoOp
    ensures !o.Sell? && (o.Buy? ==> o.ticker == ticker)
  {
    match Volatility.TargetPrice(m.fourHourly)
    case None => NoOp
    case Some(target) =>
      if !ShouldBuy(kind, m.hourly, price, target) then NoOp
      else
        var krw := BalanceOf(balances, "KRW");
        var maxInvestment := krw * 0.05;
        if krw > 5000.0 then Buy(ticker, Min(krw * 0.9995, maxInvestment)) else NoOp
  }

  /** A buy is placed exactly when a target exists, the strategy fires and the
      balance exceeds 5,000 KRW, and it is always 5 % of the balance: the fee
      bound krw * 0.9995 never binds. */
  lemma BuyIsFivePercent(ticker: string, price: real, kind: Strategies.StrategyKind, m: MarketSnapshot,
                         balances: Option<seq<BalanceEntry>>)
    ensures var o := BuyOrder(ticker, price, kind, m, balances);
      var t := Volatility.TargetPrice(m.fourHourly);
      && (o.Buy? <==> t.Some? && ShouldBuy(kind, m.hourly, price, t.value) && BalanceOf(balances, "KRW") > 5000.0)
      && (o.Buy? ==> o.ticker == ticker && o.notional == BalanceOf(balances, "KRW") * 0.05 && o.notional > 250.0)
  {
  }

  /** The breakout signal is the package revision's; the combined one is
      stricter than the breakout, where the package's OR collapses to it. */
  lemma SignalsAgainstPackage(m: MarketSnapshot, price: real)
    requires Volatility.TargetPrice(m.fourHourly).Some?
    ensures var target := Volatility.TargetPrice(m.fourHourly).value;
      && ShouldBuy(Strategies.VolatilityKind, m.hourly, price, target) == Strategies.ShouldBuy(Strategies.VolatilityKind, m, price)
      && (ShouldBuy(Strategies.CombinedKind, m.hourly, price, target) ==> Strategies.ShouldBuy(Strategies.CombinedKind, m, price))
  {
    Strategies.DispatchCollapses(m, price);
  }

  /** A rising three-bar sequence with a breakout makes the combined strategy
      buy here, while the package's Heikin-Ashi strategy stays silent on it. */
  lemma ContinuationExample()
    ensures var hourly := Some([Candle(1.0, 3.0, 1.0, 2.0), Candle(2.0, 3.0, 2.0, 3.0), Candle(3.0, 4.0, 3.0, 4.0)]);
      HeikinAshiShouldBuy(hourly) && !HeikinAshi.ShouldBuy(hourly) && CombinedShouldBuy(hourly, 10.0, 5.0)
  {
    var candles := [Candle(1.0, 3.0, 1.0, 2.0), Candle(2.0, 3.0, 2.0, 3.0), Candle(3.0, 4.0, 3.0, 4.0)];
    var bars := HeikinAshi.Transform(candles);
    assert bars[0] == HeikinAshi.BarAt(candles, 0) && bars[1] == HeikinAshi.BarAt(candles, 1) && bars[2] == HeikinAshi.BarAt(candles, 2);
    assert LastThreeRise(candles);
    HeikinAshiMeaning(Some(candles));
    HeikinAshi.NeverSignals(Some(candles));
  }
}
