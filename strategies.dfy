/** The strategy family of src/strategies: the selection enum of base.py, the
    OR combinator of combined.py, and the dispatch _get_strategy performs in
    src/trading/bot.py. Each strategy reads the snapshot its fetches produce. */
module Strategies {
  import opened Types
  import Volatility
  import HeikinAshi

  /** TradingStrategy. */
  datatype StrategyKind = VolatilityKind | HeikinAshiKind | CombinedKind

  /** CombinedStrategy.should_buy: breakout first, Heikin-Ashi only when the
      breakout did not fire. */
  predicate CombinedShouldBuy(m: MarketSnapshot, price: real)
    ensures Volatility.ShouldBuy(m.fourHourly, price) ==> CombinedShouldBuy(m, price)
    ensures HeikinAshi.ShouldBuy(m.hourly) ==> CombinedShouldBuy(m, price)
  {
    Volatility.ShouldBuy(m.fourHourly, price) || HeikinAshi.ShouldBuy(m.hourly)
  }

  /** It answers false only when both constituents answer false. */
  lemma CombinedFalseOnlyIfBothFalse(m: MarketSnapshot, price: real)
    ensures !CombinedShouldBuy(m, price) <==> !Volatility.ShouldBuy(m.fourHourly, price) && !HeikinAshi.ShouldBuy(m.hourly)
  {
  }

  /** Short circuit: once the breakout fires, the hourly candles (which the
      Heikin-Ashi call would fetch) do not matter. */
  lemma CombinedSkipsHeikinAshi(m: MarketSnapshot, hourly: Option<seq<Candle>>, price: real)
    requires Volatility.ShouldBuy(m.fourHourly, price)
    ensures CombinedShouldBuy(m, price) && CombinedShouldBuy(m.(hourly := hourly), price)
  {
  }

  /** Since the reversal signal never fires, the combination is exactly the breakout. */
  lemma CombinedIsVolatility(m: MarketSnapshot, price: real)
    ensures CombinedShouldBuy(m, price) == Volatility.ShouldBuy(m.fourHourly, price)
  {
    HeikinAshi.NeverSignals(m.hourly);
  }

  /** _get_strategy followed by should_buy: VOLATILITY and HEIKIN_ASHI select
      their own class, every other value the combined one. */
  predicate ShouldBuy(kind: StrategyKind, m: MarketSnapshot, price: real)
    ensures ShouldBuy(kind, m, price) ==> Volatility.ShouldBuy(m.fourHourly, price)
  {
    HeikinAshi.NeverSignals(m.hourly);
    match kind
    case VolatilityKind => Volatility.ShouldBuy(m.fourHourly, price)
    case HeikinAshiKind => HeikinAshi.ShouldBuy(m.hourly)
    case CombinedKind => CombinedShouldBuy(m, price)
  }

  /** What the dispatch amounts to: HEIKIN_ASHI never buys, and COMBINED buys
      exactly when VOLATILITY does. */
  lemma DispatchCollapses(m: MarketSnapshot, price: real)
    ensures !ShouldBuy(HeikinAshiKind, m, price)
    ensures ShouldBuy(CombinedKind, m, price) == ShouldBuy(VolatilityKind, m, price)
  {
    HeikinAshi.NeverSignals(m.hourly);
  }
}
