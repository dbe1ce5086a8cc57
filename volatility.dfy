/** src/strategies/volatility.py: the breakout target from the earlier of the
    two fetched 240-minute candles, and the strict breakout test.
    get_target_price in trading_bot.py is the same formula on the same fetch. */
module Volatility {
  import opened Types

  /** The breakout factor k. */
  const K: real := 0.5

  /** get_target_price: close + (high - low) * 0.5 of the first row; None when
      the fetch failed or returned no row. */
  function TargetPrice(candles: Option<seq<Candle>>): (t: Option<real>)
    ensures t.Some? <==> candles.Some? && |candles.value| >= 1
    ensures t.Some? && candles.value[0].low <= candles.value[0].high ==> t.value >= candles.value[0].close
    ensures t.Some? ==> t.value - candles.value[0].close == (candles.value[0].high - candles.value[0].low) / 2.0
  {
    if candles.None? || |candles.value| == 0 then None
    else
      var c := candles.value[0];
      Some(c.close + (c.high - c.low) * K)
  }

  /** should_buy: the price strictly above the target; false without a target. */
  predicate ShouldBuy(candles: Option<seq<Candle>>, price: real)
    ensures ShouldBuy(candles, price) <==>
      candles.Some? && |candles.value| >= 1
      && price - candles.value[0].close > (candles.value[0].high - candles.value[0].low) / 2.0
  {
    var t := TargetPrice(candles);
    t.Some? && price > t.value
  }

  /** A price equal to the target does not fire. */
  lemma BreakoutIsStrict(candles: Option<seq<Candle>>)
    requires TargetPrice(candles).Some?
    ensures !ShouldBuy(candles, TargetPrice(candles).value)
  {
  }

  /** A failed fetch never fires. */
  lemma NoTargetNoSignal(candles: Option<seq<Candle>>, price: real)
    requires candles.None? || |candles.value| == 0
    ensures !ShouldBuy(candles, price)
  {
  }

  /** With a well-formed range the target is at or above the previous close, so
      a price at or below that close never fires. */
  lemma NoSignalAtOrBelowClose(candles: Option<seq<Candle>>, price: real)
    requires candles.Some? && |candles.value| >= 1
    requires candles.value[0].low <= candles.value[0].high
    requires price <= candles.value[0].close
    ensures !ShouldBuy(candles, price)
  {
  }

  /** The signal is upward closed in the price. */
  lemma BreakoutMonotone(candles: Option<seq<Candle>>, p: real, q: real)
    requires ShouldBuy(candles, p) && p <= q
    ensures ShouldBuy(candles, q)
  {
  }
}
