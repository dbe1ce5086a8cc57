/** Values shared by every revision of the trading bot. */
module Types {

  datatype Option<T> = None | Some(value: T)

  /** One bar of the exchange's OHLCV series, oldest bar first. Volume and
      timestamp are not read by any decision and are not kept. */
  datatype Candle = Candle(open: real, high: real, low: real, close: real)

  /** The order call a decision makes: none, a market buy for a KRW notional,
      or a market sell of a coin quantity. */
  datatype Action = NoOp | Buy(ticker: string, notional: real) | Sell(ticker: string, quantity: real)

  /** What the strategies fetch for one ticker: the 24 one-hour bars
      (Heikin-Ashi) and the two 240-minute bars (breakout target); None when
      that fetch failed. */
  datatype MarketSnapshot = MarketSnapshot(hourly: Option<seq<Candle>>, fourHourly: Option<seq<Candle>>)

  function Min(a: real, b: real): (r: real)
    ensures r <= a && r <= b && (r == a || r == b)
  {
    if a <= b then a else b
  }

  function Max(a: real, b: real): (r: real)
    ensures r >= a && r >= b && (r == a || r == b)
  {
    if a >= b then a else b
  }

  function Abs(x: real): (r: real)
    ensures r >= 0.0 && (r == x || r == -x)
  {
    if x < 0.0 then -x else x
  }
}
