/** src/strategies/heikin_ashi.py: the Heikin-Ashi transform of the one-hour
    candles and the reversal signal built on it. get_heikin_ashi in
    trading_bot.py is the same code and is modelled by the same functions. */
module HeikinAshi {
  import opened Types

  /** One synthetic bar. */
  datatype HaBar = HaBar(open: real, high: real, low: real, close: real)

  /** The dict get_heikin_ashi returns; trend and prev_trend 'up' are true. */
  datatype HaSummary = HaSummary(
    open: real, high: real, low: real, close: real,
    trendUp: bool, strongTrend: bool, bodySize: real, prevTrendUp: bool)

  /** (open + close) / 2 of a raw candle. */
  function Mid(c: Candle): real
  {
    (c.open + c.close) / 2.0
  }

  /** Bar i of the transform. The open is taken from the raw previous candle
      (the first bar uses its own), not from the previous synthetic bar; high
      and low come from the raw high/low and the raw open and close. */
  function BarAt(candles: seq<Candle>, i: nat): (b: HaBar)
    requires i < |candles|
    ensures b.low <= b.high
    ensures b.low <= candles[i].low && b.high >= candles[i].high
  {
    var c := candles[i];
    HaBar(
      if i == 0 then Mid(c) else Mid(candles[i - 1]),
      Max(Max(c.high, c.open), c.close),
      Min(Min(c.low, c.open), c.close),
      (c.open + c.high + c.low + c.close) / 4.0)
  }

  /** The column-wise transform. */
  function Transform(candles: seq<Candle>): (bars: seq<HaBar>)
    ensures |bars| == |candles|
    ensures forall i :: 0 <= i < |bars| ==> bars[i] == BarAt(candles, i)
  {
    seq(|candles|, i requires 0 <= i < |candles| => BarAt(candles, i))
  }

  /** A candle whose high and low bound its open and close. */
  predicate WellFormed(c: Candle)
  {
    c.low <= c.open <= c.high && c.low <= c.close <= c.high
  }

  /** For well-formed candles the synthetic high and low are the raw ones and
      the synthetic close lies between them. */
  lemma WellFormedBar(candles: seq<Candle>, i: nat)
    requires i < |candles| && WellFormed(candles[i])
    ensures BarAt(candles, i).high == candles[i].high && BarAt(candles, i).low == candles[i].low
    ensures candles[i].low <= BarAt(candles, i).close <= candles[i].high
  {
  }

  /** A bar depends only on its own candle and the previous candle's open and
      close, so no synthetic value feeds into the next bar. */
  lemma BarIsLocal(a: seq<Candle>, b: seq<Candle>, i: nat)
    requires 0 < i < |a| && i < |b|
    requires a[i] == b[i]
    requires a[i - 1].open == b[i - 1].open && a[i - 1].close == b[i - 1].close
    ensures Transform(a)[i] == Transform(b)[i]
  {
  }

  /** close > open (rising) or close < open (falling). */
  predicate Directed(b: HaBar, rising: bool)
  {
    if rising then b.close > b.open else b.close < b.open
  }

  /** `all(bar[-k] directed for k in range(k, 4))` as Python evaluates it:
      lazily, stopping at the first false; None when bar -k does not exist
      before a false one is met (the IndexError the handler turns into None). */
  function AllRecent(bars: seq<HaBar>, rising: bool, k: nat): Option<bool>
    requires k >= 1
    decreases 4 - k
  {
    if k > 3 then Some(true)
    else if k > |bars| then None
    else if !Directed(bars[|bars| - k], rising) then Some(false)
    else AllRecent(bars, rising, k + 1)
  }

  lemma {:induction false} AllRecentTrue(bars: seq<HaBar>, rising: bool, k: nat)
    requires 1 <= k && AllRecent(bars, rising, k) == Some(true)
    ensures k <= 3 ==> |bars| >= 3
    ensures k <= 1 ==> Directed(bars[|bars| - 1], rising)
    ensures k <= 2 ==> Directed(bars[|bars| - 2], rising)
    ensures k <= 3 ==> Directed(bars[|bars| - 3], rising)
    decreases 4 - k
  {
    if k <= 3 {
      AllRecentTrue(bars, rising, k + 1);
    }
  }

  lemma {:induction false} AllRecentHolds(bars: seq<HaBar>, rising: bool, k: nat)
    requires 1 <= k && |bars| >= 3
    requires k <= 1 ==> Directed(bars[|bars| - 1], rising)
    requires k <= 2 ==> Directed(bars[|bars| - 2], rising)
    requires k <= 3 ==> Directed(bars[|bars| - 3], rising)
    ensures AllRecent(bars, rising, k) == Some(true)
    decreases 4 - k
  {
    if k <= 3 {
      AllRecentHolds(bars, rising, k + 1);
    }
  }

  /** With three bars present the lazy scan never raises. */
  lemma {:induction false} AllRecentDefined(bars: seq<HaBar>, rising: bool, k: nat)
    requires 1 <= k && |bars| >= 3
    ensures AllRecent(bars, rising, k).Some?
    decreases 4 - k
  {
    if k <= 3 {
      AllRecentDefined(bars, rising, k + 1);
    }
  }

  /** A lazy scan from the newest bar is defined once three bars exist, and
      it answers true only when three bars exist. */
  lemma AllRecentShape(bars: seq<HaBar>, rising: bool)
    ensures |bars| >= 3 ==> AllRecent(bars, rising, 1).Some?
    ensures AllRecent(bars, rising, 1) == Some(true) ==> |bars| >= 3
  {
    if |bars| >= 3 { AllRecentDefined(bars, rising, 1); }
    if AllRecent(bars, rising, 1) == Some(true) { AllRecentTrue(bars, rising, 1); }
  }

  /** strong_trend: the `all(...) or all(...)` of the last three bars. With
      three bars it never raises, and it never holds with fewer. */
  function StrongTrend(bars: seq<HaBar>): (s: Option<bool>)
    ensures |bars| >= 3 ==> s.Some?
    ensures s == Some(true) ==> |bars| >= 3
  {
    AllRecentShape(bars, true);
    AllRecentShape(bars, false);
    match AllRecent(bars, true, 1)
    case None => None
    case Some(up) => if up then Some(true) else AllRecent(bars, false, 1)
  }

  /** The last three bars all rise, or all fall; a flat bar defeats both. */
  lemma StrongTrendMeaning(bars: seq<HaBar>)
    requires |bars| >= 3
    ensures StrongTrend(bars).Some?
    ensures StrongTrend(bars).value <==>
      (Directed(bars[|bars| - 1], true) && Directed(bars[|bars| - 2], true) && Directed(bars[|bars| - 3], true))
      || (Directed(bars[|bars| - 1], false) && Directed(bars[|bars| - 2], false) && Directed(bars[|bars| - 3], false))
  {
    AllRecentDefined(bars, true, 1);
    AllRecentDefined(bars, false, 1);
    var up := Directed(bars[|bars| - 1], true) && Directed(bars[|bars| - 2], true) && Directed(bars[|bars| - 3], true);
    var down := Directed(bars[|bars| - 1], false) && Directed(bars[|bars| - 2], false) && Directed(bars[|bars| - 3], false);
    if up { AllRecentHolds(bars, true, 1); }
    if down { AllRecentHolds(bars, false, 1); }
    if AllRecent(bars, true, 1) == Some(true) { AllRecentTrue(bars, true, 1); }
    if AllRecent(bars, false, 1) == Some(true) { AllRecentTrue(bars, false, 1); }
  }

  /** get_heikin_ashi on the fetched candles (None: the fetch failed). */
  function GetHeikinAshi(candles: Option<seq<Candle>>): (r: Option<HaSummary>)
    ensures r.Some? ==> candles.Some? && |candles.value| >= 2
    ensures candles.Some? && |candles.value| >= 3 ==> r.Some?
    ensures r.Some? ==> r.value.bodySize >= 0.0 && r.value.low <= r.value.high
    ensures r.Some? ==> r.value.trendUp == (r.value.close > r.value.open)
    ensures r.Some? ==>
      var bars := Transform(candles.value);
      var n := |bars|;
      && r.value.open == bars[n - 1].open && r.value.high == bars[n - 1].high
      && r.value.low == bars[n - 1].low && r.value.close == bars[n - 1].close
      && StrongTrend(bars).Some? && r.value.strongTrend == StrongTrend(bars).value
      && r.value.prevTrendUp == (bars[n - 2].close > bars[n - 2].open)
      && r.value.bodySize == Abs(r.value.close - r.value.open)
  {
    if candles.None? || |candles.value| == 0 then None
    else
      var bars := Transform(candles.value);
      var n := |bars|;
      match StrongTrend(bars)
      case None => None
      case Some(strong) =>
        if n < 2 then None
        else
          var last := bars[n - 1];
          Some(HaSummary(
            last.open, last.high, last.low, last.close,
            last.close > last.open,
            strong,
            Abs(last.close - last.open),
            bars[n - 2].close > bars[n - 2].open))
  }

  /** should_buy: the latest bar is up, the trend is strong and the previous
      bar was down (an upward reversal); false when no summary exists. */
  predicate ShouldBuy(candles: Option<seq<Candle>>)
    ensures candles.None? ==> !ShouldBuy(candles)
    ensures ShouldBuy(candles) ==> candles.Some? && |candles.value| >= 3 && GetHeikinAshi(candles).value.strongTrend
  {
    match GetHeikinAshi(candles)
    case None => false
    case Some(s) => s.trendUp && s.strongTrend && !s.prevTrendUp
  }

  /** A strong trend whose latest bar is up is a rise of the last three bars:
      the previous bar is up too. */
  lemma {:induction false} StrongUpTrendContinues(candles: Option<seq<Candle>>)
    requires GetHeikinAshi(candles).Some?
    requires GetHeikinAshi(candles).value.trendUp && GetHeikinAshi(candles).value.strongTrend
    ensures |candles.value| >= 3
    ensures GetHeikinAshi(candles).value.prevTrendUp
    ensures Directed(Transform(candles.value)[|candles.value| - 3], true)
  {
    var bars := Transform(candles.value);
    var n := |bars|;
    // The falling branch of strong_trend is excluded by the rising last bar.
    assert AllRecent(bars, true, 1) == Some(true);
    AllRecentTrue(bars, true, 1);
  }

  /** The reversal signal can never fire: trend up and strong trend force the
      previous bar up, so prev_trend == 'down' cannot hold with them. */
  lemma NeverSignals(candles: Option<seq<Candle>>)
    ensures !ShouldBuy(candles)
  {
    var r := GetHeikinAshi(candles);
    if r.Some? && r.value.trendUp && r.value.strongTrend {
      StrongUpTrendContinues(candles);
    }
  }
}
