/** The run loop of TradingBot in src/trading/bot.py, written the same way in
    trading_bot.py: the daily counter with its date rollover, the limit of 20
    counted passes per day, the trading window, and one pass over the coin
    table placing each coin's buy and then its sell. Time, the one-minute and
    one-second sleeps and every exchange answer are inputs of a step. */
module Scheduler {
  import opened Types
  import opened Config
  import opened Account
  import Market
  import Strategies
  import Bot
  import Monolithic

  /** Which of the two bot revisions runs the loop. */
  datatype Revision = PackageRevision | SingleFileRevision

  /** datetime.now() as the loop reads it. */
  datatype Clock = Clock(date: int, hour: int, minute: int)

  /** What one coin's iteration of a pass observes: get_current_price, the
      strategy's candle fetches, the balances the buy and then the sell fetch,
      and the client's average buy price. */
  datatype CoinTick = CoinTick(
    price: Option<real>, market: MarketSnapshot,
    buyBalances: Option<seq<BalanceEntry>>, sellBalances: Option<seq<BalanceEntry>>,
    avgBuyPrice: real)

  /** What log_portfolio_status observes, per coin in table order. */
  datatype PortfolioFetch = PortfolioFetch(balances: Option<seq<BalanceEntry>>, prices: seq<Option<real>>, avgs: seq<real>)

  const DailyLimit: int := 20

  /** The buy execute_buy places in the given revision. */
  function BuyFor(revision: Revision, strategy: Strategies.StrategyKind, ticker: string, t: CoinTick, price: real): Action
  {
    match revision
    case PackageRevision => Bot.BuyOrder(ticker, price, strategy, t.market, t.buyBalances)
    case SingleFileRevision => Monolithic.BuyOrder(ticker, price, strategy, t.market, t.buyBalances)
  }

  /** One coin's iteration: nothing without a price; otherwise the buy and then
      the sell, each when one was placed. */
  function CoinOrders(revision: Revision, strategy: Strategies.StrategyKind, e: CoinEntry, t: CoinTick): (r: seq<Action>)
    ensures t.price.None? ==> r == []
    ensures |r| <= 2
    ensures forall k :: 0 <= k < |r| ==> !r[k].NoOp? && r[k].ticker == e.config.ticker
    ensures |r| == 2 ==> r[0].Buy? && r[1].Sell?
  {
    if t.price.None? then []
    else
      var buy := BuyFor(revision, strategy, e.config.ticker, t, t.price.value);
      var sell := Bot.ChainSell(e.coin, e.config, t.price.value, t.sellBalances, t.avgBuyPrice);
      (if buy.NoOp? then [] else [buy]) + (if sell.NoOp? then [] else [sell])
  }

  /** The orders of a pass over the first |coins| coins, in table order. */
  function PassOrders(revision: Revision, strategy: Strategies.StrategyKind, coins: seq<CoinEntry>, ticks: seq<CoinTick>)
    : (r: seq<Action>)
    requires |ticks| == |coins|
    ensures |r| <= 2 * |coins|
    ensures forall k :: 0 <= k < |r| ==> !r[k].NoOp?
    decreases |coins|
  {
    if |coins| == 0 then []
    else
      var n := |coins| - 1;
      PassOrders(revision, strategy, coins[..n], ticks[..n]) + CoinOrders(revision, strategy, coins[n], ticks[n])
  }

  /** An order for the ticker of a coin whose price fetch succeeded. */
  ghost predicate ForPricedCoin(coins: seq<CoinEntry>, ticks: seq<CoinTick>, o: Action)
    requires |ticks| == |coins|
  {
    !o.NoOp? && exists j :: 0 <= j < |coins| && ticks[j].price.Some? && o.ticker == coins[j].config.ticker
  }

  /** Every order of a pass is for one of the table's tickers, and a coin
      whose price fetch failed contributes nothing. */
  lemma {:induction false} PassOrdersTickers(revision: Revision, strategy: Strategies.StrategyKind, coins: seq<CoinEntry>,
                                             ticks: seq<CoinTick>)
    requires |ticks| == |coins|
    ensures forall o :: o in PassOrders(revision, strategy, coins, ticks) ==> ForPricedCoin(coins, ticks, o)
    decreases |coins|
  {
    if |coins| > 0 {
      var n := |coins| - 1;
      var prefix := PassOrders(revision, strategy, coins[..n], ticks[..n]);
      var last := CoinOrders(revision, strategy, coins[n], ticks[n]);
      PassOrdersTickers(revision, strategy, coins[..n], ticks[..n]);
      forall o | o in prefix + last
        ensures ForPricedCoin(coins, ticks, o)
      {
        if o in prefix {
          assert ForPricedCoin(coins[..n], ticks[..n], o);
          var j :| 0 <= j < n && ticks[..n][j].price.Some? && o.ticker == coins[..n][j].config.ticker;
          assert ticks[j] == ticks[..n][j] && coins[j] == coins[..n][j];
        } else {
          assert ticks[n].price.Some? && o.ticker == coins[n].config.ticker;
        }
      }
    }
  }

  lemma PassOrdersSnoc(revision: Revision, strategy: Strategies.StrategyKind, coins: seq<CoinEntry>, ticks: seq<CoinTick>,
                       i: nat)
    requires |ticks| == |coins| && i < |coins|
    ensures PassOrders(revision, strategy, coins[..i + 1], ticks[..i + 1])
      == PassOrders(revision, strategy, coins[..i], ticks[..i]) + CoinOrders(revision, strategy, coins[i], ticks[i])
  {
    assert coins[..i + 1][..i] == coins[..i] && ticks[..i + 1][..i] == ticks[..i];
  }

  /** The body of the for-loop for one coin: skip it without a price,
      otherwise execute_buy and then execute_sell. */
  method ExecuteCoin(revision: Revision, strategy: Strategies.StrategyKind, e: CoinEntry, t: CoinTick)
    returns (placed: seq<Action>)
    ensures placed == CoinOrders(revision, strategy, e, t)
  {
    placed := [];
    if t.price.None? {
      return;
    }
    var buy := BuyFor(revision, strategy, e.config.ticker, t, t.price.value);
    if !buy.NoOp? {
      placed := placed + [buy];
    }
    var sell := Bot.ChainSell(e.coin, e.config, t.price.value, t.sellBalances, t.avgBuyPrice);
    if !sell.NoOp? {
      placed := placed + [sell];
    }
  }

  /** The for-loop of a pass. */
  method RunPass(revision: Revision, strategy: Strategies.StrategyKind, coins: seq<CoinEntry>, ticks: seq<CoinTick>)
    returns (orders: seq<Action>)
    requires |ticks| == |coins|
    ensures orders == PassOrders(revision, strategy, coins, ticks)
  {
    orders := [];
    var i := 0;
    while i < |coins|
      invariant 0 <= i <= |coins|
      invariant orders == PassOrders(revision, strategy, coins[..i], ticks[..i])
    {
      PassOrdersSnoc(revision, strategy, coins, ticks, i);
      var placed := ExecuteCoin(revision, strategy, coins[i], ticks[i]);
      orders := orders + placed;
      i := i + 1;
    }
    assert coins[..|coins|] == coins && ticks[..|ticks|] == ticks;
  }

  // ----- the daily counter -----

  /** daily_trade_count and last_trade_date. */
  datatype Counter = Counter(count: int, date: int)

  /** The reset at the top of an iteration when the date changed. */
  function Rollover(c: Counter, date: int): Counter
  {
    if date != c.date then Counter(0, date) else c
  }

  /** The iteration runs a pass: below the limit after the rollover, and
      inside a trading window. */
  predicate RunsPass(c: Counter, now: Clock)
  {
    Rollover(c, now.date).count < DailyLimit && Market.IsTradeTime(now.hour, now.minute)
  }

  /** The counter after one iteration. logRaised: log_portfolio_status raised
      after the pass, which skips the increment. */
  function NextCounter(c: Counter, now: Clock, logRaised: bool): (r: Counter)
    ensures 0 <= c.count <= DailyLimit ==> 0 <= r.count <= DailyLimit
    ensures r.date == now.date
    ensures r.count > Rollover(c, now.date).count <==> RunsPass(c, now) && !logRaised
    ensures now.date != c.date && !Market.IsTradeTime(now.hour, now.minute) ==> r.count == 0
  {
    var d := Rollover(c, now.date);
    if RunsPass(c, now) && !logRaised then d.(count := d.count + 1) else d
  }

  /** One loop iteration's inputs. */
  datatype Iteration = Iteration(now: Clock, logRaised: bool)

  /** The counter after a run of iterations. */
  function Run(c: Counter, its: seq<Iteration>): Counter
    decreases |its|
  {
    if |its| == 0 then c else Run(NextCounter(c, its[0].now, its[0].logRaised), its[1..])
  }

  /** How many of the iterations run a pass. */
  function Passes(c: Counter, its: seq<Iteration>): nat
    decreases |its|
  {
    if |its| == 0 then 0
    else (if RunsPass(c, its[0].now) then 1 else 0) + Passes(NextCounter(c, its[0].now, its[0].logRaised), its[1..])
  }

  /** How many of the iterations run a pass that the counter records (the
      log did not raise after it). */
  function CountedPasses(c: Counter, its: seq<Iteration>): nat
    decreases |its|
  {
    if |its| == 0 then 0
    else (if RunsPass(c, its[0].now) && !its[0].logRaised then 1 else 0)
         + CountedPasses(NextCounter(c, its[0].now, its[0].logRaised), its[1..])
  }

  /** Within one day the counted passes are bounded by the passes left (at
      most 20 a day from a fresh counter) and are what the counter adds; when
      the log never raises, every pass is counted. */
  lemma {:induction false} DailyLimitBoundsPasses(c: Counter, its: seq<Iteration>)
    requires 0 <= c.count <= DailyLimit
    requires forall k :: 0 <= k < |its| ==> its[k].now.date == c.date
    ensures CountedPasses(c, its) <= DailyLimit - c.count
    ensures Run(c, its).count == c.count + CountedPasses(c, its)
    ensures (forall k :: 0 <= k < |its| ==> !its[k].logRaised) ==> Passes(c, its) == CountedPasses(c, its)
    decreases |its|
  {
    if |its| > 0 {
      var next := NextCounter(c, its[0].now, its[0].logRaised);
      assert forall k :: 0 <= k < |its[1..]| ==> its[1..][k] == its[k + 1];
      DailyLimitBoundsPasses(next, its[1..]);
    }
  }

  /** When the log raises after every pass, the counter never moves, so every
      iteration inside a window runs a pass. */
  lemma {:induction false} RaisingLogNeverCounts(c: Counter, its: seq<Iteration>)
    requires 0 <= c.count < DailyLimit
    requires forall k :: 0 <= k < |its| ==>
      its[k].now.date == c.date && its[k].logRaised && Market.IsTradeTime(its[k].now.hour, its[k].now.minute)
    ensures Passes(c, its) == |its| && Run(c, its) == c
    decreases |its|
  {
    if |its| > 0 {
      assert NextCounter(c, its[0].now, its[0].logRaised) == c;
      assert forall k :: 0 <= k < |its[1..]| ==> its[1..][k] == its[k + 1];
      RaisingLogNeverCounts(c, its[1..]);
    }
  }

  /** So the limit does not bound the passes of a day: 21 iterations at 00:00
      whose log raises all run a pass. */
  lemma LimitNotReachedWhenLogRaises()
    ensures Passes(Counter(0, 0), seq(21, k => Iteration(Clock(0, 0, 0), true))) == 21
  {
    var its := seq(21, k => Iteration(Clock(0, 0, 0), true));
    assert Market.IsTradeTime(0, 0);
    RaisingLogNeverCounts(Counter(0, 0), its);
  }

  /** The loop's state and one iteration of its body. */
  class TradeLoop {
    const revision: Revision
    const strategy: Strategies.StrategyKind
    const coins: seq<CoinEntry>
    var dailyTradeCount: int
    var lastTradeDate: int

    ghost predicate Valid()
      reads this
    {
      0 <= dailyTradeCount <= DailyLimit && coins == Bot.CoinTable()
    }

    function State(): Counter
      reads this
    {
      Counter(dailyTradeCount, lastTradeDate)
    }

    /** The bot as run() leaves it before the loop. */
    constructor (revision: Revision, strategy: Strategies.StrategyKind, today: int)
      ensures Valid() && State() == Counter(0, today)
      ensures this.revision == revision && this.strategy == strategy
    {
      this.revision := revision;
      this.strategy := strategy;
      coins := Bot.CoinTable();
      dailyTradeCount := 0;
      lastTradeDate := today;
    }

    /** One iteration of `while True`: the orders it places and the counter
      it leaves. */
    method Step(now: Clock, ticks: seq<CoinTick>, log: PortfolioFetch) returns (orders: seq<Action>)
      requires Valid()
      requires |ticks| == |coins| && |log.prices| == |coins| && |log.avgs| == |coins|
      modifies this
      ensures Valid()
      ensures orders == if RunsPass(old(State()), now) then PassOrders(revision, strategy, coins, ticks) else []
      ensures State() == NextCounter(old(State()), now, Bot.LoggedTotal(log.balances, coins, log.prices, log.avgs).None?)
    {
      if now.date != lastTradeDate {
        dailyTradeCount := 0;
        lastTradeDate := now.date;
      }
      if dailyTradeCount >= DailyLimit {
        return [];
      }
      orders := [];
      if Market.IsTradeTime(now.hour, now.minute) {
        orders := RunPass(revision, strategy, coins, ticks);
        var total := Bot.LogPortfolioStatus(log.balances, coins, log.prices, log.avgs);
        if total.Some? {
          dailyTradeCount := dailyTradeCount + 1;
        }
      }
    }
  }
}
