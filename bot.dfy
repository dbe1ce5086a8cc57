/** src/trading/bot.py: TradingBot's buy sizing, its elif sell chain and its
    coin table. The run loop is modelled in scheduler.dfy. The sell chain and the
    coin table are written identically in trading_bot.py and are shared. */
module Bot {
  import opened Types
  import opened Config
  import opened Account
  import Strategies

  const FeeFactor: real := 0.9995

  /** invest_amount: 5 % of the KRW balance clamped to [min_investment,
      max_investment], which are 1.5 % and 5 % of TOTAL_ASSETS. */
  function InvestAmount(krw: real): (r: real)
    ensures TotalAssets * MinInvestRatio == 60000.0 && TotalAssets * MaxInvestRatio == 200000.0
    ensures 60000.0 <= r <= 200000.0
    ensures 1200000.0 <= krw <= 4000000.0 ==> r == krw * 0.05
    ensures krw * 0.05 <= 60000.0 ==> r == 60000.0
    ensures krw * 0.05 >= 200000.0 ==> r == 200000.0
  {
    Min(Max(krw * 0.05, TotalAssets * MinInvestRatio), TotalAssets * MaxInvestRatio)
  }

  /** The order execute_buy places: with a signal, a buy of the fee-reduced
      amount when the KRW balance exceeds the amount. */
  function BuyOrder(ticker: string, price: real, strategy: Strategies.StrategyKind, market: MarketSnapshot,
                    balances: Option<seq<BalanceEntry>>): (o: Action)
    ensures !o.Sell? && (o.Buy? ==> o.ticker == ticker)
    ensures !Strategies.ShouldBuy(strategy, market, price) ==> o == NoOp
  {
    if !Strategies.ShouldBuy(strategy, market, price) then NoOp
    else
      var krw := BalanceOf(balances, "KRW");
      var investAmount := InvestAmount(krw);
      if krw > investAmount then Buy(ticker, investAmount * FeeFactor) else NoOp
  }

  /** The funds check reduces to "more than 60,000 KRW"; the notional is the
      clamped amount less the fee, so it never exceeds the balance. */
  lemma BuysExactlyAboveFloor(ticker: string, price: real, strategy: Strategies.StrategyKind, market: MarketSnapshot,
                              balances: Option<seq<BalanceEntry>>)
    ensures var o := BuyOrder(ticker, price, strategy, market, balances);
      && (o.Buy? <==> Strategies.ShouldBuy(strategy, market, price) && BalanceOf(balances, "KRW") > 60000.0)
      && (o.Buy? ==> o.ticker == ticker && o.notional == InvestAmount(BalanceOf(balances, "KRW")) * 0.9995)
      && (o.Buy? ==> 59970.0 <= o.notional <= 199900.0 && o.notional < BalanceOf(balances, "KRW"))
  {
  }

  /** The elif chain on the profit rate: first matching tier wins, no gates. */
  function TierChain(cfg: CoinConfig, balance: real, profitRate: real): (r: Action)
    ensures !r.Buy? && (r.Sell? ==> r.ticker == cfg.ticker)
    ensures r.Sell? ==> r.quantity == balance * cfg.profitSell || r.quantity == balance
                        || r.quantity == balance * cfg.partialSell
    ensures r.NoOp? <==> cfg.takeProfit > profitRate && profitRate > cfg.stopLoss && profitRate > cfg.partialStop
  {
    if profitRate >= cfg.takeProfit then Sell(cfg.ticker, balance * cfg.profitSell)
    else if profitRate <= cfg.stopLoss then Sell(cfg.ticker, balance)
    else if profitRate <= cfg.partialStop then Sell(cfg.ticker, balance * cfg.partialSell)
    else NoOp
  }

  /** The order execute_sell places. avgBuyPrice is what the exchange client's
      get_avg_buy_price answers; a zero there makes the rate division raise,
      and the handler places nothing. */
  function ChainSell(coin: string, cfg: CoinConfig, price: real, balances: Option<seq<BalanceEntry>>,
                     avgBuyPrice: real): (r: Action)
    ensures BalanceOf(balances, coin) <= cfg.minUnit ==> r == NoOp
    ensures avgBuyPrice == 0.0 ==> r == NoOp
    ensures !r.Buy? && (r.Sell? ==> r.ticker == cfg.ticker)
  {
    var balance := BalanceOf(balances, coin);
    if balance <= cfg.minUnit then NoOp
    else if avgBuyPrice == 0.0 then NoOp
    else TierChain(cfg, balance, (price - avgBuyPrice) / avgBuyPrice * 100.0)
  }

  /** The chain partitions the rate: at or above take_profit the profit sell,
      otherwise at or below stop_loss the full sell, otherwise at or below
      partial_stop the partial sell, otherwise nothing; take-profit wins even
      when a stop threshold also matches. */
  lemma ChainTiers(cfg: CoinConfig, balance: real, rate: real)
    ensures rate >= cfg.takeProfit ==> TierChain(cfg, balance, rate) == Sell(cfg.ticker, balance * cfg.profitSell)
    ensures cfg.takeProfit > rate && rate <= cfg.stopLoss ==> TierChain(cfg, balance, rate) == Sell(cfg.ticker, balance)
    ensures cfg.takeProfit > rate > cfg.stopLoss && rate <= cfg.partialStop
            ==> TierChain(cfg, balance, rate) == Sell(cfg.ticker, balance * cfg.partialSell)
    ensures TierChain(cfg, balance, rate) == NoOp <==> cfg.takeProfit > rate > Max(cfg.stopLoss, cfg.partialStop)
  {
  }

  /** Without a min-unit gate the chain can order less than one unit. */
  lemma ChainIgnoresMinUnit()
    ensures exists coin, cfg, price, balances, avg ::
      var r := ChainSell(coin, cfg, price, balances, avg); r.Sell? && r.quantity < cfg.minUnit
  {
    var cfg := CoinConfig("KRW-BTC", 0.00008, 1.5, 0.6, -2.0, -1.2, 0.4);
    var balances := Some([BalanceEntry("BTC", Number(0.0001), Number(100.0))]);
    assert BalanceOf(balances, "BTC") == 0.0001;
    var r := ChainSell("BTC", cfg, 102.0, balances, 100.0);
    assert r == Sell("KRW-BTC", 0.0001 * 0.6);
  }

  /** _get_coin_settings (identical in trading_bot.py). */
  function CoinTable(): (t: seq<CoinEntry>)
    ensures |t| == 3 && UniqueCoins(t)
    ensures forall i :: 0 <= i < |t| ==> WellOrdered(t[i].config)
    ensures forall i :: 0 <= i < |t| ==> t[i].config.ticker == QuotePrefix + t[i].coin
  {
    [ CoinEntry("BTC", CoinConfig("KRW-BTC", 0.00008, 1.5, 0.6, -2.0, -1.2, 0.4)),
      CoinEntry("ETH", CoinConfig("KRW-ETH", 0.001, 2.0, 0.5, -2.5, -1.5, 0.4)),
      CoinEntry("ETC", CoinConfig("KRW-ETC", 0.01, 2.5, 0.5, -3.0, -2.0, 0.4)) ]
  }

  // ----- log_portfolio_status (no handler of its own) -----

  /** What one configured coin adds to the logged total. price is what
      get_current_price answered, avg what the exchange client's
      get_avg_buy_price answered. A held coin (balance > 0) computes its profit
      rate first: a missing price (None - avg) or a zero average (the division)
      raises, and None stands for that exception. */
  function HeldValue(balances: Option<seq<BalanceEntry>>, coin: string, price: Option<real>, avg: real): (r: Option<real>)
    ensures BalanceOf(balances, coin) <= 0.0 ==> r == Some(0.0)
    ensures r.None? ==> BalanceOf(balances, coin) > 0.0 && (price.None? || avg == 0.0)
    ensures r.Some? && BalanceOf(balances, coin) > 0.0 ==> price.Some? && r.value == price.value * BalanceOf(balances, coin)
  {
    var balance := BalanceOf(balances, coin);
    if balance <= 0.0 then Some(0.0)
    else if price.None? || avg == 0.0 then None
    else Some(price.value * balance)
  }

  /** The coin part of the total over the coins in coin_settings order; None
      once one raised. */
  function LoggedHoldings(balances: Option<seq<BalanceEntry>>, coins: seq<CoinEntry>, prices: seq<Option<real>>,
                          avgs: seq<real>): Option<real>
    requires |prices| == |coins| && |avgs| == |coins|
    decreases |coins|
  {
    if |coins| == 0 then Some(0.0)
    else
      var n := |coins| - 1;
      match LoggedHoldings(balances, coins[..n], prices[..n], avgs[..n])
      case None => None
      case Some(s) =>
        match HeldValue(balances, coins[n].coin, prices[n], avgs[n])
        case None => None
        case Some(v) => Some(s + v)
  }

  /** The total the log reports: holdings plus the KRW balance, or None when
      the method raised. */
  function LoggedTotal(balances: Option<seq<BalanceEntry>>, coins: seq<CoinEntry>, prices: seq<Option<real>>,
                       avgs: seq<real>): Option<real>
    requires |prices| == |coins| && |avgs| == |coins|
  {
    match LoggedHoldings(balances, coins, prices, avgs)
    case None => None
    case Some(s) => Some(s + BalanceOf(balances, "KRW"))
  }

  /** Coin i makes the log raise. */
  predicate RaisesAt(balances: Option<seq<BalanceEntry>>, coins: seq<CoinEntry>, prices: seq<Option<real>>,
                     avgs: seq<real>, i: int)
    requires |prices| == |coins| && |avgs| == |coins|
  {
    0 <= i < |coins| && BalanceOf(balances, coins[i].coin) > 0.0 && (prices[i].None? || avgs[i] == 0.0)
  }

  /** The log raises exactly when some held coin has no price or a zero
      average buy price. */
  lemma {:induction false} LoggedHoldingsFailsIff(balances: Option<seq<BalanceEntry>>, coins: seq<CoinEntry>,
                                                  prices: seq<Option<real>>, avgs: seq<real>)
    requires |prices| == |coins| && |avgs| == |coins|
    ensures LoggedHoldings(balances, coins, prices, avgs).None? <==> exists i :: RaisesAt(balances, coins, prices, avgs, i)
    decreases |coins|
  {
    if |coins| > 0 {
      var n := |coins| - 1;
      LoggedHoldingsFailsIff(balances, coins[..n], prices[..n], avgs[..n]);
      if exists i :: RaisesAt(balances, coins[..n], prices[..n], avgs[..n], i) {
        var i :| RaisesAt(balances, coins[..n], prices[..n], avgs[..n], i);
        assert RaisesAt(balances, coins, prices, avgs, i);
      }
      if HeldValue(balances, coins[n].coin, prices[n], avgs[n]).None? {
        assert RaisesAt(balances, coins, prices, avgs, n);
      }
      if exists i :: RaisesAt(balances, coins, prices, avgs, i) {
        var i :| RaisesAt(balances, coins, prices, avgs, i);
        if i < n {
          assert RaisesAt(balances, coins[..n], prices[..n], avgs[..n], i);
        }
      }
    }
  }

  // One coin's part of the total is never negative at a non-negative price.
  lemma HeldValueNonNegative(balances: Option<seq<BalanceEntry>>, coin: string, price: Option<real>, avg: real)
    requires price.Some? ==> price.value >= 0.0
    ensures HeldValue(balances, coin, price, avg).Some? ==> HeldValue(balances, coin, price, avg).value >= 0.0
  {
  }

  /** With non-negative prices the reported total is at least the KRW balance. */
  lemma {:induction false} LoggedTotalAtLeastCash(balances: Option<seq<BalanceEntry>>, coins: seq<CoinEntry>,
                                                  prices: seq<Option<real>>, avgs: seq<real>)
    requires |prices| == |coins| && |avgs| == |coins|
    requires forall i :: 0 <= i < |prices| && prices[i].Some? ==> prices[i].value >= 0.0
    ensures LoggedHoldings(balances, coins, prices, avgs).Some? ==> LoggedHoldings(balances, coins, prices, avgs).value >= 0.0
    ensures LoggedTotal(balances, coins, prices, avgs).Some? ==>
      LoggedTotal(balances, coins, prices, avgs).value >= BalanceOf(balances, "KRW")
    decreases |coins|
  {
    if |coins| > 0 {
      var n := |coins| - 1;
      assert forall i :: 0 <= i < n ==> prices[..n][i] == prices[i];
      LoggedTotalAtLeastCash(balances, coins[..n], prices[..n], avgs[..n]);
      HeldValueNonNegative(balances, coins[n].coin, prices[n], avgs[n]);
    }
  }

  /** One more coin: the prefix total extends by that coin's value, and a
      coin that raises fails the longer prefix. */
  lemma LoggedHoldingsSnoc(balances: Option<seq<BalanceEntry>>, coins: seq<CoinEntry>, prices: seq<Option<real>>,
                           avgs: seq<real>, i: nat)
    requires |prices| == |coins| && |avgs| == |coins| && i < |coins|
    ensures var prefix := LoggedHoldings(balances, coins[..i], prices[..i], avgs[..i]);
      var held := HeldValue(balances, coins[i].coin, prices[i], avgs[i]);
      LoggedHoldings(balances, coins[..i + 1], prices[..i + 1], avgs[..i + 1])
        == if prefix.None? || held.None? then None else Some(prefix.value + held.value)
  {
    assert coins[..i + 1][..i] == coins[..i] && prices[..i + 1][..i] == prices[..i] && avgs[..i + 1][..i] == avgs[..i];
  }

  /** A failed prefix fails every longer prefix. */
  lemma {:induction false} LoggedHoldingsStaysFailed(balances: Option<seq<BalanceEntry>>, coins: seq<CoinEntry>,
                                                     prices: seq<Option<real>>, avgs: seq<real>, i: nat)
    requires |prices| == |coins| && |avgs| == |coins| && i <= |coins|
    requires LoggedHoldings(balances, coins[..i], prices[..i], avgs[..i]).None?
    ensures LoggedHoldings(balances, coins, prices, avgs).None?
    decreases |coins| - i
  {
    if i == |coins| {
      assert coins[..i] == coins && prices[..i] == prices && avgs[..i] == avgs;
    } else {
      LoggedHoldingsSnoc(balances, coins, prices, avgs, i);
      LoggedHoldingsStaysFailed(balances, coins, prices, avgs, i + 1);
    }
  }

  /** log_portfolio_status's loop: the running total over the coins, then the
      KRW balance; None when a coin's line raised. */
  method LogPortfolioStatus(balances: Option<seq<BalanceEntry>>, coins: seq<CoinEntry>, prices: seq<Option<real>>,
                            avgs: seq<real>) returns (total: Option<real>)
    requires |prices| == |coins| && |avgs| == |coins|
    ensures total == LoggedTotal(balances, coins, prices, avgs)
  {
    var value := 0.0;
    var i := 0;
    while i < |coins|
      invariant 0 <= i <= |coins|
      invariant LoggedHoldings(balances, coins[..i], prices[..i], avgs[..i]) == Some(value)
    {
      LoggedHoldingsSnoc(balances, coins, prices, avgs, i);
      var balance := GetBalance(balances, coins[i].coin);
      if balance > 0.0 {
        if prices[i].None? || avgs[i] == 0.0 {
          LoggedHoldingsStaysFailed(balances, coins, prices, avgs, i + 1);
          return None;
        }
        var coinValue := prices[i].value * balance;
        assert HeldValue(balances, coins[i].coin, prices[i], avgs[i]).Some?;
        assert HeldValue(balances, coins[i].coin, prices[i], avgs[i]).value == coinValue;
        value := value + coinValue;
      }
      i := i + 1;
    }
    assert coins[..|coins|] == coins && prices[..|prices|] == prices && avgs[..|avgs|] == avgs;
    var krw := GetBalance(balances, "KRW");
    total := Some(value + krw);
  }
}
