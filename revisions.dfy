/** How the three order paths relate: OrderManager in src/trading/order.py,
    TradingBot in src/trading/bot.py and TradingBot in trading_bot.py. */
module Revisions {
  import opened Types
  import opened Config
  import opened Account
  import Strategies
  import Order
  import Bot
  import Monolithic

  /** The gates of OrderManager.execute_sell only suppress: every sell it
      places is the sell the bot's elif chain places on the same balances,
      when the client's average buy price agrees with the balances list. */
  lemma GatedSellIsChainSell(settings: TradeSettings, coin: string, cfg: CoinConfig, price: real,
                             balances: Option<seq<BalanceEntry>>)
    requires Order.SellOrder(settings, coin, cfg, price, balances).Sell?
    ensures Bot.ChainSell(coin, cfg, price, balances, AvgBuyPriceOf(balances, cfg.ticker))
      == Order.SellOrder(settings, coin, cfg, price, balances)
  {
    var balance := BalanceOf(balances, coin);
    var avg := AvgBuyPriceOf(balances, cfg.ticker);
    assert balance > cfg.minUnit && avg != 0.0;
    assert Order.SellOrder(settings, coin, cfg, price, balances) == Order.GatedTier(settings, cfg, balance, avg, price);
    assert Bot.ChainSell(coin, cfg, price, balances, avg) == Bot.TierChain(cfg, balance, Order.ProfitRate(price, avg));
  }

  /** The converse fails: a 2.5 % loss of 0.0004 BTC bought at 100 KRW is a
      full stop for the chain, while the 1,000 KRW loss gate keeps
      OrderManager from selling. */
  lemma ChainSellsBelowLossGate()
    ensures var cfg := CoinConfig("KRW-BTC", 0.00008, 1.5, 0.6, -2.0, -1.2, 0.4);
      var settings := TradeSettings(20, 240, 5000, 1000, 1000);
      var balances := Some([BalanceEntry("BTC", Number(0.0004), Number(100.0))]);
      && Bot.ChainSell("BTC", cfg, 97.5, balances, 100.0) == Sell("KRW-BTC", 0.0004)
      && Order.SellOrder(settings, "BTC", cfg, 97.5, balances) == NoOp
  {
    var balances := Some([BalanceEntry("BTC", Number(0.0004), Number(100.0))]);
    assert BalanceOf(balances, "BTC") == 0.0004;
    StripQuotePrefix("BTC");
    assert AvgBuyPriceOf(balances, "KRW-BTC") == 100.0;
  }

  /** The buy thresholds nest: a buy by OrderManager (above 200,000 KRW) is a
      buy by the package bot (above 60,000 KRW) under the same strategy, and
      with the breakout strategy that is a buy by the single-file bot (above
      5,000 KRW) too. */
  lemma BuyThresholdsNest(lastBuyTime: map<string, real>, ticker: string, price: real, strategy: Strategies.StrategyKind,
                          m: MarketSnapshot, balances: Option<seq<BalanceEntry>>, now: real)
    ensures Order.BuyOrder(lastBuyTime, ticker, price, strategy, m, balances, now).Buy?
      ==> Bot.BuyOrder(ticker, price, strategy, m, balances).Buy?
    ensures Bot.BuyOrder(ticker, price, Strategies.VolatilityKind, m, balances).Buy?
      ==> Monolithic.BuyOrder(ticker, price, Strategies.VolatilityKind, m, balances).Buy?
  {
    Order.BuysOnlyAboveCeiling(lastBuyTime, ticker, price, strategy, m, balances, now);
    Bot.BuysExactlyAboveFloor(ticker, price, strategy, m, balances);
    Bot.BuysExactlyAboveFloor(ticker, price, Strategies.VolatilityKind, m, balances);
    Monolithic.BuyIsFivePercent(ticker, price, Strategies.VolatilityKind, m, balances);
  }

  /** Above 4,000,000 KRW the package bot's notional is capped at 199,900 KRW,
      OrderManager's always is, and the single-file bot's keeps growing at 5 %. */
  lemma NotionalsAboveCap(ticker: string, price: real, m: MarketSnapshot, balances: Option<seq<BalanceEntry>>)
    requires BalanceOf(balances, "KRW") > 4000000.0
    requires Bot.BuyOrder(ticker, price, Strategies.VolatilityKind, m, balances).Buy?
    ensures Bot.BuyOrder(ticker, price, Strategies.VolatilityKind, m, balances).notional == 199900.0
    ensures Monolithic.BuyOrder(ticker, price, Strategies.VolatilityKind, m, balances).notional
      == BalanceOf(balances, "KRW") * 0.05 > 200000.0
  {
    Bot.BuysExactlyAboveFloor(ticker, price, Strategies.VolatilityKind, m, balances);
    BuyThresholdsNest(map[], ticker, price, Strategies.VolatilityKind, m, balances, 0.0);
    Monolithic.BuyIsFivePercent(ticker, price, Strategies.VolatilityKind, m, balances);
  }
}
