/** src/trading/order.py: OrderManager. The buy path keeps the per-ticker
    cooldown map last_buy_time; the sell path is a gated cascade that changes
    nothing. Times are seconds on the bot's clock; the exchange calls are
    replaced by the returned Action and by parameters. */
module Order {
  import opened Types
  import opened Config
  import opened Account
  import Strategies

  /** The buy notional is shrunk by the taker fee. */
  const FeeFactor: real := 0.9995

  /** A buy of the ticker less than one hour ago (time_diff < 1 hour). */
  predicate InCooldown(lastBuyTime: map<string, real>, ticker: string, now: real)
    ensures InCooldown(lastBuyTime, ticker, now) <==> ticker in lastBuyTime && now < lastBuyTime[ticker] + 3600.0
  {
    ticker in lastBuyTime && (now - lastBuyTime[ticker]) / 3600.0 < 1.0
  }

  /** The order execute_buy places: none while in cooldown or without a
      signal; otherwise, if the KRW balance exceeds the clamped amount, a buy
      of that amount less the fee. */
  function BuyOrder(lastBuyTime: map<string, real>, ticker: string, price: real, strategy: Strategies.StrategyKind,
                    market: MarketSnapshot, balances: Option<seq<BalanceEntry>>, now: real): (o: Action)
    ensures !o.Sell?
    ensures o.Buy? ==> o.ticker == ticker && !InCooldown(lastBuyTime, ticker, now)
                       && Strategies.ShouldBuy(strategy, market, price)
    ensures o.Buy? ==> o.notional == CalculateInvestAmount(BalanceOf(balances, "KRW")) * FeeFactor
                       && o.notional < BalanceOf(balances, "KRW")
  {
    if InCooldown(lastBuyTime, ticker, now) then NoOp
    else if !Strategies.ShouldBuy(strategy, market, price) then NoOp
    else
      var krw := BalanceOf(balances, "KRW");
      var investAmount := CalculateInvestAmount(krw);
      if krw > investAmount then Buy(ticker, investAmount * FeeFactor) else NoOp
  }

  /** Cooldown short-circuits before the strategy and the balance are read:
      the answer is NoOp whatever they are. */
  lemma CooldownBlocks(lastBuyTime: map<string, real>, ticker: string, now: real)
    requires ticker in lastBuyTime && now < lastBuyTime[ticker] + 3600.0
    ensures forall price, strategy, market, balances ::
      BuyOrder(lastBuyTime, ticker, price, strategy, market, balances, now) == NoOp
  {
  }

  /** Exactly one hour after the last buy the cooldown is over. */
  lemma CooldownEndsAfterOneHour(lastBuyTime: map<string, real>, ticker: string, now: real)
    requires ticker in lastBuyTime && now == lastBuyTime[ticker] + 3600.0
    ensures !InCooldown(lastBuyTime, ticker, now)
  {
  }

  /** Composed with calculate_invest_amount, a buy happens exactly when the
      KRW balance exceeds 200,000, and always for 199,900 KRW. */
  lemma BuysOnlyAboveCeiling(lastBuyTime: map<string, real>, ticker: string, price: real, strategy: Strategies.StrategyKind,
                             market: MarketSnapshot, balances: Option<seq<BalanceEntry>>, now: real)
    ensures var o := BuyOrder(lastBuyTime, ticker, price, strategy, market, balances, now);
      && (o.Buy? <==> !InCooldown(lastBuyTime, ticker, now) && Strategies.ShouldBuy(strategy, market, price)
                      && BalanceOf(balances, "KRW") > 200000.0)
      && (o.Buy? ==> o == Buy(ticker, 199900.0))
  {
  }

  /** The order execute_sell places. */
  function SellOrder(settings: TradeSettings, coin: string, cfg: CoinConfig, price: real,
                     balances: Option<seq<BalanceEntry>>): (r: Action)
    ensures r.Sell? ==> r.ticker == cfg.ticker && r.quantity >= cfg.minUnit
    ensures BalanceOf(balances, coin) <= cfg.minUnit ==> r == NoOp
    ensures AvgBuyPriceOf(balances, cfg.ticker) == 0.0 ==> r == NoOp
  {
    var balance := BalanceOf(balances, coin);
    if balance <= cfg.minUnit then NoOp
    else
      var avgPrice := AvgBuyPriceOf(balances, cfg.ticker);
      if avgPrice == 0.0 then NoOp
      else GatedTier(settings, cfg, balance, avgPrice, price)
  }

  /** profit_rate in percent. */
  function ProfitRate(price: real, avgPrice: real): real
    requires avgPrice != 0.0
  {
    (price - avgPrice) / avgPrice * 100.0
  }

  /** The tier cascade after the two exclusions: take-profit (absolute profit
      and min-unit gates), then full stop (absolute-loss gate), then partial
      stop (absolute-loss and min-unit gates). The take-profit branch returns
      whether or not it sold. */
  function GatedTier(settings: TradeSettings, cfg: CoinConfig, balance: real, avgPrice: real, price: real): (r: Action)
    requires avgPrice != 0.0 && balance > cfg.minUnit
    ensures r.Sell? ==> r.ticker == cfg.ticker && r.quantity >= cfg.minUnit
  {
    var profitRate := ProfitRate(price, avgPrice);
    var profitKrw := (price - avgPrice) * balance;
    if profitRate >= cfg.takeProfit then
      var sellAmount := balance * cfg.profitSell;
      if profitKrw >= settings.minProfitKrw as real && sellAmount >= cfg.minUnit then Sell(cfg.ticker, sellAmount)
      else NoOp
    else if profitRate <= cfg.stopLoss && Abs(profitKrw) >= settings.minLossKrw as real then
      Sell(cfg.ticker, balance)
    else if profitRate <= cfg.partialStop && Abs(profitKrw) >= settings.minLossKrw as real then
      var sellAmount := balance * cfg.partialSell;
      if sellAmount >= cfg.minUnit then Sell(cfg.ticker, sellAmount) else NoOp
    else NoOp
  }

  /** Once the take-profit threshold is reached the stop tiers are not looked
      at: the answer is the profit sell or nothing, and the profit sell happens
      exactly when both of its gates pass. */
  lemma TakeProfitShadowsStops(settings: TradeSettings, cfg: CoinConfig, balance: real, avgPrice: real, price: real)
    requires avgPrice != 0.0 && balance > cfg.minUnit
    requires ProfitRate(price, avgPrice) >= cfg.takeProfit
    ensures GatedTier(settings, cfg, balance, avgPrice, price) ==
      if (price - avgPrice) * balance >= settings.minProfitKrw as real && balance * cfg.profitSell >= cfg.minUnit
      then Sell(cfg.ticker, balance * cfg.profitSell) else NoOp
  {
  }

  /** Below take-profit, a full stop sells the whole balance whenever the
      rate and the absolute-loss gate allow it. */
  lemma FullStopSellsBalance(settings: TradeSettings, cfg: CoinConfig, balance: real, avgPrice: real, price: real)
    requires avgPrice != 0.0 && balance > cfg.minUnit
    requires ProfitRate(price, avgPrice) < cfg.takeProfit
    requires ProfitRate(price, avgPrice) <= cfg.stopLoss
    requires Abs((price - avgPrice) * balance) >= settings.minLossKrw as real
    ensures GatedTier(settings, cfg, balance, avgPrice, price) == Sell(cfg.ticker, balance)
  {
  }

  /** Below take-profit, a failed absolute-loss gate blocks the partial stop
      as well as the full stop: both tiers test the same loss. */
  lemma LossGateBlocksBothStops(settings: TradeSettings, cfg: CoinConfig, balance: real, avgPrice: real, price: real)
    requires avgPrice != 0.0 && balance > cfg.minUnit
    requires ProfitRate(price, avgPrice) < cfg.takeProfit
    requires Abs((price - avgPrice) * balance) < settings.minLossKrw as real
    ensures GatedTier(settings, cfg, balance, avgPrice, price) == NoOp
  {
  }

  /** Below take-profit and with the full stop not taken, the partial stop
      sells balance * partial_sell exactly when its rate, the absolute-loss
      gate and the minimum unit all allow it. */
  lemma PartialStopConditions(settings: TradeSettings, cfg: CoinConfig, balance: real, avgPrice: real, price: real)
    requires avgPrice != 0.0 && balance > cfg.minUnit
    requires ProfitRate(price, avgPrice) < cfg.takeProfit
    requires ProfitRate(price, avgPrice) > cfg.stopLoss
    ensures GatedTier(settings, cfg, balance, avgPrice, price) ==
      if ProfitRate(price, avgPrice) <= cfg.partialStop
         && Abs((price - avgPrice) * balance) >= settings.minLossKrw as real
         && balance * cfg.partialSell >= cfg.minUnit
      then Sell(cfg.ticker, balance * cfg.partialSell) else NoOp
  {
  }

  /** A sell is one of the three tier quantities. */
  lemma GatedTierQuantity(settings: TradeSettings, cfg: CoinConfig, balance: real, avgPrice: real, price: real)
    requires avgPrice != 0.0 && balance > cfg.minUnit
    requires GatedTier(settings, cfg, balance, avgPrice, price).Sell?
    ensures var q := GatedTier(settings, cfg, balance, avgPrice, price).quantity;
      q == balance * cfg.profitSell || q == balance || q == balance * cfg.partialSell
  {
  }

  // Helper for SellWithinBalance: keeps the product step out of its context.
  lemma FractionAtMost(balance: real, fraction: real)
    requires balance >= 0.0 && fraction <= 1.0
    ensures balance * fraction <= balance
  {
  }

  // The tier-level half of SellWithinBalance, free of the balances lookup.
  lemma GatedTierWithinBalance(settings: TradeSettings, cfg: CoinConfig, balance: real, avgPrice: real, price: real)
    requires avgPrice != 0.0 && balance > cfg.minUnit >= 0.0
    requires cfg.profitSell <= 1.0 && cfg.partialSell <= 1.0
    ensures GatedTier(settings, cfg, balance, avgPrice, price).Sell? ==>
      GatedTier(settings, cfg, balance, avgPrice, price).quantity <= balance
  {
    var r := GatedTier(settings, cfg, balance, avgPrice, price);
    if r.Sell? {
      GatedTierQuantity(settings, cfg, balance, avgPrice, price);
      if r.quantity == balance * cfg.profitSell {
        FractionAtMost(balance, cfg.profitSell);
      } else if r.quantity == balance * cfg.partialSell {
        FractionAtMost(balance, cfg.partialSell);
      } else {
        assert r.quantity == balance;
      }
      assert r.quantity <= balance;
    }
  }

  /** A sell never exceeds the balance when the unit is non-negative and the
      fractions are at most one. */
  lemma SellWithinBalance(settings: TradeSettings, coin: string, cfg: CoinConfig, price: real,
                          balances: Option<seq<BalanceEntry>>)
    requires cfg.minUnit >= 0.0 && cfg.profitSell <= 1.0 && cfg.partialSell <= 1.0
    requires SellOrder(settings, coin, cfg, price, balances).Sell?
    ensures SellOrder(settings, coin, cfg, price, balances).quantity <= BalanceOf(balances, coin)
  {
    var balance := BalanceOf(balances, coin);
    var avgPrice := AvgBuyPriceOf(balances, cfg.ticker);
    assert balance > cfg.minUnit && avgPrice != 0.0;
    assert SellOrder(settings, coin, cfg, price, balances) == GatedTier(settings, cfg, balance, avgPrice, price);
    GatedTierWithinBalance(settings, cfg, balance, avgPrice, price);
  }

  /** The worked take-profit example: average 100, price 115, balance 10,
      take_profit 10 %, profit_sell 0.5, min_profit_krw 10: sell 5 units. */
  lemma TakeProfitExample(cfg: CoinConfig, settings: TradeSettings)
    requires cfg.takeProfit == 10.0 && cfg.profitSell == 0.5 && cfg.minUnit == 0.001
    requires settings.minProfitKrw == 10
    ensures GatedTier(settings, cfg, 10.0, 100.0, 115.0) == Sell(cfg.ticker, 5.0)
  {
  }

  /** The worked partial-stop example: price 97 is -3 %, above the -5 % full
      stop and below the -2 % partial stop; the 30 KRW loss passes a 20 KRW gate. */
  lemma PartialStopExample(cfg: CoinConfig, settings: TradeSettings)
    requires cfg.takeProfit == 10.0 && cfg.stopLoss == -5.0 && cfg.partialStop == -2.0
    requires cfg.partialSell == 0.4 && cfg.minUnit == 0.001
    requires settings.minLossKrw == 20
    ensures GatedTier(settings, cfg, 10.0, 100.0, 97.0) == Sell(cfg.ticker, 4.0)
  {
  }

  class OrderManager {
    /** config.trade_settings, read by the sell gates. */
    const settings: TradeSettings
    /** last_buy_time: the time of the last successful buy per ticker. */
    var lastBuyTime: map<string, real>

    constructor (settings: TradeSettings)
      ensures this.settings == settings && lastBuyTime == map[]
    {
      this.settings := settings;
      lastBuyTime := map[];
    }

    /** execute_buy at time now. orderFails stands for buy_market_order
        raising: the order was sent but the time is not recorded. */
    method ExecuteBuy(ticker: string, price: real, strategy: Strategies.StrategyKind, market: MarketSnapshot,
                      balances: Option<seq<BalanceEntry>>, now: real, orderFails: bool) returns (order: Action)
      modifies this
      ensures order == BuyOrder(old(lastBuyTime), ticker, price, strategy, market, balances, now)
      ensures lastBuyTime == if order.Buy? && !orderFails then old(lastBuyTime)[ticker := now] else old(lastBuyTime)
    {
      if ticker in lastBuyTime {
        var timeDiff := (now - lastBuyTime[ticker]) / 3600.0;
        if timeDiff < 1.0 {
          return NoOp;
        }
      }
      if !Strategies.ShouldBuy(strategy, market, price) {
        return NoOp;
      }
      var krw := GetBalance(balances, "KRW");
      var investAmount := CalculateInvestAmount(krw);
      if krw > investAmount {
        investAmount := investAmount * FeeFactor;
        order := Buy(ticker, investAmount);
        if !orderFails {
          lastBuyTime := lastBuyTime[ticker := now];
        }
      } else {
        order := NoOp;
      }
    }

    /** execute_sell with this manager's trade settings. */
    function ExecuteSell(coin: string, cfg: CoinConfig, price: real, balances: Option<seq<BalanceEntry>>): (r: Action)
      ensures r == SellOrder(settings, coin, cfg, price, balances)
    {
      SellOrder(settings, coin, cfg, price, balances)
    }
  }

  /** Two buy attempts for one ticker within the hour place at most one order. */
  method CooldownScenario(m: OrderManager, ticker: string, strategy: Strategies.StrategyKind, market: MarketSnapshot,
                          balances: Option<seq<BalanceEntry>>, t: real, later: real)
    returns (first: Action, second: Action)
    requires t <= later < t + 3600.0
    modifies m
    ensures first.Buy? ==> second == NoOp
  {
    first := m.ExecuteBuy(ticker, 100.0, strategy, market, balances, t, false);
    second := m.ExecuteBuy(ticker, 100.0, strategy, market, balances, later, false);
  }
}
