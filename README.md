# Upbit trading bot: decision logic in Dafny

This project models the decision core of an Upbit (KRW market) crypto trading bot. Three revisions of the bot exist in the repository, and each one is modelled as written:

- `OrderManager` (`src/trading/order.py`) with `TradingAccount` (`src/trading/account.py`) and the strategies in `src/strategies/`;
- `TradingBot` in `src/trading/bot.py`;
- the single-file `TradingBot` in `trading_bot.py`.

Every exchange answer is an input: candles, order-book price, balances list and average buy price. Every exchange order is an output, an `Action`:
- `Buy(ticker, notional)`;
- `Sell(ticker, quantity)`;
- `NoOp`.

Prices are `real`. The modules are:

| file | module | models |
|---|---|---|
| types.dfy | Types | `Option`, `Candle`, `Action`, `MarketSnapshot` (the two candle fetches a strategy makes) |
| config.dfy | Config | `src/config/trading_config.py`: the records, `is_valid`, `get_coin_config`, `get_ticker_list` |
| account.dfy | Account | `src/trading/account.py`: balance and average-price lookups, the investment clamp, the portfolio total |
| market.dfy | Market | `is_trade_time` (`src/trading/market.py`, the same text in `bot.py` and `trading_bot.py`) |
| heikin_ashi.dfy | HeikinAshi | `src/strategies/heikin_ashi.py` (the transform is the same code in `trading_bot.py`) |
| volatility.dfy | Volatility | `src/strategies/volatility.py` (the target formula is the same in `trading_bot.py`) |
| strategies.dfy | Strategies | the `base.py` enum, the OR of `combined.py`, `_get_strategy` of `bot.py` |
| order.dfy | Order | `src/trading/order.py`: `OrderManager` with its cooldown map, the gated sell cascade |
| bot.dfy | Bot | `src/trading/bot.py`: buy sizing, the `elif` sell chain, the coin table, `log_portfolio_status` (the last three are the same code in `trading_bot.py`) |
| monolithic.dfy | Monolithic | `trading_bot.py`: its strategies (AND combinator, continuation Heikin-Ashi rule) and its buy sizing |
| scheduler.dfy | Scheduler | the `run` loop of both `TradingBot`s: daily counter, trading window, one pass over the coins |
| revisions.dfy | Revisions | how the three order paths relate |

Where the documentation and the code disagree, the model follows the code:
- The Heikin-Ashi open of bar i is the midpoint of the raw open and close of candle i-1. It is not the recursive formula in the `trading_bot.py` docstring.
- The high and low take the raw open and close, not the synthetic ones.
- In both `run` loops, `log_portfolio_status` is called without a handler of its own. When it raises (no price for a held coin, or an average buy price of 0), the loop's outer handler skips `daily_trade_count += 1`. A pass whose log raises is therefore not counted, and the 20-per-day limit does not bound passes in that case (`Scheduler.LimitNotReachedWhenLogRaises`).

Some facts that follow from the code:
- The `src/` Heikin-Ashi reversal signal can never fire (`HeikinAshi.NeverSignals`), so the package's combined strategy is the breakout strategy.
- `OrderManager` buys only above 200,000 KRW, always for 199,900 KRW.
- `bot.py` buys exactly above 60,000 KRW.
- `trading_bot.py` buys above 5,000 KRW, always for 5 % of the balance.

## Model

| member | source | states |
|---|---|---|
| Types.Min | src/trading/account.py:32 | the result is one of the two arguments and at most both |
| Types.Max | src/trading/account.py:32 | the result is one of the two arguments and at least both |
| Types.Abs | src/trading/order.py:72 | the result is non-negative and equals x or -x |
| Config.LoadApiKeys | src/config/trading_config.py:41-46 | a missing variable becomes the empty string, a present one is kept |
| Config.Lookup | src/config/trading_config.py:62-64 | None iff no entry has the coin; otherwise the config of an entry with that coin |
| Config.GetCoinConfig | src/config/trading_config.py:62-64 | None for an unknown coin, otherwise a stored config of that coin |
| Config.GetCoinConfigFindsEntry | src/config/trading_config.py:62-64 | with unique coins, the lookup returns exactly the i-th entry's config |
| Config.GetTickerList | src/config/trading_config.py:66-68 | one ticker per coin entry, in coin_settings order |
| Config.IsValid | src/config/trading_config.py:70-76 | a valid config has both keys non-empty and at least one coin |
| Config.MissingKeyIsInvalid | src/config/trading_config.py:41-46 | an unset key variable makes is_valid false, whatever the coins |
| Config.ValidityNeedsOnlyCoins | src/config/trading_config.py:72-76 | with both keys set, is_valid is false for an empty coin table and true otherwise |
| Config.ValidityIgnoresTiers | src/config/trading_config.py:70-76 | a config with mis-ordered tiers is still valid: is_valid checks only keys and non-emptiness |
| Account.FloatOrZero | src/trading/account.py:22 | a number is kept; a null or unparsable field becomes 0 |
| Account.BalanceInFound | src/trading/account.py:19-23 | a non-zero answer is the parsed balance of an entry of the currency with a non-null balance |
| Account.BalanceOf | src/trading/account.py:15-26 | a failed fetch answers 0 |
| Account.BalanceInFirstHolding | src/trading/account.py:19-22 | the first entry of the currency with a non-null balance decides |
| Account.BalanceInNoHolding | src/trading/account.py:23 | no such entry gives 0 |
| Account.GetBalance | src/trading/account.py:15-26 | the loop returns the lookup of the balances list, 0 when the fetch failed |
| Account.RemoveAll | src/trading/account.py:39 | removing a pattern never lengthens the string |
| Account.RemoveAllAbsent | src/trading/account.py:39 | a string without the pattern is unchanged |
| Account.StripQuotePrefix | src/trading/account.py:39 | "KRW-" + code becomes code |
| Account.AvgBuyPriceInFound | src/trading/account.py:38-41 | a non-zero answer is the parsed average price of an entry of the currency |
| Account.AvgBuyPriceOf | src/trading/account.py:34-44 | a failed fetch answers 0 |
| Account.AvgBuyPriceInFirstMatch | src/trading/account.py:38-40 | the first currency match decides, with no null check |
| Account.AvgBuyPriceInNoMatch | src/trading/account.py:41 | no match gives 0 |
| Account.GetAverageBuyPrice | src/trading/account.py:34-44 | the loop returns the lookup on the stripped ticker |
| Account.CalculateInvestAmount | src/trading/account.py:28-32 | bounds are 60,000 and 200,000; the result lies between them, is the identity inside and clamps outside |
| Account.InvestAmountMonotone | src/trading/account.py:32 | the clamp is monotone non-decreasing |
| Account.CoinValueFailsIff | src/trading/account.py:56-61 | one coin's line fails iff it is held, priced and has average price 0 |
| Account.PortfolioFailsOnlyOnZeroCost | src/trading/account.py:56-61 | the log line fails iff a held coin with a truthy price has average price 0 |
| Account.HoldingsValueNonNegative | src/trading/account.py:56-61 | with non-negative prices the coin total is non-negative |
| Account.CoinValueNonNegative | src/trading/account.py:56-61 | at a non-negative price one coin adds a non-negative value |
| Account.HoldingsValueSnoc | src/trading/account.py:51-61 | one more coin extends the running total by that coin's value or fails it |
| Account.HoldingsValueStaysFailed | src/trading/account.py:48-72 | once a coin's line raised, the whole log has raised |
| Account.PortfolioTotal | src/trading/account.py:46-72 | the loop computes the KRW balance plus balance × price over held, priced coins, or the failure |
| Market.LateMinuteNeverTrades | src/trading/market.py:24 | minute ≥ 5 is never a trade time, for any hour |
| Market.IsTradeTime | src/trading/market.py:20-24 | a trade time has an hour among 0, 4, ..., 20 and a minute below 5 |
| Market.TradeTimeEveryFourHours | src/trading/market.py:23-24 | for hours 0..23, trade time iff hour % 4 == 0 and minute < 5 |
| Market.WindowMinutesInHour | src/trading/market.py:23-24 | a trade hour has 5 window minutes, any other hour none |
| Market.WindowMinutesInHours | src/trading/market.py:23-24 | window minutes from an hour on = 5 × trade hours from it |
| Market.TradeHoursFromBlock | src/trading/market.py:23 | 6 - k trade hours remain from hour 4k |
| Market.TradeMinutesPerDay | src/trading/market.py:23-24 | exactly 30 of the 1440 minutes of a day are trade time |
| HeikinAshi.BarAt | src/strategies/heikin_ashi.py:17-21 | the synthetic low ≤ high, and they enclose the raw low and high |
| HeikinAshi.Transform | src/strategies/heikin_ashi.py:17-21 | one bar per candle |
| HeikinAshi.WellFormedBar | src/strategies/heikin_ashi.py:17-21 | for a well-formed candle the synthetic high and low are the raw ones and the close lies between them |
| HeikinAshi.BarIsLocal | src/strategies/heikin_ashi.py:18-19 | a bar depends only on its candle and the previous raw open and close, not on previous synthetic values |
| HeikinAshi.AllRecentTrue | src/strategies/heikin_ashi.py:24-26 | a true lazy all() means three bars exist and each is directed |
| HeikinAshi.AllRecentHolds | src/strategies/heikin_ashi.py:24-26 | three directed bars make the all() true |
| HeikinAshi.AllRecentDefined | src/strategies/heikin_ashi.py:24-30 | with three bars the all() never raises |
| HeikinAshi.AllRecentShape | src/strategies/heikin_ashi.py:24-30 | the lazy all() from the newest bar is defined from three bars on and true only with three bars |
| HeikinAshi.StrongTrend | src/strategies/heikin_ashi.py:23-30 | strong_trend never raises with three bars, and is never true with fewer |
| HeikinAshi.StrongTrendMeaning | src/strategies/heikin_ashi.py:23-30 | strong_trend iff the last three bars all rise or all fall |
| HeikinAshi.GetHeikinAshi | src/strategies/heikin_ashi.py:14-47 | a summary needs two candles and exists from three on; its open, high, low and close are the last synthetic bar's, strong_trend is the scan over the transformed bars, prev_trend is the direction of the bar before, body = abs(close - open) ≥ 0, low ≤ high, trend up iff close > open |
| HeikinAshi.StrongUpTrendContinues | src/strategies/heikin_ashi.py:24-40 | trend up with a strong trend forces the previous bar (and the one before) up |
| HeikinAshi.NeverSignals | src/strategies/heikin_ashi.py:49-57 | should_buy is false for every input |
| HeikinAshi.ShouldBuy | src/strategies/heikin_ashi.py:49-67 | a failed fetch answers false; a signal needs three candles and a strong trend |
| Volatility.TargetPrice | src/strategies/volatility.py:10-20 | a target iff a candle was fetched; target - close = (high - low) / 2, so target ≥ close on a well-formed range |
| Volatility.ShouldBuy | src/strategies/volatility.py:22-35 | fires iff a candle was fetched and the price exceeds its close by more than half its range |
| Volatility.BreakoutIsStrict | src/strategies/volatility.py:31-35 | a price equal to the target does not fire |
| Volatility.NoTargetNoSignal | src/strategies/volatility.py:27-29 | a failed fetch never fires |
| Volatility.NoSignalAtOrBelowClose | src/strategies/volatility.py:16-31 | a price at or below the previous close never fires |
| Volatility.BreakoutMonotone | src/strategies/volatility.py:31 | the signal is upward closed in the price |
| Strategies.CombinedShouldBuy | src/strategies/combined.py:11-14 | either constituent firing makes the combination fire |
| Strategies.CombinedFalseOnlyIfBothFalse | src/strategies/combined.py:13-14 | the OR is false iff both constituents are |
| Strategies.CombinedSkipsHeikinAshi | src/strategies/combined.py:13-14 | once the breakout fires, the hourly candles do not matter |
| Strategies.CombinedIsVolatility | src/strategies/combined.py:13-14 | the combined strategy equals the breakout strategy |
| Strategies.ShouldBuy | src/trading/bot.py:83-92 | whatever strategy is selected, a signal is a breakout of the four-hour target |
| Strategies.DispatchCollapses | src/trading/bot.py:83-92 | HEIKIN_ASHI never buys; COMBINED buys iff VOLATILITY does |
| Order.InCooldown | src/trading/order.py:18-23 | in cooldown iff the ticker was bought and now is less than 3600 s after that buy |
| Order.BuyOrder | src/trading/order.py:14-44 | only buys, for the ticker, outside cooldown and on a signal; the notional is the clamp of the KRW balance less the fee, below that balance |
| Order.CooldownBlocks | src/trading/order.py:18-23 | within an hour of a buy the answer is NoOp for every price, strategy and balance |
| Order.CooldownEndsAfterOneHour | src/trading/order.py:20-21 | exactly one hour later the cooldown is over |
| Order.BuysOnlyAboveCeiling | src/trading/order.py:25-33 | a buy iff no cooldown, a signal and KRW > 200,000, always Buy(ticker, 199,900) |
| Order.SellOrder | src/trading/order.py:46-57 | no sell at balance ≤ min_unit or average price 0; any sell is for the ticker and ≥ min_unit |
| Order.GatedTier | src/trading/order.py:59-83 | any sell is for the ticker and ≥ min_unit |
| Order.GatedTierQuantity | src/trading/order.py:63-83 | a sell is balance × profit_sell, the whole balance, or balance × partial_sell |
| Order.GatedTierWithinBalance | src/trading/order.py:63-83 | with fractions ≤ 1, a tier sell never exceeds the balance |
| Order.TakeProfitShadowsStops | src/trading/order.py:63-69 | at or above take_profit: the profit sell iff both gates pass, else nothing |
| Order.FullStopSellsBalance | src/trading/order.py:72-75 | below take_profit, at or below stop_loss with the loss gate: the whole balance |
| Order.LossGateBlocksBothStops | src/trading/order.py:72-83 | below take_profit with a loss under the gate: nothing |
| Order.PartialStopConditions | src/trading/order.py:78-83 | between stop_loss and take_profit: partial sell iff rate ≤ partial_stop, gate and min-unit pass |
| Order.SellWithinBalance | src/trading/order.py:63-83 | with fractions ≤ 1, a sell never exceeds the balance |
| Order.TakeProfitExample | src/trading/order.py:63-69 | 15 % up on 10 units with profit_sell 0.5 sells 5 |
| Order.PartialStopExample | src/trading/order.py:78-83 | 3 % down with partial_sell 0.4 sells 4 of 10 |
| Order.OrderManager.constructor | src/trading/order.py:6-12 | the cooldown map starts empty |
| Order.OrderManager.ExecuteBuy | src/trading/order.py:14-44 | the order is the buy decision; the map gains ticker ↦ now only when a buy was placed without failing, other entries unchanged |
| Order.OrderManager.ExecuteSell | src/trading/order.py:46-86 | the sell decision with the manager's settings; no state changes |
| Order.CooldownScenario | src/trading/order.py:18-34 | a second buy of the same ticker within the hour after a placed buy is NoOp |
| Bot.InvestAmount | src/trading/bot.py:134-137 | bounds are 60,000 and 200,000; the result lies between them, is 5 % of KRW in the middle range, 60,000 when 5 % of KRW is at most that and 200,000 when it is at least that |
| Bot.BuyOrder | src/trading/bot.py:126-145 | only buys, for the given ticker, and nothing without a signal |
| Bot.BuysExactlyAboveFloor | src/trading/bot.py:129-141 | a buy iff a signal and KRW > 60,000, for the clamp × 0.9995, within [59,970, 199,900] and below the balance |
| Bot.ChainSell | src/trading/bot.py:147-168 | only sells, for the ticker; nothing at balance ≤ min_unit or average price 0 |
| Bot.TierChain | src/trading/bot.py:160-185 | no buy; a sell is for the ticker, of balance × profit_sell, the balance or balance × partial_sell; nothing iff the rate is below take_profit and above both stops |
| Bot.ChainTiers | src/trading/bot.py:160-165 | first matching tier wins; no order iff max(stop_loss, partial_stop) < rate < take_profit |
| Bot.ChainIgnoresMinUnit | src/trading/bot.py:160-185 | the chain can sell less than min_unit |
| Bot.CoinTable | src/trading/bot.py:49-81 | three distinct coins, each with stop_loss < partial_stop < 0 < take_profit, fractions in (0, 1], ticker "KRW-" + coin |
| Bot.HeldValue | src/trading/bot.py:194-200 | a coin not held adds 0; only a held coin without price or with average price 0 raises; otherwise it adds price × balance |
| Bot.HeldValueNonNegative | src/trading/bot.py:194-200 | at a non-negative price one coin adds a non-negative value |
| Bot.LoggedHoldingsFailsIff | src/trading/bot.py:192-198 | the log raises iff a held coin has no price or average price 0 |
| Bot.LoggedTotalAtLeastCash | src/trading/bot.py:191-211 | with non-negative prices the logged total is at least the KRW balance |
| Bot.LoggedHoldingsSnoc | src/trading/bot.py:192-200 | one more coin extends the running total by that coin's value or fails it |
| Bot.LoggedHoldingsStaysFailed | src/trading/bot.py:192-198 | once a coin raised, the whole log has raised |
| Bot.LogPortfolioStatus | src/trading/bot.py:187-212 | the loop computes the logged total or the exception |
| Monolithic.VolatilityShouldBuy | trading_bot.py:43-48 | the same answer as the package's breakout on any fetch whose target is the given one |
| Monolithic.HeikinAshiShouldBuy | trading_bot.py:55-75 | a signal needs three fetched candles |
| Monolithic.HeikinAshiMeaning | trading_bot.py:55-75 | the four conditions hold iff three candles were fetched and the last three bars rise |
| Monolithic.CombinedShouldBuy | trading_bot.py:83-89 | a signal needs the price above the target and three fetched candles |
| Monolithic.ShouldBuy | trading_bot.py:169-180 | outside HEIKIN_ASHI a signal needs a breakout; outside VOLATILITY it needs three fetched candles |
| Monolithic.CombinedNeedsBoth | trading_bot.py:83-89 | AND of breakout and Heikin-Ashi; without a breakout the hourly candles do not matter |
| Monolithic.BuyOrder | trading_bot.py:278-301 | nothing without a target; only buys, for the ticker |
| Monolithic.BuyIsFivePercent | trading_bot.py:285-297 | a buy iff target, signal and KRW > 5,000, always for 5 % of KRW |
| Monolithic.SignalsAgainstPackage | trading_bot.py:83-89 | the breakout signal equals the package's; the AND implies the package's OR |
| Monolithic.ContinuationExample | trading_bot.py:55-75 | three rising bars with a breakout buy here, and the package's rule stays silent |
| Scheduler.CoinOrders | src/trading/bot.py:267-276 | nothing without a price; at most a buy then a sell, for the coin's ticker |
| Scheduler.PassOrders | src/trading/bot.py:267-276 | at most two orders per coin, none of them NoOp |
| Scheduler.PassOrdersTickers | src/trading/bot.py:267-276 | every order is for the ticker of a coin whose price was fetched |
| Scheduler.PassOrdersSnoc | src/trading/bot.py:267-276 | one more coin appends that coin's orders |
| Scheduler.ExecuteCoin | src/trading/bot.py:268-276 | one coin's iteration places that coin's orders |
| Scheduler.RunPass | src/trading/bot.py:267-276 | the loop places the pass's orders in table order |
| Scheduler.NextCounter | src/trading/bot.py:255-279 | the count stays in [0, 20]; it rises iff a pass ran and its log did not raise; a new date outside the window resets it |
| Scheduler.DailyLimitBoundsPasses | src/trading/bot.py:257-279 | within a day the counted passes (log did not raise) are at most 20 minus the count and are what the counter adds; with no log raising every pass is counted |
| Scheduler.RaisingLogNeverCounts | src/trading/bot.py:278-285 | when every log raises, the counter never moves and every window iteration runs a pass |
| Scheduler.LimitNotReachedWhenLogRaises | trading_bot.py:432-457 | 21 raising iterations in one day all run a pass |
| Scheduler.TradeLoop.constructor | src/trading/bot.py:250-251 | the count starts at 0 on today's date |
| Scheduler.TradeLoop.Step | trading_bot.py:423-453 | orders are the pass iff below the limit and in the window; the counter moves as NextCounter says |
| Revisions.GatedSellIsChainSell | src/trading/order.py:59-83 | every sell of OrderManager is the chain's sell on the same inputs |
| Revisions.ChainSellsBelowLossGate | src/trading/bot.py:160-163 | the chain sells where the loss gate of OrderManager does not |
| Revisions.BuyThresholdsNest | src/trading/order.py:28-33 | an OrderManager buy is a package-bot buy, which for the breakout is a single-file buy |
| Revisions.NotionalsAboveCap | trading_bot.py:293-296 | above 4,000,000 KRW the package notional is 199,900 and the single-file one exceeds 200,000 |

## Left out

- Exchange calls (`get_ohlcv`, `get_orderbook`, `get_balances`, `get_avg_buy_price`, `get_current_price`) are parameters. `buy_market_order` and `sell_market_order` are the returned actions. A failing `buy_market_order` is the `orderFails` parameter of `ExecuteBuy`.
- `datetime.now()` is a parameter. `time.sleep` pacing, the infinite `while True`, startup (`check_system_status`, `_initialize_upbit`, `load_dotenv`) and `main.py` wiring are not modelled.
- Logging and printing are not modelled. `log_portfolio_status` is kept only for whether it raises and what total it computes.
- YAML and environment loading (`_load_yaml_config`) are not modelled; configs are given values.
- IEEE float rounding is not modelled; prices and amounts are exact reals.
- Candle volume and timestamps are not kept; only open, high, low and close are.
- A balances-list entry without a `currency` or `avg_buy_price` key (a KeyError) is not modelled. Fields are present, possibly null or unparsable.
- Each get_balance call makes its own fetch. Within one `execute_buy`, one `execute_sell` and one log, a single balances snapshot stands for those fetches.
- Scheduler.TradeLoop.Step: one clock reading serves both the date check and the trading-window test, while the source reads `datetime.now()` separately for each; when the date is read just before midnight and the window test just after it, the source runs the 00:00 pass and counts it against the previous date, while here that pass counts against the new date.
- Scheduler.TradeLoop.Step: the buy and the sell of a coin see separate balance snapshots as inputs. The effect of a placed buy on the later sell's balances is not derived.
- `src/utils/logger.py`, `balance_test.py` and the abstract `Strategy` class are not part of this model.
