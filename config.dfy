/** The configuration records of src/config/trading_config.py and the three
    queries the bot makes of them. Loading (.env, YAML) is not modelled: a
    configuration is a given value. */
module Config {
  import opened Types

  /** Per-coin tiers: percentages for take_profit, stop_loss and partial_stop,
      fractions for profit_sell and partial_sell. */
  datatype CoinConfig = CoinConfig(
    ticker: string,
    minUnit: real,
    takeProfit: real,
    profitSell: real,
    stopLoss: real,
    partialStop: real,
    partialSell: real)

  datatype ApiConfig = ApiConfig(accessKey: string, secretKey: string)

  datatype TradeSettings = TradeSettings(
    maxDailyTrades: int,
    tradeInterval: int,
    minKrwBalance: int,
    minProfitKrw: int,
    minLossKrw: int)

  /** One item of the coin_settings dict: its key (the coin code, e.g. "BTC") and value. */
  datatype CoinEntry = CoinEntry(coin: string, config: CoinConfig)

  /** A loaded TradingConfig. coinSettings lists the dict's items in insertion order. */
  datatype TradingConfig = TradingConfig(apiKeys: ApiConfig, tradeSettings: TradeSettings, coinSettings: seq<CoinEntry>)

  /** Dict keys are unique. */
  ghost predicate UniqueCoins(entries: seq<CoinEntry>)
  {
    forall i, j :: 0 <= i < j < |entries| ==> entries[i].coin != entries[j].coin
  }

  /** The tier ordering a sensible coin configuration has; nothing in the
      configuration code checks it. */
  predicate WellOrdered(c: CoinConfig)
  {
    && c.stopLoss < c.partialStop < 0.0 < c.takeProfit
    && 0.0 < c.profitSell <= 1.0
    && 0.0 < c.partialSell <= 1.0
    && 0.0 < c.minUnit
  }

  /** _load_api_keys: an unset environment variable reads as the empty string. */
  function LoadApiKeys(access: Option<string>, secret: Option<string>): (k: ApiConfig)
    ensures access.None? ==> k.accessKey == ""
    ensures secret.None? ==> k.secretKey == ""
    ensures access.Some? ==> k.accessKey == access.value
    ensures secret.Some? ==> k.secretKey == secret.value
  {
    ApiConfig(if access.Some? then access.value else "", if secret.Some? then secret.value else "")
  }

  /** The dict lookup coin_settings.get(coin). */
  function Lookup(entries: seq<CoinEntry>, coin: string): (r: Option<CoinConfig>)
    ensures r.None? <==> forall i :: 0 <= i < |entries| ==> entries[i].coin != coin
    ensures r.Some? ==> exists i :: 0 <= i < |entries| && entries[i] == CoinEntry(coin, r.value)
    decreases |entries|
  {
    if |entries| == 0 then None
    else if entries[0].coin == coin then Some(entries[0].config)
    else
      var r := Lookup(entries[1..], coin);
      assert forall i :: 1 <= i < |entries| ==> entries[i] == entries[1..][i - 1];
      r
  }

  /** get_coin_config: the stored configuration of a known coin, None otherwise. */
  function GetCoinConfig(c: TradingConfig, coin: string): (r: Option<CoinConfig>)
    ensures r.None? <==> forall i :: 0 <= i < |c.coinSettings| ==> c.coinSettings[i].coin != coin
    ensures r.Some? ==> exists i :: 0 <= i < |c.coinSettings| && c.coinSettings[i] == CoinEntry(coin, r.value)
  {
    Lookup(c.coinSettings, coin)
  }

  /** With unique keys, looking up an entry's own coin yields exactly that entry's configuration. */
  lemma GetCoinConfigFindsEntry(c: TradingConfig, i: nat)
    requires UniqueCoins(c.coinSettings)
    requires i < |c.coinSettings|
    ensures GetCoinConfig(c, c.coinSettings[i].coin) == Some(c.coinSettings[i].config)
  {
    var r := GetCoinConfig(c, c.coinSettings[i].coin);
    var j :| 0 <= j < |c.coinSettings| && c.coinSettings[j] == CoinEntry(c.coinSettings[i].coin, r.value);
    assert j == i;
  }

  /** get_ticker_list: one ticker per coin entry, in coin_settings order. */
  function GetTickerList(c: TradingConfig): (tickers: seq<string>)
    ensures |tickers| == |c.coinSettings|
    ensures forall i :: 0 <= i < |tickers| ==> tickers[i] == c.coinSettings[i].config.ticker
  {
    seq(|c.coinSettings|, i requires 0 <= i < |c.coinSettings| => c.coinSettings[i].config.ticker)
  }

  /** is_valid: both API keys non-empty and at least one coin configured. */
  predicate IsValid(c: TradingConfig)
    ensures IsValid(c) ==> |c.apiKeys.accessKey| > 0 && |c.apiKeys.secretKey| > 0 && |c.coinSettings| > 0
  {
    c.apiKeys.accessKey != "" && c.apiKeys.secretKey != "" && |c.coinSettings| > 0
  }

  /** A missing environment variable always makes the configuration invalid. */
  lemma MissingKeyIsInvalid(access: Option<string>, secret: Option<string>, settings: TradeSettings, coins: seq<CoinEntry>)
    requires access.None? || secret.None?
    ensures !IsValid(TradingConfig(LoadApiKeys(access, secret), settings, coins))
  {
  }

  /** With both keys set, validity depends only on whether any coin is
      configured. */
  lemma ValidityNeedsOnlyCoins(c: TradingConfig)
    requires c.apiKeys.accessKey != "" && c.apiKeys.secretKey != ""
    ensures |c.coinSettings| == 0 ==> !IsValid(c)
    ensures |c.coinSettings| > 0 ==> IsValid(c)
  {
  }

  /** is_valid does not look at tier ordering: a configuration whose stop tiers
      are inverted and whose sell fraction is zero is still valid. */
  lemma ValidityIgnoresTiers()
    ensures exists c: TradingConfig :: IsValid(c) && !WellOrdered(c.coinSettings[0].config)
  {
    var bad := CoinConfig("KRW-BTC", 0.00008, 1.5, 0.0, -1.2, -2.0, 0.4);
    var c := TradingConfig(ApiConfig("a", "s"), TradeSettings(20, 60, 5000, 1000, 1000), [CoinEntry("BTC", bad)]);
    assert IsValid(c) && !WellOrdered(c.coinSettings[0].config);
  }
}
