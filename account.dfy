/** src/trading/account.py: reading the exchange's balances list, the
    investment clamp, and the total the portfolio log reports. The list and
    the prices arrive as parameters; None stands for the exchange call raising. */
module Account {
  import opened Types
  import opened Config

  /** One field of a balances entry as the client returns it: a decimal
      string, a null, or something float() cannot parse. */
  datatype Amount = Missing | Number(value: real) | Unparsable

  datatype BalanceEntry = BalanceEntry(currency: string, balance: Amount, avgBuyPrice: Amount)

  /** TOTAL_ASSETS, MIN_INVEST_RATIO, MAX_INVEST_RATIO. */
  const TotalAssets: real := 4000000.0
  const MinInvestRatio: real := 0.015
  const MaxInvestRatio: real := 0.05
  const MinInvestment: real := TotalAssets * MinInvestRatio
  const MaxInvestment: real := TotalAssets * MaxInvestRatio

  /** The market prefix get_average_buy_price strips from a ticker. */
  const QuotePrefix: string := "KRW-"

  /** float(field) on a field that was reached: a null or unparsable field
      raises, and the method's handler then answers 0. */
  function FloatOrZero(a: Amount): (r: real)
    ensures a.Number? ==> r == a.value
    ensures !a.Number? ==> r == 0.0
  {
    if a.Number? then a.value else 0.0
  }

  // ----- get_balance -----

  /** The entry get_balance stops at: right currency and a non-null balance. */
  predicate Holds(e: BalanceEntry, currency: string)
  {
    e.currency == currency && !e.balance.Missing?
  }

  function BalanceIn(entries: seq<BalanceEntry>, currency: string): real
    decreases |entries|
  {
    if |entries| == 0 then 0.0
    else if Holds(entries[0], currency) then FloatOrZero(entries[0].balance)
    else BalanceIn(entries[1..], currency)
  }

  /** What get_balance answers for a balances fetch (None: the fetch raised). */
  function BalanceOf(balances: Option<seq<BalanceEntry>>, currency: string): (r: real)
    ensures balances.None? ==> r == 0.0
  {
    if balances.None? then 0.0 else BalanceIn(balances.value, currency)
  }

  /** The first entry with the currency and a non-null balance decides; entries
      of the currency with a null balance before it are skipped. */
  lemma {:induction false} BalanceInFirstHolding(entries: seq<BalanceEntry>, currency: string, i: nat)
    requires i < |entries| && Holds(entries[i], currency)
    requires forall j :: 0 <= j < i ==> !Holds(entries[j], currency)
    ensures BalanceIn(entries, currency) == FloatOrZero(entries[i].balance)
  {
    if i > 0 {
      assert !Holds(entries[0], currency);
      BalanceInFirstHolding(entries[1..], currency, i - 1);
    }
  }

  /** A non-zero answer is the parsed balance of an entry of the currency
      with a non-null balance. */
  lemma {:induction false} BalanceInFound(entries: seq<BalanceEntry>, currency: string)
    ensures BalanceIn(entries, currency) != 0.0 ==>
      exists i :: 0 <= i < |entries| && Holds(entries[i], currency) && entries[i].balance == Number(BalanceIn(entries, currency))
    decreases |entries|
  {
    if |entries| > 0 && !Holds(entries[0], currency) && BalanceIn(entries, currency) != 0.0 {
      var tail := entries[1..];
      BalanceInFound(tail, currency);
      var i :| 0 <= i < |tail| && Holds(tail[i], currency) && tail[i].balance == Number(BalanceIn(tail, currency));
      assert entries[i + 1] == tail[i];
    }
  }

  /** No entry of the currency with a non-null balance: the answer is 0. */
  lemma {:induction false} BalanceInNoHolding(entries: seq<BalanceEntry>, currency: string)
    requires forall j :: 0 <= j < |entries| ==> !Holds(entries[j], currency)
    ensures BalanceIn(entries, currency) == 0.0
  {
    if |entries| > 0 {
      assert !Holds(entries[0], currency);
      BalanceInNoHolding(entries[1..], currency);
    }
  }

  /** get_balance: the early-return scan of the balances list. */
  method GetBalance(balances: Option<seq<BalanceEntry>>, currency: string) returns (r: real)
    ensures r == BalanceOf(balances, currency)
  {
    if balances.None? {
      return 0.0;
    }
    var entries := balances.value;
    var i := 0;
    while i < |entries|
      invariant 0 <= i <= |entries|
      invariant BalanceIn(entries[i..], currency) == BalanceIn(entries, currency)
    {
      assert entries[i..][1..] == entries[i + 1..];
      var b := entries[i];
      if b.currency == currency {
        if !b.balance.Missing? {
          return FloatOrZero(b.balance);
        }
      }
      i := i + 1;
    }
    return 0.0;
  }

  // ----- get_average_buy_price -----

  /** s.replace(pattern, ""): every non-overlapping occurrence removed, left to right. */
  function RemoveAll(s: string, pattern: string): (r: string)
    requires |pattern| > 0
    ensures |r| <= |s|
    decreases |s|
  {
    if |s| < |pattern| then s
    else if s[..|pattern|] == pattern then RemoveAll(s[|pattern|..], pattern)
    else [s[0]] + RemoveAll(s[1..], pattern)
  }

  predicate OccursAt(pattern: string, s: string, k: int)
  {
    0 <= k && k + |pattern| <= |s| && s[k..k + |pattern|] == pattern
  }

  ghost predicate OccursIn(pattern: string, s: string)
  {
    exists k :: OccursAt(pattern, s, k)
  }

  lemma {:induction false} RemoveAllAbsent(s: string, pattern: string)
    requires |pattern| > 0 && !OccursIn(pattern, s)
    ensures RemoveAll(s, pattern) == s
    decreases |s|
  {
    if |s| >= |pattern| {
      assert !OccursAt(pattern, s, 0);
      assert s[0..|pattern|] == s[..|pattern|];
      forall k ensures !OccursAt(pattern, s[1..], k) {
        if 0 <= k && k + |pattern| <= |s| - 1 {
          assert s[1..][k..k + |pattern|] == s[k + 1..k + 1 + |pattern|];
          assert !OccursAt(pattern, s, k + 1);
        }
      }
      RemoveAllAbsent(s[1..], pattern);
      assert s == [s[0]] + s[1..];
    }
  }

  /** A ticker "KRW-" + code, with no "KRW-" inside code, maps to code. */
  lemma StripQuotePrefix(code: string)
    requires !OccursIn(QuotePrefix, code)
    ensures RemoveAll(QuotePrefix + code, QuotePrefix) == code
  {
    var t := QuotePrefix + code;
    assert t[..|QuotePrefix|] == QuotePrefix;
    assert t[|QuotePrefix|..] == code;
    RemoveAllAbsent(code, QuotePrefix);
  }

  function AvgBuyPriceIn(entries: seq<BalanceEntry>, currency: string): real
    decreases |entries|
  {
    if |entries| == 0 then 0.0
    else if entries[0].currency == currency then FloatOrZero(entries[0].avgBuyPrice)
    else AvgBuyPriceIn(entries[1..], currency)
  }

  /** What get_average_buy_price answers for a ticker (None: the fetch raised). */
  function AvgBuyPriceOf(balances: Option<seq<BalanceEntry>>, ticker: string): (r: real)
    ensures balances.None? ==> r == 0.0
  {
    if balances.None? then 0.0 else AvgBuyPriceIn(balances.value, RemoveAll(ticker, QuotePrefix))
  }

  /** A non-zero answer is the parsed average price of an entry of the currency. */
  lemma {:induction false} AvgBuyPriceInFound(entries: seq<BalanceEntry>, currency: string)
    ensures AvgBuyPriceIn(entries, currency) != 0.0 ==>
      exists i :: 0 <= i < |entries| && entries[i].currency == currency
                  && entries[i].avgBuyPrice == Number(AvgBuyPriceIn(entries, currency))
    decreases |entries|
  {
    if |entries| > 0 && entries[0].currency != currency && AvgBuyPriceIn(entries, currency) != 0.0 {
      var tail := entries[1..];
      AvgBuyPriceInFound(tail, currency);
      var i :| 0 <= i < |tail| && tail[i].currency == currency && tail[i].avgBuyPrice == Number(AvgBuyPriceIn(tail, currency));
      assert entries[i + 1] == tail[i];
    }
  }

  /** The first entry of the currency decides, whatever its avg_buy_price holds:
      a null there raises and answers 0 instead of moving on to a later entry. */
  lemma {:induction false} AvgBuyPriceInFirstMatch(entries: seq<BalanceEntry>, currency: string, i: nat)
    requires i < |entries| && entries[i].currency == currency
    requires forall j :: 0 <= j < i ==> entries[j].currency != currency
    ensures AvgBuyPriceIn(entries, currency) == FloatOrZero(entries[i].avgBuyPrice)
  {
    if i > 0 {
      assert entries[0].currency != currency;
      AvgBuyPriceInFirstMatch(entries[1..], currency, i - 1);
    }
  }

  lemma {:induction false} AvgBuyPriceInNoMatch(entries: seq<BalanceEntry>, currency: string)
    requires forall j :: 0 <= j < |entries| ==> entries[j].currency != currency
    ensures AvgBuyPriceIn(entries, currency) == 0.0
  {
    if |entries| > 0 {
      assert entries[0].currency != currency;
      AvgBuyPriceInNoMatch(entries[1..], currency);
    }
  }

  /** get_average_buy_price: strip the market prefix, then the early-return scan. */
  method GetAverageBuyPrice(balances: Option<seq<BalanceEntry>>, ticker: string) returns (r: real)
    ensures r == AvgBuyPriceOf(balances, ticker)
  {
    if balances.None? {
      return 0.0;
    }
    var entries := balances.value;
    var currency := RemoveAll(ticker, QuotePrefix);
    var i := 0;
    while i < |entries|
      invariant 0 <= i <= |entries|
      invariant AvgBuyPriceIn(entries[i..], currency) == AvgBuyPriceIn(entries, currency)
    {
      assert entries[i..][1..] == entries[i + 1..];
      if entries[i].currency == currency {
        return FloatOrZero(entries[i].avgBuyPrice);
      }
      i := i + 1;
    }
    return 0.0;
  }

  // ----- calculate_invest_amount -----

  /** calculate_invest_amount: the balance clamped to [60,000, 200,000] KRW. */
  function CalculateInvestAmount(krw: real): (r: real)
    ensures MinInvestment == 60000.0 && MaxInvestment == 200000.0
    ensures 60000.0 <= r <= 200000.0
    ensures 60000.0 <= krw <= 200000.0 ==> r == krw
    ensures krw < 60000.0 ==> r == 60000.0
    ensures krw > 200000.0 ==> r == 200000.0
  {
    Min(Max(krw, MinInvestment), MaxInvestment)
  }

  lemma InvestAmountMonotone(a: real, b: real)
    requires a <= b
    ensures CalculateInvestAmount(a) <= CalculateInvestAmount(b)
  {
  }

  // ----- the total in log_portfolio_status -----

  /** What one configured coin adds to the logged total, given the price
      fetched for it: a held coin (balance > 0) with a truthy price adds
      balance * price. None: the profit-rate division by a zero average buy
      price raised, which abandons the whole log. */
  function CoinValue(balances: Option<seq<BalanceEntry>>, e: CoinEntry, price: Option<real>): Option<real>
  {
    var balance := BalanceOf(balances, e.coin);
    if balance > 0.0 && price.Some? && price.value != 0.0 then
      if AvgBuyPriceOf(balances, e.config.ticker) == 0.0 then None
      else Some(balance * price.value)
    else Some(0.0)
  }

  /** The coin part of the total over the first |coins| coins, None once one raised. */
  function HoldingsValue(balances: Option<seq<BalanceEntry>>, coins: seq<CoinEntry>, prices: seq<Option<real>>): Option<real>
    requires |prices| == |coins|
    decreases |coins|
  {
    if |coins| == 0 then Some(0.0)
    else
      var n := |coins| - 1;
      match HoldingsValue(balances, coins[..n], prices[..n])
      case None => None
      case Some(s) =>
        match CoinValue(balances, coins[n], prices[n])
        case None => None
        case Some(v) => Some(s + v)
  }

  /** The total log_portfolio_status reports, or None when it fails. */
  function PortfolioValue(balances: Option<seq<BalanceEntry>>, coins: seq<CoinEntry>, prices: seq<Option<real>>): Option<real>
    requires |prices| == |coins|
  {
    match HoldingsValue(balances, coins, prices)
    case None => None
    case Some(s) => Some(BalanceOf(balances, "KRW") + s)
  }

  /** A coin whose profit-rate line would divide by zero. */
  predicate ZeroCostHolding(balances: Option<seq<BalanceEntry>>, e: CoinEntry, price: Option<real>)
  {
    BalanceOf(balances, e.coin) > 0.0 && price.Some? && price.value != 0.0
    && AvgBuyPriceOf(balances, e.config.ticker) == 0.0
  }

  // One coin fails exactly when it is a zero-cost holding.
  lemma CoinValueFailsIff(balances: Option<seq<BalanceEntry>>, e: CoinEntry, price: Option<real>)
    ensures CoinValue(balances, e, price).None? <==> ZeroCostHolding(balances, e, price)
  {
  }

  /** The log fails exactly when some held, priced coin has no recorded cost. */
  lemma {:induction false} PortfolioFailsOnlyOnZeroCost(balances: Option<seq<BalanceEntry>>, coins: seq<CoinEntry>, prices: seq<Option<real>>)
    requires |prices| == |coins|
    ensures HoldingsValue(balances, coins, prices).None?
        <==> exists i :: 0 <= i < |coins| && ZeroCostHolding(balances, coins[i], prices[i])
    decreases |coins|
  {
    if |coins| > 0 {
      var n := |coins| - 1;
      var front, frontPrices := coins[..n], prices[..n];
      PortfolioFailsOnlyOnZeroCost(balances, front, frontPrices);
      CoinValueFailsIff(balances, coins[n], prices[n]);
      assert HoldingsValue(balances, coins, prices).None?
        <==> HoldingsValue(balances, front, frontPrices).None? || CoinValue(balances, coins[n], prices[n]).None?;
      if HoldingsValue(balances, front, frontPrices).None? {
        var i :| 0 <= i < n && ZeroCostHolding(balances, front[i], frontPrices[i]);
        assert ZeroCostHolding(balances, coins[i], prices[i]);
      } else if CoinValue(balances, coins[n], prices[n]).None? {
        assert ZeroCostHolding(balances, coins[n], prices[n]);
      } else {
        forall i | 0 <= i < |coins|
          ensures !ZeroCostHolding(balances, coins[i], prices[i])
        {
          if i < n {
            assert front[i] == coins[i] && frontPrices[i] == prices[i];
          }
        }
      }
    }
  }

  // One coin's part of the total is never negative at a non-negative price.
  lemma CoinValueNonNegative(balances: Option<seq<BalanceEntry>>, e: CoinEntry, price: Option<real>)
    requires price.Some? ==> price.value >= 0.0
    ensures CoinValue(balances, e, price).Some? ==> CoinValue(balances, e, price).value >= 0.0
  {
  }

  /** With non-negative prices the coin part of the total is never negative. */
  lemma {:induction false} HoldingsValueNonNegative(balances: Option<seq<BalanceEntry>>, coins: seq<CoinEntry>, prices: seq<Option<real>>)
    requires |prices| == |coins|
    requires forall i :: 0 <= i < |prices| && prices[i].Some? ==> prices[i].value >= 0.0
    ensures HoldingsValue(balances, coins, prices).Some? ==> HoldingsValue(balances, coins, prices).value >= 0.0
    decreases |coins|
  {
    if |coins| > 0 {
      var n := |coins| - 1;
      assert forall i :: 0 <= i < n ==> prices[..n][i] == prices[i];
      HoldingsValueNonNegative(balances, coins[..n], prices[..n]);
      CoinValueNonNegative(balances, coins[n], prices[n]);
    }
  }

  /** One more coin extends the prefix's total by that coin's value. */
  lemma HoldingsValueSnoc(balances: Option<seq<BalanceEntry>>, coins: seq<CoinEntry>, prices: seq<Option<real>>, i: nat)
    requires |prices| == |coins| && i < |coins|
    ensures var prefix := HoldingsValue(balances, coins[..i], prices[..i]);
      var v := CoinValue(balances, coins[i], prices[i]);
      HoldingsValue(balances, coins[..i + 1], prices[..i + 1])
        == if prefix.None? || v.None? then None else Some(prefix.value + v.value)
  {
    assert coins[..i + 1][..i] == coins[..i] && prices[..i + 1][..i] == prices[..i];
  }

  /** A failed prefix fails the whole total. */
  lemma {:induction false} HoldingsValueStaysFailed(balances: Option<seq<BalanceEntry>>, coins: seq<CoinEntry>,
                                                    prices: seq<Option<real>>, i: nat)
    requires |prices| == |coins| && i <= |coins|
    requires HoldingsValue(balances, coins[..i], prices[..i]).None?
    ensures HoldingsValue(balances, coins, prices).None?
    decreases |coins| - i
  {
    if i == |coins| {
      assert coins[..i] == coins && prices[..i] == prices;
    } else {
      HoldingsValueSnoc(balances, coins, prices, i);
      HoldingsValueStaysFailed(balances, coins, prices, i + 1);
    }
  }

  /** log_portfolio_status's running total: the KRW balance, then each
      configured coin's contribution, in coin_settings order. */
  method PortfolioTotal(balances: Option<seq<BalanceEntry>>, coins: seq<CoinEntry>, prices: seq<Option<real>>)
    returns (total: Option<real>)
    requires |prices| == |coins|
    ensures total == PortfolioValue(balances, coins, prices)
  {
    var krw := GetBalance(balances, "KRW");
    var value := krw;
    var i := 0;
    while i < |coins|
      invariant 0 <= i <= |coins|
      invariant HoldingsValue(balances, coins[..i], prices[..i]) == Some(value - krw)
    {
      HoldingsValueSnoc(balances, coins, prices, i);
      var balance := GetBalance(balances, coins[i].coin);
      var avgPrice := GetAverageBuyPrice(balances, coins[i].config.ticker);
      if balance > 0.0 {
        var price := prices[i];
        if price.Some? && price.value != 0.0 {
          var coinValue := balance * price.value;
          if avgPrice == 0.0 {
            HoldingsValueStaysFailed(balances, coins, prices, i + 1);
            return None;
          }
          assert CoinValue(balances, coins[i], price).Some?;
          assert CoinValue(balances, coins[i], price).value == coinValue;
          value := value + coinValue;
        }
      }
      i := i + 1;
    }
    assert coins[..|coins|] == coins && prices[..|prices|] == prices;
    total := Some(value);
  }
}
