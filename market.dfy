/** The trading-window predicate of src/trading/market.py (written identically
    in src/trading/bot.py and trading_bot.py): the first five minutes of each
    240-minute candle. The clock is a parameter. */
module Market {

  /** Membership in trade_hours = [0, 4, 8, 12, 16, 20]. */
  predicate IsTradeHour(hour: int)
  {
    hour == 0 || hour == 4 || hour == 8 || hour == 12 || hour == 16 || hour == 20
  }

  /** is_trade_time for the current hour and minute. */
  predicate IsTradeTime(hour: int, minute: int)
    ensures IsTradeTime(hour, minute) ==> 0 <= hour <= 20 && hour % 4 == 0 && minute < 5
  {
    IsTradeHour(hour) && minute < 5
  }

  /** Minute five or later is never inside the window. */
  lemma LateMinuteNeverTrades(hour: int, minute: int)
    requires minute >= 5
    ensures !IsTradeTime(hour, minute)
  {
  }

  /** On a 24-hour clock the hour list is "every fourth hour". */
  lemma TradeTimeEveryFourHours(hour: int, minute: int)
    requires 0 <= hour < 24
    ensures IsTradeTime(hour, minute) <==> hour % 4 == 0 && minute < 5
  {
  }

  /** Minutes m..59 of the given hour that are inside the window. */
  function WindowMinutesFrom(hour: int, minute: nat): nat
    decreases 60 - minute
  {
    if minute >= 60 then 0
    else (if IsTradeTime(hour, minute) then 1 else 0) + WindowMinutesFrom(hour, minute + 1)
  }

  /** Window minutes in hours h..23. */
  function WindowMinutesFromHour(hour: nat): nat
    decreases 24 - hour
  {
    if hour >= 24 then 0
    else WindowMinutesFrom(hour, 0) + WindowMinutesFromHour(hour + 1)
  }

  lemma {:induction false} WindowMinutesInHour(hour: int, minute: nat)
    requires minute <= 60
    ensures WindowMinutesFrom(hour, minute) == if IsTradeHour(hour) && minute < 5 then 5 - minute else 0
    decreases 60 - minute
  {
    if minute < 60 {
      WindowMinutesInHour(hour, minute + 1);
    }
  }

  /** Trade hours among hours h..23. */
  function TradeHoursFrom(hour: nat): nat
    decreases 24 - hour
  {
    if hour >= 24 then 0
    else (if IsTradeHour(hour) then 1 else 0) + TradeHoursFrom(hour + 1)
  }

  /** Each trade hour contributes its five opening minutes, every other hour none. */
  lemma {:induction false} WindowMinutesInHours(hour: nat)
    ensures WindowMinutesFromHour(hour) == 5 * TradeHoursFrom(hour)
    decreases 24 - hour
  {
    if hour < 24 {
      WindowMinutesInHour(hour, 0);
      WindowMinutesInHours(hour + 1);
    }
  }

  /** Each block of four hours starting at 4k holds exactly one trade hour. */
  lemma {:induction false} TradeHoursFromBlock(k: nat)
    requires k <= 6
    ensures TradeHoursFrom(4 * k) == 6 - k
    decreases 6 - k
  {
    if k < 6 {
      TradeHoursFromBlock(k + 1);
      assert TradeHoursFrom(4 * k + 3) == TradeHoursFrom(4 * k + 4);
      assert TradeHoursFrom(4 * k + 2) == TradeHoursFrom(4 * k + 3);
      assert TradeHoursFrom(4 * k + 1) == TradeHoursFrom(4 * k + 2);
      assert IsTradeHour(4 * k);
    }
  }

  /** Of the 1440 (hour, minute) pairs of a day, exactly 30 are trade time. */
  lemma TradeMinutesPerDay()
    ensures WindowMinutesFromHour(0) == 30
  {
    WindowMinutesInHours(0);
    TradeHoursFromBlock(0);
  }
}
