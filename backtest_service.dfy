/**
 * BacktestService.runBacktest: replays a price history through the 10/50-day crossover
 * rule against a private ledger (cash balance, quantity held, list of trades) and reports
 * the final value and the return. The price fetch is an input; the clock is `now`, in seconds.
 */
module BacktestService {
  import opened Wrappers
  import opened Text
  import opened Dtos
  import opened MovingAverage

  /** Fewest prices a backtest needs; the replay starts at this index. */
  const MIN_HISTORY: nat := 50
  /** A buy needs at least this much cash ... */
  const MIN_TRADE_BALANCE: real := 10.0
  /** ... and invests at most this much. */
  const MAX_INVESTMENT: real := 100.0
  const SECONDS_PER_DAY: int := 86400

  /** What fetchHistoricalPrices gave back, or the message of the exception it raised. */
  datatype PriceFetch = Fetched(prices: seq<real>) | FetchFailed(message: string)

  /** The backtest's private ledger. */
  datatype Book = Book(balance: real, holdings: real, trades: seq<TradeResult>)

  /** What selling `quantity` at `price` brings in. */
  function Proceeds(quantity: real, price: real): real {
    quantity * price
  }

  /** How much `amount` buys at `price`. */
  function Shares(amount: real, price: real): real
    requires price > 0.0
  {
    amount / price
  }

  function Min(a: real, b: real): real {
    if a <= b then a else b
  }

  /** The averages the loop compares at index i: both over prices[0..i] inclusive. */
  function ShortAt(prices: seq<real>, i: nat): real
    requires i < |prices|
  {
    CalculateSma(prices[..i + 1], SHORT_TERM_PERIOD)
  }

  function LongAt(prices: seq<real>, i: nat): real
    requires i < |prices|
  {
    CalculateSma(prices[..i + 1], LONG_TERM_PERIOD)
  }

  /**
   * One pass of the loop body at index i. It appends at most one trade and never rewrites an
   * earlier one, and a pass that records no trade leaves the ledger as it was.
   */
  function Step(prices: seq<real>, i: nat, book: Book): (r: Book)
    requires MIN_HISTORY <= i < |prices| && prices[i] > 0.0
    ensures |book.trades| <= |r.trades| <= |book.trades| + 1
    ensures r.trades[..|book.trades|] == book.trades
    ensures |r.trades| == |book.trades| ==> r == book
  {
    var currentPrice := prices[i];
    if ShortAt(prices, i) > LongAt(prices, i) && book.holdings == 0.0 && book.balance >= MIN_TRADE_BALANCE then
      var investAmount := Min(book.balance, MAX_INVESTMENT);
      var holdings := Shares(investAmount, currentPrice);
      Book(book.balance - investAmount, holdings,
           book.trades + [TradeResult(true, TradeAction.Buy, holdings, currentPrice, investAmount, Plain("Backtest buy executed"))])
    else if ShortAt(prices, i) < LongAt(prices, i) && book.holdings > 0.0 then
      var saleValue := Proceeds(book.holdings, currentPrice);
      Book(book.balance + saleValue, 0.0,
           book.trades + [TradeResult(true, TradeAction.Sell, book.holdings, currentPrice, saleValue, Plain("Backtest sell executed"))])
    else
      book
  }

  /**
   * The ledger after the loop has visited indices MIN_HISTORY .. end - 1: at most one trade per
   * day visited.
   */
  function Replay(prices: seq<real>, end: nat, initialBalance: real): (r: Book)
    requires MIN_HISTORY <= end <= |prices| && AllPositive(prices)
    ensures |r.trades| <= end - MIN_HISTORY
    decreases end
  {
    if end == MIN_HISTORY then Book(initialBalance, 0.0, [])
    else Step(prices, end - 1, Replay(prices, end - 1, initialBalance))
  }

  /**
   * What a replay keeps true: trades alternate BUY, SELL, BUY, ... starting with BUY and all
   * succeed; a position is open exactly after a BUY, and it holds what that BUY bought; each
   * BUY invests between 10 and 100 and each SELL closes the whole position at the day's
   * price; cash never goes negative unless it started negative and nothing was traded.
   */
  predicate Consistent(book: Book, initialBalance: real) {
    var trades := book.trades;
    && book.holdings >= 0.0
    && (book.holdings > 0.0 <==> |trades| % 2 == 1)
    && (|trades| % 2 == 1 ==> book.holdings == trades[|trades| - 1].quantity)
    && (trades == [] ==> book.balance == initialBalance && book.holdings == 0.0)
    && (book.balance >= 0.0 || trades == [])
    && (forall k :: 0 <= k < |trades| ==> WellFormedTrade(trades[k], k % 2 == 0))
    && (forall k :: 0 < k < |trades| && k % 2 == 1 ==> trades[k].quantity == trades[k - 1].quantity)
  }

  /** A recorded backtest trade: a BUY investing 10..100, or a SELL of its whole quantity. */
  predicate WellFormedTrade(t: TradeResult, isBuy: bool) {
    && t.success && t.price > 0.0 && t.quantity > 0.0
    && (isBuy ==> t.action == TradeAction.Buy
                  && MIN_TRADE_BALANCE <= t.totalValue <= MAX_INVESTMENT
                  && t.quantity == Shares(t.totalValue, t.price))
    && (!isBuy ==> t.action == TradeAction.Sell && t.totalValue == Proceeds(t.quantity, t.price))
  }

  /** The entry and exit rules: when a step buys, when it sells, and that otherwise it does nothing. */
  lemma StepRule(prices: seq<real>, i: nat, book: Book)
    requires MIN_HISTORY <= i < |prices| && prices[i] > 0.0
    ensures var after := Step(prices, i, book);
            var buys := ShortAt(prices, i) > LongAt(prices, i) && book.holdings == 0.0 && book.balance >= MIN_TRADE_BALANCE;
            var sells := ShortAt(prices, i) < LongAt(prices, i) && book.holdings > 0.0;
            && (buys ==> after.trades == book.trades + [after.trades[|book.trades|]]
                         && after.trades[|book.trades|].action == TradeAction.Buy
                         && after.trades[|book.trades|].totalValue == Min(book.balance, MAX_INVESTMENT)
                         && after.balance == book.balance - Min(book.balance, MAX_INVESTMENT))
            && (sells ==> after.trades == book.trades + [after.trades[|book.trades|]]
                          && after.trades[|book.trades|].action == TradeAction.Sell
                          && after.holdings == 0.0
                          && after.balance == book.balance + Proceeds(book.holdings, prices[i]))
            && (!buys && !sells ==> after == book)
  {
  }

  /** The buying step, written out. */
  lemma BuyStep(prices: seq<real>, i: nat, book: Book)
    requires MIN_HISTORY <= i < |prices| && prices[i] > 0.0
    requires ShortAt(prices, i) > LongAt(prices, i) && book.holdings == 0.0 && book.balance >= MIN_TRADE_BALANCE
    ensures var investAmount := Min(book.balance, MAX_INVESTMENT);
            Step(prices, i, book) ==
              Book(book.balance - investAmount, Shares(investAmount, prices[i]),
                   book.trades + [TradeResult(true, TradeAction.Buy, Shares(investAmount, prices[i]), prices[i], investAmount, Plain("Backtest buy executed"))])
  {
  }

  /** The selling step, written out. */
  lemma SellStep(prices: seq<real>, i: nat, book: Book)
    requires MIN_HISTORY <= i < |prices| && prices[i] > 0.0
    requires ShortAt(prices, i) < LongAt(prices, i) && book.holdings > 0.0
    ensures Step(prices, i, book) ==
              Book(book.balance + Proceeds(book.holdings, prices[i]), 0.0,
                   book.trades + [TradeResult(true, TradeAction.Sell, book.holdings, prices[i], Proceeds(book.holdings, prices[i]), Plain("Backtest sell executed"))])
  {
  }

  /** A step that neither buys nor sells leaves the ledger as it was. */
  lemma IdleStep(prices: seq<real>, i: nat, book: Book)
    requires MIN_HISTORY <= i < |prices| && prices[i] > 0.0
    requires !(ShortAt(prices, i) > LongAt(prices, i) && book.holdings == 0.0 && book.balance >= MIN_TRADE_BALANCE)
    requires !(ShortAt(prices, i) < LongAt(prices, i) && book.holdings > 0.0)
    ensures Step(prices, i, book) == book
  {
  }

  /** One more index of the replay is one more Step. */
  lemma ReplayStep(prices: seq<real>, i: nat, initialBalance: real)
    requires MIN_HISTORY <= i < |prices| && AllPositive(prices)
    ensures Replay(prices, i + 1, initialBalance) == Step(prices, i, Replay(prices, i, initialBalance))
  {
  }

  lemma StepKeepsConsistent(prices: seq<real>, i: nat, book: Book, initialBalance: real)
    requires MIN_HISTORY <= i < |prices| && prices[i] > 0.0
    requires Consistent(book, initialBalance)
    ensures Consistent(Step(prices, i, book), initialBalance)
  {
    var after := Step(prices, i, book);
    var n := |book.trades|;
    if after != book {
      assert |after.trades| == n + 1 && after.trades[..n] == book.trades;
      forall k | 0 <= k < n + 1 ensures WellFormedTrade(after.trades[k], k % 2 == 0) {
        if k < n {
          assert after.trades[k] == book.trades[k];
        }
      }
      forall k | 0 < k < n + 1 && k % 2 == 1 ensures after.trades[k].quantity == after.trades[k - 1].quantity {
        if k < n {
          assert after.trades[k] == book.trades[k];
        }
      }
    }
  }

  /** Every replay, however long, is Consistent. */
  lemma {:induction false} ReplayConsistent(prices: seq<real>, end: nat, initialBalance: real)
    requires MIN_HISTORY <= end <= |prices| && AllPositive(prices)
    ensures Consistent(Replay(prices, end, initialBalance), initialBalance)
    decreases end
  {
    if end > MIN_HISTORY {
      ReplayConsistent(prices, end - 1, initialBalance);
      var before := Replay(prices, end - 1, initialBalance);
      var after := Step(prices, end - 1, before);
      StepKeepsConsistent(prices, end - 1, before, initialBalance);
      assert Consistent(after, initialBalance);
      assert Replay(prices, end, initialBalance) == after;
    }
  }

  /** With less than 10 to start with, no trade ever fires and the ledger stays as it began. */
  lemma {:induction false} NoTradesBelowMinimum(prices: seq<real>, end: nat, initialBalance: real)
    requires MIN_HISTORY <= end <= |prices| && AllPositive(prices)
    requires initialBalance < MIN_TRADE_BALANCE
    ensures Replay(prices, end, initialBalance) == Book(initialBalance, 0.0, [])
    decreases end
  {
    if end > MIN_HISTORY {
      NoTradesBelowMinimum(prices, end - 1, initialBalance);
    }
  }

  /** The short and long averages are equal at every visited index. */
  predicate AveragesLevel(prices: seq<real>, end: nat)
    requires end <= |prices|
  {
    forall i :: MIN_HISTORY <= i < end ==> ShortAt(prices, i) == LongAt(prices, i)
  }

  /** If the two averages never part, no trade fires and the ledger stays as it began. */
  lemma {:induction false} NoTradesWhileLevel(prices: seq<real>, end: nat, initialBalance: real)
    requires MIN_HISTORY <= end <= |prices| && AllPositive(prices)
    requires AveragesLevel(prices, end)
    ensures Replay(prices, end, initialBalance) == Book(initialBalance, 0.0, [])
    decreases end
  {
    if end > MIN_HISTORY {
      NoTradesWhileLevel(prices, end - 1, initialBalance);
      assert ShortAt(prices, end - 1) == LongAt(prices, end - 1);
    }
  }

  /** A flat price history keeps the averages level, so it never trades. */
  lemma FlatPricesNeverTrade(prices: seq<real>, c: real, initialBalance: real)
    requires |prices| >= MIN_HISTORY && c > 0.0
    requires forall k :: 0 <= k < |prices| ==> prices[k] == c
    ensures Replay(prices, |prices|, initialBalance) == Book(initialBalance, 0.0, [])
  {
    forall i | MIN_HISTORY <= i < |prices| ensures ShortAt(prices, i) == LongAt(prices, i) {
      var window := prices[..i + 1];
      SmaOfFlatWindow(window, SHORT_TERM_PERIOD, c);
      SmaOfFlatWindow(window, LONG_TERM_PERIOD, c);
    }
    NoTradesWhileLevel(prices, |prices|, initialBalance);
  }

  /** What the ledger is worth at the last price: cash plus the position marked to market. */
  function FinalValue(book: Book, lastPrice: real): real {
    book.balance + Proceeds(book.holdings, lastPrice)
  }

  /** The result of a backtest that could not run. */
  function Failed(coinId: string, initialBalance: real, summary: Message): BacktestResult {
    BacktestResult(false, coinId, None, None, initialBalance, initialBalance, 0.0, Some(0.0), 0, 0, [], summary)
  }

  /** totalReturn / initialBalance * 100, undefined (Java's NaN) when the start balance is 0. */
  function ReturnPercentage(totalReturn: real, initialBalance: real): Option<real> {
    if initialBalance == 0.0 then None else Some(totalReturn / initialBalance * 100.0)
  }

  /** "Backtest completed: %.2f%% return, %d trades executed" */
  function CompletedSummary(percentage: Option<real>, tradeCount: nat): Message {
    [Lit("Backtest completed: "),
     if percentage.Some? then Fixed(percentage.value, 2) else NaN,
     Lit("% return, " + IntToString(tradeCount) + " trades executed")]
  }

  /**
   * The summary of a completed backtest prints its return with two decimals, or "NaN" for a
   * start balance of 0, and then the number of trades.
   */
  lemma CompletedSummaryText(percentage: Option<real>, tradeCount: nat)
    ensures var r := Render(CompletedSummary(percentage, tradeCount));
            && StartsWith(r, "Backtest completed: ")
            && (percentage.None? ==> Contains(r, "NaN"))
            && (percentage.Some? ==>
                  r == "Backtest completed: " + FormatFixed(percentage.value, 2)
                       + ("% return, " + IntToString(tradeCount) + " trades executed"))
  {
    var value := if percentage.Some? then Fixed(percentage.value, 2) else NaN;
    var after := "% return, " + IntToString(tradeCount) + " trades executed";
    RenderBetween("Backtest completed: ", value, after);
    if percentage.None? {
      ContainsMiddle("Backtest completed: ", "NaN", after);
    }
  }

  /**
   * runBacktest as a function of its inputs (so two runs on the same inputs agree): it fails
   * when the fetch raised or gave fewer than 50 prices, and otherwise reports the replay's
   * trades, the final value balance + holdings * last price, and the return on it.
   */
  function BacktestOutcome(coinId: string, days: int, initialBalance: real, fetched: PriceFetch, now: int): (r: BacktestResult)
    requires fetched.Fetched? ==> AllPositive(fetched.prices)
    ensures fetched.FetchFailed? ==> r == Failed(coinId, initialBalance, Plain("Backtest failed: " + fetched.message))
    ensures fetched.Fetched? && |fetched.prices| < MIN_HISTORY ==>
              r == Failed(coinId, initialBalance, Plain("Insufficient historical data for backtesting"))
    ensures r.success <==> fetched.Fetched? && |fetched.prices| >= MIN_HISTORY
    ensures r.coinId == coinId && r.initialBalance == initialBalance
    ensures !r.success ==> r.finalBalance == initialBalance && r.trades == [] && r.totalTrades == 0
    ensures fetched.Fetched? && |fetched.prices| >= MIN_HISTORY ==>
              var prices := fetched.prices;
              var book := Replay(prices, |prices|, initialBalance);
              && r.trades == book.trades
              && r.finalBalance == FinalValue(book, prices[|prices| - 1])
    ensures r.totalReturn == r.finalBalance - initialBalance
    ensures r.success ==> r.totalReturnPercentage == ReturnPercentage(r.totalReturn, initialBalance)
    ensures r.totalTrades == r.successfulTrades == |r.trades|
  {
    match fetched
    case FetchFailed(message) => Failed(coinId, initialBalance, Plain("Backtest failed: " + message))
    case Fetched(prices) =>
      if |prices| < MIN_HISTORY then Failed(coinId, initialBalance, Plain("Insufficient historical data for backtesting"))
      else
        var book := Replay(prices, |prices|, initialBalance);
        var finalValue := FinalValue(book, prices[|prices| - 1]);
        var totalReturn := finalValue - initialBalance;
        var percentage := ReturnPercentage(totalReturn, initialBalance);
        BacktestResult(true, coinId, Some(now - days * SECONDS_PER_DAY), Some(now), initialBalance, finalValue,
                       totalReturn, percentage, |book.trades|, |book.trades|, book.trades,
                       CompletedSummary(percentage, |book.trades|))
  }

  /**
   * What a backtest reports about its trades: they alternate BUY, SELL, BUY, ... starting
   * with a BUY, every one is successful, each BUY invests 10 to 100 and each SELL closes the
   * position at the day's price. Once anything was traded the final value is not negative;
   * with no trades it is the start balance. A start balance below 10 never trades, so its
   * return is 0 (with a start balance of 0 the percentage is 0/0, Java's NaN, never an
   * infinity).
   */
  lemma BacktestTradeRules(coinId: string, days: int, initialBalance: real, fetched: PriceFetch, now: int)
    requires fetched.Fetched? ==> AllPositive(fetched.prices)
    ensures var r := BacktestOutcome(coinId, days, initialBalance, fetched, now);
            && (forall k :: 0 <= k < |r.trades| ==> WellFormedTrade(r.trades[k], k % 2 == 0))
            && (r.trades == [] ==> r.finalBalance == initialBalance)
            && (r.trades != [] ==> r.finalBalance >= 0.0)
            && (initialBalance < MIN_TRADE_BALANCE ==> r.trades == [] && r.totalReturn == 0.0)
  {
    if fetched.Fetched? && |fetched.prices| >= MIN_HISTORY {
      var prices := fetched.prices;
      FinalBookRules(prices, initialBalance);
      var book := Replay(prices, |prices|, initialBalance);
      var r := BacktestOutcome(coinId, days, initialBalance, fetched, now);
      assert r.trades == book.trades && r.finalBalance == FinalValue(book, prices[|prices| - 1]);
    }
  }

  /** BacktestTradeRules for the ledger a full replay ends with, valued at the last price. */
  lemma FinalBookRules(prices: seq<real>, initialBalance: real)
    requires AllPositive(prices) && MIN_HISTORY <= |prices|
    ensures var book := Replay(prices, |prices|, initialBalance);
            var value := FinalValue(book, prices[|prices| - 1]);
            && (forall k :: 0 <= k < |book.trades| ==> WellFormedTrade(book.trades[k], k % 2 == 0))
            && (book.trades == [] ==> value == initialBalance)
            && (book.trades != [] ==> value >= 0.0)
            && (initialBalance < MIN_TRADE_BALANCE ==> book.trades == [])
  {
    ReplayConsistent(prices, |prices|, initialBalance);
    var book := Replay(prices, |prices|, initialBalance);
    assert Proceeds(book.holdings, prices[|prices| - 1]) >= 0.0;
    if book.trades == [] {
      assert Proceeds(book.holdings, prices[|prices| - 1]) == 0.0;
    }
    if initialBalance < MIN_TRADE_BALANCE {
      NoTradesBelowMinimum(prices, |prices|, initialBalance);
    }
  }


  /** runBacktest's loop over days 50 .. |prices| - 1, starting from the given balance and no holdings. */
  method ReplayAll(historicalPrices: seq<real>, initialBalance: real)
    returns (balance: real, holdings: real, trades: seq<TradeResult>)
    requires AllPositive(historicalPrices) && MIN_HISTORY <= |historicalPrices|
    ensures Book(balance, holdings, trades) == Replay(historicalPrices, |historicalPrices|, initialBalance)
  {
    balance := initialBalance;
    holdings := 0.0;
    trades := [];
    var i := MIN_HISTORY;
    while i < |historicalPrices|
      invariant MIN_HISTORY <= i <= |historicalPrices|
      invariant Book(balance, holdings, trades) == Replay(historicalPrices, i, initialBalance)
    {
      var priceWindow := historicalPrices[..i + 1];
      var shortSma := CalculateSma(priceWindow, SHORT_TERM_PERIOD);
      var longSma := CalculateSma(priceWindow, LONG_TERM_PERIOD);
      var currentPrice := historicalPrices[i];
      assert shortSma == ShortAt(historicalPrices, i) && longSma == LongAt(historicalPrices, i);
      ghost var before := Book(balance, holdings, trades);

      if shortSma > longSma && holdings == 0.0 && balance >= MIN_TRADE_BALANCE {
        var investAmount := Min(balance, MAX_INVESTMENT);
        holdings := Shares(investAmount, currentPrice);
        balance := balance - investAmount;
        trades := trades + [TradeResult(true, TradeAction.Buy, holdings, currentPrice, investAmount, Plain("Backtest buy executed"))];
        BuyStep(historicalPrices, i, before);
      } else if shortSma < longSma && holdings > 0.0 {
        var saleValue := Proceeds(holdings, currentPrice);
        balance := balance + saleValue;
        trades := trades + [TradeResult(true, TradeAction.Sell, holdings, currentPrice, saleValue, Plain("Backtest sell executed"))];
        holdings := 0.0;
        SellStep(historicalPrices, i, before);
      } else {
        IdleStep(historicalPrices, i, before);
      }
      ReplayStep(historicalPrices, i, initialBalance);
      i := i + 1;
    }
  }

  /** runBacktest: the fetch checks, the replay loop and the final report, proved to compute BacktestOutcome. */
  method RunBacktest(coinId: string, days: int, initialBalance: real, fetched: PriceFetch, now: int)
    returns (r: BacktestResult)
    requires fetched.Fetched? ==> AllPositive(fetched.prices)
    ensures r == BacktestOutcome(coinId, days, initialBalance, fetched, now)
  {
    if fetched.FetchFailed? {
      return Failed(coinId, initialBalance, Plain("Backtest failed: " + fetched.message));
    }
    var historicalPrices := fetched.prices;
    if |historicalPrices| < MIN_HISTORY {
      return Failed(coinId, initialBalance, Plain("Insufficient historical data for backtesting"));
    }

    var balance, holdings, trades := ReplayAll(historicalPrices, initialBalance);

    assert fetched == Fetched(historicalPrices);
    var finalPrice := historicalPrices[|historicalPrices| - 1];
    var finalValue := FinalValue(Book(balance, holdings, trades), finalPrice);
    var totalReturn := finalValue - initialBalance;
    var returnPercentage := ReturnPercentage(totalReturn, initialBalance);
    r := BacktestResult(true, coinId, Some(now - days * SECONDS_PER_DAY), Some(now), initialBalance, finalValue,
                        totalReturn, returnPercentage, |trades|, |trades|, trades,
                        CompletedSummary(returnPercentage, |trades|));
  }
}
