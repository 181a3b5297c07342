/**
 * TradingBotService: the orchestrator. For each coin it fetches 50 days of prices, compares
 * the 10- and 50-day averages, and on a BUY or SELL signal trades through the executor
 * (TRADING mode), attaches a simulated result (TRAINING mode) or a "held" result. A run is
 * gated on the bot being ACTIVE and counts signals and successful trades. Historical
 * training runs one backtest per coin.
 *
 * Inputs per coin: the price list fetchHistoricalPrices returned for it and the executor's
 * failure, if any; `now` is the clock.
 */
module TradingBotService {
  import opened Wrappers
  import opened Text
  import opened Dtos
  import opened MovingAverage
  import opened BotStateService
  import opened TradeExecutorService
  import opened BacktestService
  import opened CryptoDataService

  /** Java's TradingMode enum. */
  datatype TradingMode = Trading | Training {
    function Name(): string {
      match this
      case Trading => "TRADING"
      case Training => "TRAINING"
    }
  }

  /** The account every live trade is booked to. */
  const ACCOUNT_ID: int := 1
  /** What a live or simulated BUY invests. */
  const TRADE_AMOUNT: real := 10.0
  /** The starting balance of each historical-training backtest. */
  const TRAINING_BALANCE: real := 1000.0
  const ON_HOLD_MESSAGE: string := "Trade signal generated but bot is on hold"

  /**
   * What the outside world supplies for one coin of a run: its id, the price list
   * fetchHistoricalPrices returned for it, and the failure the executor hits, if any.
   */
  datatype CoinInput = CoinInput(coinId: string, history: seq<real>, failure: Option<string>)

  /** Every fetched history is positive (the code divides by the last price). */
  predicate PositiveHistories(histories: seq<seq<real>>) {
    forall k :: 0 <= k < |histories| ==> AllPositive(histories[k])
  }

  predicate PositiveInputs(coins: seq<CoinInput>) {
    forall k :: 0 <= k < |coins| ==> AllPositive(coins[k].history)
  }

  // ---------------------------------------------------------------------------
  // analyzeCoin
  // ---------------------------------------------------------------------------

  function NotEnoughData(got: nat): Message {
    Plain("Not enough historical data (need " + IntToString(LONG_TERM_PERIOD) + " days, got " + IntToString(got) + ")")
  }

  function CompletedStatus(mode: TradingMode): Message {
    Plain("Analysis completed - " + mode.Name() + " mode")
  }

  function NoSignalStatus(mode: TradingMode): Message {
    Plain("No trading signal generated - " + mode.Name() + " mode")
  }

  /** The result attached in TRAINING mode: a successful trade that touches no ledger. */
  function SimulatedResult(signal: TradingSignal, currentPrice: real): TradeResult
    requires signal == TradingSignal.Buy || signal == TradingSignal.Sell
    requires currentPrice > 0.0
  {
    if signal == TradingSignal.Buy then
      TradeResult(true, TradeAction.Buy, TRADE_AMOUNT / currentPrice, currentPrice, TRADE_AMOUNT,
                  Plain("Simulated buy trade (training mode)"))
    else
      TradeResult(true, TradeAction.Sell, 1.0, currentPrice, currentPrice, Plain("Simulated sell trade (training mode)"))
  }

  /** The result attached when a live run is not allowed to trade. */
  function HeldResult(action: TradeAction, currentPrice: real): TradeResult {
    TradeResult(false, action, 0.0, currentPrice, 0.0, Plain(ON_HOLD_MESSAGE))
  }

  predicate IsHeldResult(t: TradeResult) {
    t.message == Plain(ON_HOLD_MESSAGE)
  }

  /**
   * analyzeCoin as a function of the account before it and of whether the bot is active:
   * the analysis it returns and the account after any live trade.
   */
  function AnalyzeOutcome(a: Account, active: bool, coinId: string, mode: TradingMode, prices: seq<real>,
                          now: int, failure: Option<string>): (out: (Account, CoinAnalysis))
    requires AllPositive(prices)
    ensures out.1.coinId == coinId
  {
    if |prices| < LONG_TERM_PERIOD then
      (a, CoinAnalysis(coinId, 0.0, 0.0, 0.0, TradingSignal.NoSignal, NotEnoughData(|prices|), None))
    else
      var shortSma := CalculateSma(prices, SHORT_TERM_PERIOD);
      var longSma := CalculateSma(prices, LONG_TERM_PERIOD);
      var currentPrice := prices[|prices| - 1];
      var signal := Crossover(shortSma, longSma);
      var analysis := CoinAnalysis(coinId, currentPrice, shortSma, longSma, signal, CompletedStatus(mode), None);
      match signal
      case Buy =>
        if mode == Trading && active then
          var (after, trade) := BuyOutcome(a, ACCOUNT_ID, coinId, currentPrice, TRADE_AMOUNT, now, failure);
          (after, analysis.(tradeResult := Some(trade)))
        else if mode == Training then
          (a, analysis.(tradeResult := Some(SimulatedResult(signal, currentPrice))))
        else
          (a, analysis.(tradeResult := Some(HeldResult(TradeAction.Buy, currentPrice))))
      case Sell =>
        if mode == Trading && active then
          var (after, trade) := SellOutcome(a, ACCOUNT_ID, coinId, currentPrice, now, failure);
          (after, analysis.(tradeResult := Some(trade)))
        else if mode == Training then
          (a, analysis.(tradeResult := Some(SimulatedResult(signal, currentPrice))))
        else
          (a, analysis.(tradeResult := Some(HeldResult(TradeAction.Sell, currentPrice))))
      case _ =>
        (a, CoinAnalysis(coinId, currentPrice, shortSma, longSma, TradingSignal.Hold, NoSignalStatus(mode), None))
  }

  /**
   * analyzeCoin's rules: fewer than 50 prices give NONE with zero price and averages and no
   * trade; otherwise the signal is BUY, SELL or HOLD exactly as the short average is above,
   * below or equal to the long one; only BUY and SELL carry a trade result, which is the
   * executor's in live TRADING, a simulation in TRAINING, and the "on hold" result otherwise;
   * only live TRADING changes the account.
   */
  lemma AnalyzeRules(a: Account, active: bool, coinId: string, mode: TradingMode, prices: seq<real>,
                     now: int, failure: Option<string>)
    requires AllPositive(prices)
    ensures var out := AnalyzeOutcome(a, active, coinId, mode, prices, now, failure);
            var shortSma := CalculateSma(prices, SHORT_TERM_PERIOD);
            var longSma := CalculateSma(prices, LONG_TERM_PERIOD);
            && (|prices| < LONG_TERM_PERIOD ==>
                  out == (a, CoinAnalysis(coinId, 0.0, 0.0, 0.0, TradingSignal.NoSignal, NotEnoughData(|prices|), None)))
            && (|prices| >= LONG_TERM_PERIOD ==>
                  && out.1.currentPrice == prices[|prices| - 1]
                  && out.1.shortTermSma == shortSma && out.1.longTermSma == longSma)
            && (out.1.signal == TradingSignal.Buy <==> |prices| >= LONG_TERM_PERIOD && shortSma > longSma)
            && (out.1.signal == TradingSignal.Sell <==> |prices| >= LONG_TERM_PERIOD && shortSma < longSma)
            && (out.1.signal == TradingSignal.Hold <==> |prices| >= LONG_TERM_PERIOD && shortSma == longSma)
            && (out.1.tradeResult.Some? <==> out.1.signal == TradingSignal.Buy || out.1.signal == TradingSignal.Sell)
            && (!(mode == Trading && active) ==> out.0 == a)
            && (mode == Training && out.1.tradeResult.Some? ==>
                  out.1.tradeResult == Some(SimulatedResult(out.1.signal, out.1.currentPrice)))
            && (mode == Trading && active && out.1.signal == TradingSignal.Buy ==>
                  out == (BuyOutcome(a, ACCOUNT_ID, coinId, out.1.currentPrice, TRADE_AMOUNT, now, failure).0,
                          out.1.(tradeResult := Some(BuyOutcome(a, ACCOUNT_ID, coinId, out.1.currentPrice, TRADE_AMOUNT, now, failure).1))))
            && (mode == Trading && active && out.1.signal == TradingSignal.Sell ==>
                  out == (SellOutcome(a, ACCOUNT_ID, coinId, out.1.currentPrice, now, failure).0,
                          out.1.(tradeResult := Some(SellOutcome(a, ACCOUNT_ID, coinId, out.1.currentPrice, now, failure).1))))
            && (mode == Trading && !active && out.1.tradeResult.Some? ==>
                  out.1.tradeResult == Some(HeldResult(if out.1.signal == TradingSignal.Buy then TradeAction.Buy else TradeAction.Sell,
                                                       out.1.currentPrice)))
  {
  }

  /** A live buy or sell reports the executor's result, never the "on hold" one. */
  lemma LiveTradeNeverHeld(a: Account, coinId: string, price: real, now: int, failure: Option<string>)
    requires price > 0.0
    ensures !IsHeldResult(BuyOutcome(a, ACCOUNT_ID, coinId, price, TRADE_AMOUNT, now, failure).1)
    ensures !IsHeldResult(SellOutcome(a, ACCOUNT_ID, coinId, price, now, failure).1)
  {
    var buy := BuyOutcome(a, ACCOUNT_ID, coinId, price, TRADE_AMOUNT, now, failure).1;
    var sell := SellOutcome(a, ACCOUNT_ID, coinId, price, now, failure).1;
    assert ON_HOLD_MESSAGE[0] == 'T';
    if failure.Some? {
      assert buy.message[0].text[0] == 'F';
      assert sell.message[0].text[0] == 'F';
    } else {
      assert |buy.message| == 4;
      if HasPosition(a, coinId) {
        assert |sell.message| == 4;
      } else {
        assert sell.message[0].text[0] == 'C';
      }
    }
  }

  /** An active bot never attaches the "on hold" result: live trades and simulations replace it. */
  lemma ActiveAnalysisNeverHeld(a: Account, coinId: string, mode: TradingMode, prices: seq<real>,
                                now: int, failure: Option<string>)
    requires AllPositive(prices)
    ensures var analysis := AnalyzeOutcome(a, true, coinId, mode, prices, now, failure).1;
            analysis.tradeResult.Some? ==> !IsHeldResult(analysis.tradeResult.value)
  {
    AnalyzeRules(a, true, coinId, mode, prices, now, failure);
    var out := AnalyzeOutcome(a, true, coinId, mode, prices, now, failure);
    if out.1.tradeResult.Some? {
      if mode == Training {
        assert ON_HOLD_MESSAGE[0] == 'T';
        assert "Simulated buy trade (training mode)"[0] == 'S';
        assert "Simulated sell trade (training mode)"[0] == 'S';
      } else {
        LiveTradeNeverHeld(a, coinId, out.1.currentPrice, now, failure);
      }
    }
  }

  /** analyzeCoin: fetches the history, decides the signal and trades on the ledger in TRADING mode. */
  method AnalyzeCoin(ledger: Ledger, bot: BotState, coinId: string, mode: TradingMode, historicalPrices: seq<real>,
                     now: int, failure: Option<string>) returns (analysis: CoinAnalysis)
    requires AllPositive(historicalPrices)
    requires ledger.accountId == ACCOUNT_ID
    modifies ledger
    ensures (ledger.State(), analysis) ==
              AnalyzeOutcome(old(ledger.State()), bot.IsActive(), coinId, mode, historicalPrices, now, failure)
  {
    if |historicalPrices| < LONG_TERM_PERIOD {
      return CoinAnalysis(coinId, 0.0, 0.0, 0.0, TradingSignal.NoSignal, NotEnoughData(|historicalPrices|), None);
    }
    var shortTermSma := CalculateSma(historicalPrices, SHORT_TERM_PERIOD);
    var longTermSma := CalculateSma(historicalPrices, LONG_TERM_PERIOD);
    var currentPrice := historicalPrices[|historicalPrices| - 1];
    var status := CompletedStatus(mode);

    if shortTermSma > longTermSma {
      analysis := CoinAnalysis(coinId, currentPrice, shortTermSma, longTermSma, TradingSignal.Buy, status, None);
      if mode == Trading && bot.IsActive() {
        var tradeResult := ExecuteBuyTrade(ledger, coinId, currentPrice, TRADE_AMOUNT, now, failure);
        analysis := analysis.(tradeResult := Some(tradeResult));
      } else if mode == Training {
        analysis := analysis.(tradeResult := Some(SimulatedResult(TradingSignal.Buy, currentPrice)));
      } else {
        analysis := analysis.(tradeResult := Some(HeldResult(TradeAction.Buy, currentPrice)));
      }
    } else if shortTermSma < longTermSma {
      analysis := CoinAnalysis(coinId, currentPrice, shortTermSma, longTermSma, TradingSignal.Sell, status, None);
      if mode == Trading && bot.IsActive() {
        var tradeResult := ExecuteSellTrade(ledger, coinId, currentPrice, now, failure);
        analysis := analysis.(tradeResult := Some(tradeResult));
      } else if mode == Training {
        analysis := analysis.(tradeResult := Some(SimulatedResult(TradingSignal.Sell, currentPrice)));
      } else {
        analysis := analysis.(tradeResult := Some(HeldResult(TradeAction.Sell, currentPrice)));
      }
    } else {
      analysis := CoinAnalysis(coinId, currentPrice, shortTermSma, longTermSma, TradingSignal.Hold,
                               NoSignalStatus(mode), None);
    }
  }

  // ---------------------------------------------------------------------------
  // executeTradingLogic
  // ---------------------------------------------------------------------------

  /** Analyses carrying a trade result (the run's "trading signals"). */
  function CountSignals(analyses: seq<CoinAnalysis>): nat {
    if analyses == [] then 0
    else CountSignals(analyses[..|analyses| - 1]) + (if analyses[|analyses| - 1].tradeResult.Some? then 1 else 0)
  }

  /** Analyses carrying a successful trade result. */
  function CountSuccesses(analyses: seq<CoinAnalysis>): nat {
    if analyses == [] then 0
    else
      var last := analyses[|analyses| - 1];
      CountSuccesses(analyses[..|analyses| - 1]) + (if last.tradeResult.Some? && last.tradeResult.value.success then 1 else 0)
  }

  /** successfulTrades <= totalSignals <= number of coins. */
  lemma {:induction false} CountsBounded(analyses: seq<CoinAnalysis>)
    ensures CountSuccesses(analyses) <= CountSignals(analyses) <= |analyses|
    decreases |analyses|
  {
    if analyses != [] {
      CountsBounded(analyses[..|analyses| - 1]);
    }
  }

  /**
   * The loop of an active run as a function of the account before it: the account after
   * analysing the first n coins and their analyses, in coin order.
   */
  function RunOutcome(a: Account, coins: seq<CoinInput>, mode: TradingMode, now: int, n: nat): (out: (Account, seq<CoinAnalysis>))
    requires n <= |coins| && PositiveInputs(coins)
    ensures |out.1| == n
    ensures forall k :: 0 <= k < n ==> out.1[k].coinId == coins[k].coinId
  {
    if n == 0 then (a, [])
    else
      var (before, analyses) := RunOutcome(a, coins, mode, now, n - 1);
      var coin := coins[n - 1];
      var (after, analysis) := AnalyzeOutcome(before, true, coin.coinId, mode, coin.history, now, coin.failure);
      (after, analyses + [analysis])
  }

  /** The counters after one more analysis. */
  lemma CountsStep(analyses: seq<CoinAnalysis>, analysis: CoinAnalysis)
    ensures CountSignals(analyses + [analysis]) == CountSignals(analyses) + (if analysis.tradeResult.Some? then 1 else 0)
    ensures CountSuccesses(analyses + [analysis]) ==
              CountSuccesses(analyses) + (if analysis.tradeResult.Some? && analysis.tradeResult.value.success then 1 else 0)
  {
    assert (analyses + [analysis])[..|analyses|] == analyses;
  }

  /** One TRAINING analysis keeps the account, and any trade result it carries is a success. */
  lemma TrainingAnalysisRules(a: Account, coinId: string, prices: seq<real>, now: int, failure: Option<string>)
    requires AllPositive(prices)
    ensures var out := AnalyzeOutcome(a, true, coinId, Training, prices, now, failure);
            out.0 == a && (out.1.tradeResult.Some? ==> out.1.tradeResult.value.success)
  {
  }

  /** A TRAINING run never touches the ledger. */
  lemma {:induction false} TrainingRunLeavesLedger(a: Account, coins: seq<CoinInput>, now: int, n: nat)
    requires n <= |coins| && PositiveInputs(coins)
    ensures RunOutcome(a, coins, Training, now, n).0 == a
  {
    if n > 0 {
      TrainingRunLeavesLedger(a, coins, now, n - 1);
      var coin := coins[n - 1];
      var before := RunOutcome(a, coins, Training, now, n - 1).0;
      TrainingAnalysisRules(before, coin.coinId, coin.history, now, coin.failure);
    }
  }

  /** In a TRAINING run every signal is a successful (simulated) trade. */
  lemma {:induction false} TrainingSignalsAllSucceed(a: Account, coins: seq<CoinInput>, now: int, n: nat)
    requires n <= |coins| && PositiveInputs(coins)
    ensures var analyses := RunOutcome(a, coins, Training, now, n).1;
            CountSuccesses(analyses) == CountSignals(analyses)
  {
    if n > 0 {
      TrainingSignalsAllSucceed(a, coins, now, n - 1);
      var (before, prior) := RunOutcome(a, coins, Training, now, n - 1);
      var coin := coins[n - 1];
      var analysis := AnalyzeOutcome(before, true, coin.coinId, Training, coin.history, now, coin.failure).1;
      assert RunOutcome(a, coins, Training, now, n).1 == prior + [analysis];
      TrainingAnalysisRules(before, coin.coinId, coin.history, now, coin.failure);
      CountsStep(prior, analysis);
    }
  }

  /** No analysis carries the "on hold" result. */
  predicate NoneHeld(analyses: seq<CoinAnalysis>) {
    forall k :: 0 <= k < |analyses| && analyses[k].tradeResult.Some? ==> !IsHeldResult(analyses[k].tradeResult.value)
  }

  /** No analysis of a run (which only proceeds when ACTIVE) carries the "on hold" result. */
  lemma {:induction false} RunNeverHeld(a: Account, coins: seq<CoinInput>, mode: TradingMode, now: int, n: nat)
    requires n <= |coins| && PositiveInputs(coins)
    ensures NoneHeld(RunOutcome(a, coins, mode, now, n).1)
  {
    if n > 0 {
      RunNeverHeld(a, coins, mode, now, n - 1);
      var (before, prior) := RunOutcome(a, coins, mode, now, n - 1);
      var coin := coins[n - 1];
      ActiveAnalysisNeverHeld(before, coin.coinId, mode, coin.history, now, coin.failure);
    }
  }

  function SuspendedSummary(status: BotStatus): string {
    "Bot is currently " + status.Name() + ". Trading suspended."
  }

  /** The suspended-run summary names the bot's status and says that trading is suspended. */
  lemma SuspendedSummaryReportsStatus(status: BotStatus)
    ensures Contains(SuspendedSummary(status), status.Name())
    ensures Contains(SuspendedSummary(status), "Trading suspended")
  {
    ContainsMiddle("Bot is currently ", status.Name(), ". Trading suspended.");
    ContainsMiddle("Bot is currently " + status.Name() + ". ", "Trading suspended", ".");
    assert "Bot is currently " + status.Name() + ". " + "Trading suspended" + "." == SuspendedSummary(status);
  }

  function ModeLabel(mode: TradingMode): string {
    if mode == Training then "TRAINING" else "LIVE"
  }

  function RunSummary(mode: TradingMode, coins: nat, signals: nat, successes: nat): string {
    "[" + ModeLabel(mode) + " MODE] Analyzed " + IntToString(coins) + " coins, generated "
      + IntToString(signals) + " trading signals, " + IntToString(successes) + " successful trades"
  }

  /**
   * One pass of executeTradingLogic's loop: analyses coin i on the ledger, extending the run
   * by one analysis and the counters by what it carries.
   */
  method AnalyzeNext(ledger: Ledger, bot: BotState, coins: seq<CoinInput>, mode: TradingMode, now: int, i: nat,
                     ghost initial: Account, analyses: seq<CoinAnalysis>, totalSignals: nat, successfulTrades: nat)
    returns (analysis: CoinAnalysis, signals: nat, successes: nat)
    requires i < |coins| && PositiveInputs(coins)
    requires ledger.accountId == ACCOUNT_ID && bot.IsActive()
    requires (ledger.State(), analyses) == RunOutcome(initial, coins, mode, now, i)
    requires totalSignals == CountSignals(analyses) && successfulTrades == CountSuccesses(analyses)
    modifies ledger
    ensures (ledger.State(), analyses + [analysis]) == RunOutcome(initial, coins, mode, now, i + 1)
    ensures signals == CountSignals(analyses + [analysis]) && successes == CountSuccesses(analyses + [analysis])
  {
    var coin := coins[i];
    analysis := AnalyzeCoin(ledger, bot, coin.coinId, mode, coin.history, now, coin.failure);
    CountsStep(analyses, analysis);
    signals, successes := totalSignals, successfulTrades;
    if analysis.tradeResult.Some? {
      signals := signals + 1;
      if analysis.tradeResult.value.success {
        successes := successes + 1;
      }
    }
  }

  /**
   * executeTradingLogic: nothing happens unless the bot is ACTIVE; then every coin is
   * analysed in order and the signals and successful trades are counted.
   */
  method ExecuteTradingLogic(ledger: Ledger, bot: BotState, coins: seq<CoinInput>, mode: TradingMode, now: int)
    returns (result: TradingAnalysisResult)
    requires PositiveInputs(coins)
    requires ledger.accountId == ACCOUNT_ID
    modifies ledger
    ensures !bot.IsActive() ==>
              && ledger.State() == old(ledger.State())
              && result == TradingAnalysisResult([], SuspendedSummary(bot.currentStatus), false)
    ensures bot.IsActive() ==>
              && (ledger.State(), result.analyses) == RunOutcome(old(ledger.State()), coins, mode, now, |coins|)
              && result.success
              && result.summary == RunSummary(mode, |coins|, CountSignals(result.analyses), CountSuccesses(result.analyses))
  {
    if !bot.IsActive() {
      return TradingAnalysisResult([], SuspendedSummary(bot.currentStatus), false);
    }
    ghost var initial := ledger.State();
    var analyses: seq<CoinAnalysis> := [];
    var successfulTrades := 0;
    var totalSignals := 0;
    var i := 0;
    while i < |coins|
      invariant 0 <= i <= |coins|
      invariant (ledger.State(), analyses) == RunOutcome(initial, coins, mode, now, i)
      invariant totalSignals == CountSignals(analyses) && successfulTrades == CountSuccesses(analyses)
    {
      var analysis;
      analysis, totalSignals, successfulTrades :=
        AnalyzeNext(ledger, bot, coins, mode, now, i, initial, analyses, totalSignals, successfulTrades);
      analyses := analyses + [analysis];
      i := i + 1;
    }
    result := TradingAnalysisResult(analyses, RunSummary(mode, |coins|, totalSignals, successfulTrades), true);
  }

  // ---------------------------------------------------------------------------
  // runTrainingOnHistoricalData
  // ---------------------------------------------------------------------------

  /** "Return: %.2f%%, Trades: %d" */
  function ReturnMessage(percentage: Option<real>, trades: int): Message {
    [Lit("Return: "), if percentage.Some? then Fixed(percentage.value, 2) else NaN,
     Lit("%, Trades: " + IntToString(trades))]
  }

  /**
   * The return line prints the percentage with two decimals, or "NaN" when the percentage is
   * 0/0 (a start balance of 0); the trade count follows in either case.
   */
  lemma ReturnMessageText(percentage: Option<real>, trades: int)
    ensures var r := Render(ReturnMessage(percentage, trades));
            && StartsWith(r, "Return: ")
            && (percentage.None? ==> Contains(r, "NaN"))
            && (percentage.Some? ==> r == "Return: " + FormatFixed(percentage.value, 2) + ("%, Trades: " + IntToString(trades)))
  {
    var value := if percentage.Some? then Fixed(percentage.value, 2) else NaN;
    RenderBetween("Return: ", value, "%, Trades: " + IntToString(trades));
    if percentage.None? {
      ContainsMiddle("Return: ", "NaN", "%, Trades: " + IntToString(trades));
    }
  }

  /** The analysis reported for one coin's backtest: its summary, trade count and total return. */
  function BacktestAnalysis(coinId: string, bt: BacktestResult): (r: CoinAnalysis)
    ensures r.coinId == coinId && r.signal == TradingSignal.Backtest && r.status == bt.summary
    ensures r.tradeResult.Some? && r.tradeResult.value.action == TradeAction.BacktestSummary
    ensures r.tradeResult.value.success == bt.success
    ensures r.tradeResult.value.quantity == bt.totalTrades as real
    ensures r.tradeResult.value.totalValue == bt.totalReturn
  {
    CoinAnalysis(coinId, 0.0, 0.0, 0.0, TradingSignal.Backtest, bt.summary,
                 Some(TradeResult(bt.success, TradeAction.BacktestSummary, bt.totalTrades as real, 0.0, bt.totalReturn,
                                  ReturnMessage(bt.totalReturnPercentage, bt.totalTrades))))
  }

  /** The backtest runTrainingOnHistoricalData runs for one coin. */
  function TrainingBacktest(coinId: string, days: int, prices: seq<real>, now: int): BacktestResult
    requires AllPositive(prices)
  {
    BacktestOutcome(coinId, days, TRAINING_BALANCE, Fetched(prices), now)
  }

  /**
   * A coin whose history fetch failed gets an unsuccessful BACKTEST analysis with no trades
   * and no return, reporting the insufficient data.
   */
  lemma FailedFetchTrainsNothing(coinId: string, days: int, reply: Reply, now: int)
    requires PriceList(reply).None?
    ensures var prices := FetchHistoricalPrices(coinId, days, reply);
            var analysis := BacktestAnalysis(coinId, TrainingBacktest(coinId, days, prices, now));
            && analysis.status == Plain("Insufficient historical data for backtesting")
            && !analysis.tradeResult.value.success
            && analysis.tradeResult.value.quantity == 0.0 && analysis.tradeResult.value.totalValue == 0.0
  {
  }

  /** runTrainingOnHistoricalData: one backtest of 1000.0 per coin, in coin order. */
  method RunTrainingOnHistoricalData(coinIds: seq<string>, days: int, histories: seq<seq<real>>, now: int)
    returns (result: TradingAnalysisResult)
    requires |histories| == |coinIds|
    requires PositiveHistories(histories)
    ensures result.success
    ensures result.summary == "[HISTORICAL TRAINING] Analyzed " + IntToString(|coinIds|) + " coins over "
                              + IntToString(days) + " days"
    ensures |result.analyses| == |coinIds|
    ensures forall k :: 0 <= k < |coinIds| ==>
              result.analyses[k] == BacktestAnalysis(coinIds[k], TrainingBacktest(coinIds[k], days, histories[k], now))
  {
    var analyses := TrainAll(coinIds, days, histories, now);
    result := TradingAnalysisResult(analyses, "[HISTORICAL TRAINING] Analyzed " + IntToString(|coinIds|)
                                    + " coins over " + IntToString(days) + " days", true);
  }

  /** The loop of runTrainingOnHistoricalData: the backtest analyses, one per coin. */
  method TrainAll(coinIds: seq<string>, days: int, histories: seq<seq<real>>, now: int)
    returns (analyses: seq<CoinAnalysis>)
    requires |histories| == |coinIds|
    requires PositiveHistories(histories)
    ensures |analyses| == |coinIds|
    ensures forall k :: 0 <= k < |coinIds| ==>
              analyses[k] == BacktestAnalysis(coinIds[k], TrainingBacktest(coinIds[k], days, histories[k], now))
  {
    analyses := [];
    var i := 0;
    while i < |coinIds|
      invariant 0 <= i <= |coinIds|
      invariant |analyses| == i
      invariant forall k :: 0 <= k < i ==>
                  analyses[k] == BacktestAnalysis(coinIds[k], TrainingBacktest(coinIds[k], days, histories[k], now))
    {
      var analysis := TrainCoin(coinIds[i], days, histories[i], now);
      analyses := analyses + [analysis];
      i := i + 1;
    }
  }

  /** One iteration of runTrainingOnHistoricalData: a 1000.0 backtest of one coin, as an analysis. */
  method TrainCoin(coinId: string, days: int, prices: seq<real>, now: int) returns (analysis: CoinAnalysis)
    requires AllPositive(prices)
    ensures analysis == BacktestAnalysis(coinId, TrainingBacktest(coinId, days, prices, now))
  {
    var backtestResult := RunBacktest(coinId, days, TRAINING_BALANCE, Fetched(prices), now);
    analysis := BacktestAnalysis(coinId, backtestResult);
  }
}
