/**
 * The value objects the services exchange: trade outcomes, per-coin analyses, the
 * orchestrator's and the backtest's results, and the price service's responses.
 * Java's nullable fields become Option; enum constants keep their Java names through Name().
 */
module Dtos {
  import opened Wrappers
  import opened Text

  /** Java's TradeAction enum. */
  datatype TradeAction = Buy | Sell | BacktestSummary {
    function Name(): string {
      match this
      case Buy => "BUY"
      case Sell => "SELL"
      case BacktestSummary => "BACKTEST_SUMMARY"
    }
  }

  /** Java's TradingSignal enum; CoinAnalysis stores its name. */
  datatype TradingSignal = NoSignal | Buy | Sell | Hold | Backtest {
    function Name(): string {
      match this
      case NoSignal => "NONE"
      case Buy => "BUY"
      case Sell => "SELL"
      case Hold => "HOLD"
      case Backtest => "BACKTEST"
    }
  }

  /** Outcome of one (real, simulated or backtest) trade. */
  datatype TradeResult = TradeResult(
    success: bool,
    action: TradeAction,
    quantity: real,
    price: real,
    totalValue: real,
    message: Message)

  /** One coin's analysis; `tradeResult` is None until the orchestrator attaches one. */
  datatype CoinAnalysis = CoinAnalysis(
    coinId: string,
    currentPrice: real,
    shortTermSma: real,
    longTermSma: real,
    signal: TradingSignal,
    status: Message,
    tradeResult: Option<TradeResult>)

  /** What executeTradingLogic and runTrainingOnHistoricalData return. */
  datatype TradingAnalysisResult = TradingAnalysisResult(
    analyses: seq<CoinAnalysis>,
    summary: string,
    success: bool)

  /**
   * What runBacktest returns. Dates are clock readings (None for Java's null);
   * totalReturnPercentage is None where Java computes 0.0 / 0.0 = NaN.
   */
  datatype BacktestResult = BacktestResult(
    success: bool,
    coinId: string,
    startDate: Option<int>,
    endDate: Option<int>,
    initialBalance: real,
    finalBalance: real,
    totalReturn: real,
    totalReturnPercentage: Option<real>,
    totalTrades: int,
    successfulTrades: int,
    trades: seq<TradeResult>,
    summary: Message)

  /** The market_chart response as the price service hands it on. */
  datatype HistoricalPriceResponse = HistoricalPriceResponse(
    success: bool,
    coinId: string,
    prices: seq<real>,
    requestedDays: int,
    actualDays: int,
    errorMessage: Option<string>)

  /** The simple/price response as the price service hands it on. */
  datatype CryptoPriceResponse = CryptoPriceResponse(
    success: bool,
    prices: map<string, real>,
    errorMessage: Option<string>)
}
