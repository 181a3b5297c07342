# Trading bot core in Dafny

This project models the decision and backtesting engine of a Spring Boot crypto trading bot
and proves properties of that model. The engine has five services:

- **TradingBotService** (`trading_bot_service.dfy`). For each coin it fetches 50 days of
  prices, compares the 10-day and 50-day simple moving averages and classifies the coin as
  NONE, BUY, SELL or HOLD. On BUY or SELL it either trades through the executor (TRADING
  mode), attaches a simulated result (TRAINING mode) or attaches a "held" result. A run is
  gated on the bot being ACTIVE and counts signals and successful trades. Historical training
  runs one backtest per coin.
- **BacktestService** (`backtest_service.dfy`). It replays a price history through the same
  crossover rule against a private ledger of cash, quantity held and a trade list, then
  reports the final value and the return.
- **TradeExecutorService** (`trade_executor_service.dfy`). It buys and sells against one
  account's ledger. The ledger is a class with a balance, holdings by symbol and a trade log,
  standing in for CryptoRepository's SQL tables.
- **BotStateService** (`bot_state_service.dfy`). It is a class holding the status (ACTIVE,
  ON_HOLD or STOPPED), the time of the last change and its reason.
- **CryptoDataService** (`crypto_data_service.dfy`), pure parts only:
  - reading CoinGecko's `simple/price` and `market_chart` replies, modelled as a small JSON
    datatype;
  - the rate-limit message mapping;
  - the current-price and sufficient-history decisions;
  - the API-key tier.

Shared pieces:

- `moving_average.dfy`: calculateSMA and the crossover rule. Both services carry the same
  private copy of calculateSMA.
- `text.dfy`: substring search and the decimal rendering of numbers.
- `dtos.dfy`: the result records.
- `wrappers.dfy`: `Option`, which stands for Java's `null`.

Stateful code is imperative Dafny proved against a specification function:

- `RunBacktest` runs its loop in `ReplayAll`, which keeps its invariant against `Replay`.
- `ExecuteBuyTrade` and `ExecuteSellTrade` call the Ledger's repository methods in the
  code's order and are proved to compute `BuyOutcome` and `SellOutcome`.
- `ExecuteTradingLogic` keeps its list and counters against `RunOutcome`, `CountSignals` and
  `CountSuccesses`.
- `FetchPrices` fills a map by walking the reply's keys.

The properties are lemmas about those specification functions.

Everything that comes from outside the process is an input:

- what the HTTP call returned;
- what each coin's price fetch gave;
- whether a repository call raised;
- the clock (`now`, an integer).

Money and prices are `real`. A price the code divides by is required to be positive.

## Model

Source paths are relative to the repository root.

| member | source | states |
|---|---|---|
| MovingAverage.CalculateSma | backend/src/main/java/dankok/trading212/auto_trading_bot/services/TradingBotService.java:155-165 | a period longer than the list gives 0 |
| MovingAverage.SmaIsMeanOfLastPrices | backend/src/main/java/dankok/trading212/auto_trading_bot/services/TradingBotService.java:155-165 | otherwise the average times the period is the sum of the last `period` prices (the arithmetic mean of that window) |
| MovingAverage.SmaWithinWindow | backend/src/main/java/dankok/trading212/auto_trading_bot/services/BacktestService.java:78-87 | the average lies between the least and greatest price of its window |
| MovingAverage.SmaOfFlatWindow | backend/src/main/java/dankok/trading212/auto_trading_bot/services/BacktestService.java:78-87 | over a window of one repeated price the average is that price |
| MovingAverage.SmaPositive | backend/src/main/java/dankok/trading212/auto_trading_bot/services/TradingBotService.java:155-165 | positive prices have a positive average |
| MovingAverage.Crossover | backend/src/main/java/dankok/trading212/auto_trading_bot/services/TradingBotService.java:114-150 | BUY iff short > long, SELL iff short < long, HOLD iff equal |
| MovingAverage.RisingPricesSignalBuy | backend/src/main/java/dankok/trading212/auto_trading_bot/services/TradingBotService.java:106-116 | strictly rising prices (at least 50) give BUY |
| MovingAverage.FallingPricesSignalSell | backend/src/main/java/dankok/trading212/auto_trading_bot/services/TradingBotService.java:106-132 | strictly falling prices (at least 50) give SELL |
| Text.FormatFixedShape | backend/src/main/java/dankok/trading212/auto_trading_bot/services/TradingBotService.java:85 | in a locale whose decimal separator is '.', %.2f prints at least one digit, a point and exactly two (in general `decimals`) digits after it |
| Text.RoundedUnitsNearest | backend/src/main/java/dankok/trading212/auto_trading_bot/services/BacktestService.java:65 | for every magnitude m and d places, %.Nf rounds HALF_UP: the count n of 10^-d units satisfies n <= m * 10^d + 0.5 < n + 1, and is not negative for m >= 0 |
| Text.FormatFixedSign | backend/src/main/java/dankok/trading212/auto_trading_bot/services/BacktestService.java:65 | every negative value prints as "-" followed by the text of its magnitude; every other value starts with a digit |
| BotStateService.BotState.constructor | backend/src/main/java/dankok/trading212/auto_trading_bot/services/BotStateService.java:11-13 | a new bot is ACTIVE, reason "Bot initialized", stamped with the clock |
| BotStateService.BotState.SetStatus | backend/src/main/java/dankok/trading212/auto_trading_bot/services/BotStateService.java:27-31 | status, reason and stamp become exactly the arguments and the clock reading |
| BotStateService.BotState.ActivateBot | backend/src/main/java/dankok/trading212/auto_trading_bot/services/BotStateService.java:33-35 | ACTIVE from any state (active, not on hold); reason given or "Bot activated"; stamped |
| BotStateService.BotState.HoldBot | backend/src/main/java/dankok/trading212/auto_trading_bot/services/BotStateService.java:37-39 | ON_HOLD from any state (not active, on hold); reason given or "Bot put on hold"; stamped |
| BotStateService.BotState.StopBot | backend/src/main/java/dankok/trading212/auto_trading_bot/services/BotStateService.java:41-43 | STOPPED from any state (neither active nor on hold); reason given or "Bot stopped"; stamped |
| BotStateService.BotState.StatusSummary | backend/src/main/java/dankok/trading212/auto_trading_bot/services/BotStateService.java:53-56 | the summary contains "Bot Status:", the status name and the reason |
| BotStateService.ReasonOrDefault | backend/src/main/java/dankok/trading212/auto_trading_bot/services/BotStateService.java:33-43 | a given reason is kept, a null one becomes the transition's default |
| BotStateService.StatusPredicates | backend/src/main/java/dankok/trading212/auto_trading_bot/services/BotStateService.java:19-25 | isActive iff ACTIVE, isOnHold iff ON_HOLD, never both, STOPPED iff neither |
| BotStateService.EmptyReasonKept | backend/src/main/java/dankok/trading212/auto_trading_bot/services/BotStateService.java:33-43 | the empty string is stored verbatim; only null gets the default |
| TradeExecutorService.Ledger.UpdateAccountBalance | backend/src/main/java/dankok/trading212/auto_trading_bot/repositories/CryptoRepository.java:18-20 | balance becomes balance + amount |
| TradeExecutorService.Ledger.GetHoldingsCount | backend/src/main/java/dankok/trading212/auto_trading_bot/repositories/CryptoRepository.java:22-27 | the number of holding rows for the symbol |
| TradeExecutorService.Ledger.UpdateHoldingsQuantity | backend/src/main/java/dankok/trading212/auto_trading_bot/repositories/CryptoRepository.java:29-34 | the symbol's quantity grows by the delta |
| TradeExecutorService.Ledger.InsertHoldingRow | backend/src/main/java/dankok/trading212/auto_trading_bot/repositories/CryptoRepository.java:36-41 | a holding row for the symbol with the quantity |
| TradeExecutorService.Ledger.GetHoldingQuantity | backend/src/main/java/dankok/trading212/auto_trading_bot/repositories/CryptoRepository.java:43-52 | the symbol's quantity, null without a row |
| TradeExecutorService.Ledger.DeleteHoldingRow | backend/src/main/java/dankok/trading212/auto_trading_bot/repositories/CryptoRepository.java:54-59 | the symbol's row is gone |
| TradeExecutorService.Ledger.InsertTradeRow | backend/src/main/java/dankok/trading212/auto_trading_bot/repositories/CryptoRepository.java:61-67 | the trade log gains the record at its end |
| TradeExecutorService.BuyOutcome | backend/src/main/java/dankok/trading212/auto_trading_bot/services/TradeExecutorService.java:22-46 | on failure the account is unchanged and the result fails with quantity and value 0 and "Failed to execute buy trade: " + message; otherwise quantity = amount / price, balance drops by exactly the amount with no balance check, the holding grows by the quantity (created if absent), one BUY row with null profit/loss is appended, and the result succeeds with value = amount |
| TradeExecutorService.SellOutcome | backend/src/main/java/dankok/trading212/auto_trading_bot/services/TradeExecutorService.java:48-71 | on failure, or with no positive holding, the account is unchanged and the result fails with the code's message; otherwise the whole holding is sold, balance rises by quantity * price, the row is deleted, one SELL row is appended, and the result reports the held quantity and the sale value |
| TradeExecutorService.ExecuteBuyTrade | backend/src/main/java/dankok/trading212/auto_trading_bot/services/TradeExecutorService.java:22-46 | the repository calls in the code's order leave the ledger and result that BuyOutcome gives |
| TradeExecutorService.ExecuteSellTrade | backend/src/main/java/dankok/trading212/auto_trading_bot/services/TradeExecutorService.java:48-71 | the repository calls in the code's order leave the ledger and result that SellOutcome gives |
| TradeExecutorService.BuyThenSellRestoresBalance | backend/src/main/java/dankok/trading212/auto_trading_bot/services/TradeExecutorService.java:25-37 | buying with no prior holding and selling at the same price restores the balance and holdings, sells what was bought for the amount invested, and logs two rows |
| TradeExecutorService.OtherSymbolsUntouched | backend/src/main/java/dankok/trading212/auto_trading_bot/services/TradeExecutorService.java:27-37 | neither operation changes another symbol's holding or rewrites earlier trade rows; new rows name the traded symbol |
| TradeExecutorService.AllOrNothing | backend/src/main/java/dankok/trading212/auto_trading_bot/services/TradeExecutorService.java:42-45 | a failed operation leaves the account exactly as it was with quantity and value 0; a successful one has moved balance, holding and log |
| TradeExecutorService.BuyCanOverdraw | backend/src/main/java/dankok/trading212/auto_trading_bot/services/TradeExecutorService.java:23-40 | a buy larger than the balance succeeds and leaves a negative balance |
| TradeExecutorService.BuyAsWritten | backend/src/main/java/dankok/trading212/auto_trading_bot/services/TradeExecutorService.java:22-46 | the code as written: a raised call yields the failed buy result whatever writes it commits |
| TradeExecutorService.SellAsWritten | backend/src/main/java/dankok/trading212/auto_trading_bot/services/TradeExecutorService.java:48-71 | the code as written: a raised call yields the failed sell result whatever writes it commits |
| TradeExecutorService.AsWrittenAgreesBeforeAnyWrite | backend/src/main/java/dankok/trading212/auto_trading_bot/services/TradeExecutorService.java:22-71 | with no fault, or a fault before any write, the code as written equals BuyOutcome / SellOutcome |
| TradeExecutorService.FailedBuyKeepsDebit | backend/src/main/java/dankok/trading212/auto_trading_bot/services/TradeExecutorService.java:22-46 | as written, a buy whose trade insert raises reports failure yet keeps the debit and the holding, with no BUY row |
| TradeExecutorService.FailedSellKeepsCredit | backend/src/main/java/dankok/trading212/auto_trading_bot/services/TradeExecutorService.java:48-71 | as written, a sell whose holding deletion raises reports failure yet keeps the credit and the position |
| BacktestService.StepRule | backend/src/main/java/dankok/trading212/auto_trading_bot/services/BacktestService.java:42-57 | a step buys only when short > long, nothing is held and balance >= 10, investing min(balance, 100); it sells only when short < long and something is held, crediting holdings * price and clearing the holding; otherwise nothing changes (BuyStep, SellStep and IdleStep spell out each case for the loop proof) |
| BacktestService.Step | backend/src/main/java/dankok/trading212/auto_trading_bot/services/BacktestService.java:42-57 | one pass of the loop appends at most one trade and never rewrites an earlier one; a pass that records no trade leaves cash and holdings as they were |
| BacktestService.Replay | backend/src/main/java/dankok/trading212/auto_trading_bot/services/BacktestService.java:36-58 | after the loop has visited days 50 .. end - 1 there is at most one trade per day visited |
| BacktestService.ReplayAll | backend/src/main/java/dankok/trading212/auto_trading_bot/services/BacktestService.java:32-58 | the loop, starting from the initial balance with nothing held, ends with the ledger Replay gives |
| BacktestService.StepKeepsConsistent | backend/src/main/java/dankok/trading212/auto_trading_bot/services/BacktestService.java:42-57 | one step keeps the replay invariant: holdings >= 0, a position is open iff the last trade was a BUY and holds its quantity, cash >= 0 once anything traded, trades alternate BUY/SELL from BUY, each BUY invests 10..100 and each SELL sells what the BUY bought |
| BacktestService.ReplayConsistent | backend/src/main/java/dankok/trading212/auto_trading_bot/services/BacktestService.java:32-58 | every replay satisfies that invariant |
| BacktestService.NoTradesBelowMinimum | backend/src/main/java/dankok/trading212/auto_trading_bot/services/BacktestService.java:42 | with less than 10 to start, no trade fires and the ledger stays as it began |
| BacktestService.NoTradesWhileLevel | backend/src/main/java/dankok/trading212/auto_trading_bot/services/BacktestService.java:42-57 | when short == long at every step, no trade fires |
| BacktestService.FlatPricesNeverTrade | backend/src/main/java/dankok/trading212/auto_trading_bot/services/BacktestService.java:36-58 | a constant price history never trades |
| BacktestService.BacktestOutcome | backend/src/main/java/dankok/trading212/auto_trading_bot/services/BacktestService.java:23-76 | a failed fetch gives "Backtest failed: " + message; fewer than 50 prices gives "Insufficient historical data for backtesting"; both fail with finalBalance = initialBalance and no trades. Success iff at least 50 prices; then trades are the replay's, finalBalance = balance + holdings * last price, totalReturn = final - initial, the percentage is totalReturn / initial * 100 (None for 0/0), and totalTrades == successfulTrades == number of trades |
| BacktestService.CompletedSummaryText | backend/src/main/java/dankok/trading212/auto_trading_bot/services/BacktestService.java:65-66 | the completed summary starts "Backtest completed: ", prints the return with two decimals then "% return, " and the trade count, and prints "NaN" when there is no percentage |
| BacktestService.BacktestTradeRules | backend/src/main/java/dankok/trading212/auto_trading_bot/services/BacktestService.java:42-70 | reported trades alternate BUY/SELL from BUY and all succeed, each BUY invests 10..100; final value >= 0 once anything traded; no trades leaves finalBalance == initialBalance; a start below 10 never trades and returns 0 |
| BacktestService.RunBacktest | backend/src/main/java/dankok/trading212/auto_trading_bot/services/BacktestService.java:23-76 | the loop computes BacktestOutcome, so two runs on the same inputs agree |
| CryptoDataService.ClientErrorMessage | backend/src/main/java/dankok/trading212/auto_trading_bot/services/CryptoDataService.java:67-74 | a rate-limited exception (its message contains "429" or "rate limit") reports the rate-limit text; any other reports the service prefix followed by the exception message |
| CryptoDataService.RateLimitTextIffRateLimited | backend/src/main/java/dankok/trading212/auto_trading_bot/services/CryptoDataService.java:67-74 | a client error's message is the rate-limit text iff the exception message contains "429" or "rate limit"; otherwise it contains the exception message |
| CryptoDataService.ServicePrefixesStartWithE | backend/src/main/java/dankok/trading212/auto_trading_bot/services/CryptoDataService.java:107-114 | both error prefixes qualify for the rate-limit lemma |
| CryptoDataService.ExtractPrices | backend/src/main/java/dankok/trading212/auto_trading_bot/services/CryptoDataService.java:93-98 | every output price is element [1] of a well-formed entry (a list of at least two items with a numeric [1]), and every well-formed entry's price is in the output |
| CryptoDataService.ExtractPricesAppend | backend/src/main/java/dankok/trading212/auto_trading_bot/services/CryptoDataService.java:93-98 | extraction works entry by entry in order: it distributes over concatenation |
| CryptoDataService.ExtractPricesAllValid | backend/src/main/java/dankok/trading212/auto_trading_bot/services/CryptoDataService.java:93-98 | a list of only well-formed entries yields one price per entry, in order |
| CryptoDataService.FetchHistoricalPricesWithMetadata | backend/src/main/java/dankok/trading212/auto_trading_bot/services/CryptoDataService.java:81-119 | success iff the body has a "prices" list; then the extracted prices with actualDays = their count; otherwise no prices, actualDays 0 and the code's message for a missing list, a client error (rate-limit mapped) or another exception |
| CryptoDataService.FetchHistoricalPrices | backend/src/main/java/dankok/trading212/auto_trading_bot/services/CryptoDataService.java:121-124 | the extracted prices, or empty when the fetch failed |
| CryptoDataService.HasSufficientData | backend/src/main/java/dankok/trading212/auto_trading_bot/services/CryptoDataService.java:134-137 | true iff the fetch succeeded and extracted at least requiredDays prices |
| CryptoDataService.SufficientIffEnoughPoints | backend/src/main/java/dankok/trading212/auto_trading_bot/services/CryptoDataService.java:134-137 | with only well-formed entries, sufficiency is entry count >= requiredDays |
| CryptoDataService.FetchPrices | backend/src/main/java/dankok/trading212/auto_trading_bot/services/CryptoDataService.java:33-79 | a null or empty body fails with "No price data received from API"; client and other errors fail with the code's messages; otherwise success with exactly the coins whose value is a map with a numeric "usd", mapped to that number |
| CryptoDataService.GetCurrentPrice | backend/src/main/java/dankok/trading212/auto_trading_bot/services/CryptoDataService.java:126-132 | a price iff the fetch succeeded and quoted the coin in usd, and then that quote |
| CryptoDataService.ApiKeyType | backend/src/main/java/dankok/trading212/auto_trading_bot/services/CryptoDataService.java:143-151 | one of the three tiers; "Demo" iff a key starting "CG-" longer than 20 characters |
| CryptoDataService.IsUsingApiKey | backend/src/main/java/dankok/trading212/auto_trading_bot/services/CryptoDataService.java:139-151 | a key is in use iff getApiKeyType reports a paid tier rather than "None (Free tier)" |
| CryptoDataService.DemoKeyShape | backend/src/main/java/dankok/trading212/auto_trading_bot/services/CryptoDataService.java:143-151 | a "CG-" key is Demo when longer than 20 characters and Pro otherwise |
| TradingBotService.AnalyzeOutcome | backend/src/main/java/dankok/trading212/auto_trading_bot/services/TradingBotService.java:98-153 | analyzeCoin as a function of the account, the bot state, the coin and its fetched prices: the analysis names its coin (the signal, averages, trade and account change are stated by AnalyzeRules) |
| TradingBotService.AnalyzeRules | backend/src/main/java/dankok/trading212/auto_trading_bot/services/TradingBotService.java:98-153 | under 50 prices: NONE, zero price and averages, no trade, account unchanged; otherwise the last price and both averages are reported; BUY iff short > long, SELL iff short < long, HOLD iff equal; a trade result iff BUY or SELL; live TRADING books executeBuyTrade(1, coin, price, 10) or executeSellTrade(1, coin, price); TRAINING attaches the simulated result; only live TRADING touches the account; an inactive TRADING run gets the on-hold result for its BUY or SELL: success false, quantity and value 0, the current price and the on-hold message |
| TradingBotService.ActiveAnalysisNeverHeld | backend/src/main/java/dankok/trading212/auto_trading_bot/services/TradingBotService.java:118-145 | with the bot active the "bot is on hold" result is never attached |
| TradingBotService.LiveTradeNeverHeld | backend/src/main/java/dankok/trading212/auto_trading_bot/services/TradingBotService.java:118-136 | a live buy or sell attaches the executor's result, whose message (failure, no holdings or the trade report) is never the on-hold text |
| TradingBotService.AnalyzeCoin | backend/src/main/java/dankok/trading212/auto_trading_bot/services/TradingBotService.java:98-153 | the method leaves the ledger and analysis that AnalyzeOutcome gives |
| TradingBotService.CountsBounded | backend/src/main/java/dankok/trading212/auto_trading_bot/services/TradingBotService.java:49-54 | successfulTrades <= totalSignals <= number of coins |
| TradingBotService.CountsStep | backend/src/main/java/dankok/trading212/auto_trading_bot/services/TradingBotService.java:49-54 | one more analysis adds 1 to the signals iff it has a trade result, and 1 to the successes iff that result succeeded |
| TradingBotService.RunOutcome | backend/src/main/java/dankok/trading212/auto_trading_bot/services/TradingBotService.java:45-47 | one analysis per coin, in input order, each naming its coin |
| TradingBotService.TrainingRunLeavesLedger | backend/src/main/java/dankok/trading212/auto_trading_bot/services/TradingBotService.java:121-140 | a TRAINING run never changes the account |
| TradingBotService.TrainingAnalysisRules | backend/src/main/java/dankok/trading212/auto_trading_bot/services/TradingBotService.java:121-140 | one TRAINING analysis keeps the account, and any simulated trade it attaches is a success |
| TradingBotService.TrainingSignalsAllSucceed | backend/src/main/java/dankok/trading212/auto_trading_bot/services/TradingBotService.java:121-140 | in a TRAINING run every signal counts as a successful trade |
| TradingBotService.RunNeverHeld | backend/src/main/java/dankok/trading212/auto_trading_bot/services/TradingBotService.java:118-145 | no analysis of a run carries the on-hold result, since a run only proceeds when ACTIVE |
| TradingBotService.SuspendedSummaryReportsStatus | backend/src/main/java/dankok/trading212/auto_trading_bot/services/TradingBotService.java:36-37 | the suspended summary contains the status and "Trading suspended" |
| TradingBotService.AnalyzeNext | backend/src/main/java/dankok/trading212/auto_trading_bot/services/TradingBotService.java:45-55 | one pass of the loop extends the run by one analysis and the counters by what it carries |
| TradingBotService.ExecuteTradingLogic | backend/src/main/java/dankok/trading212/auto_trading_bot/services/TradingBotService.java:34-62 | not active: no analyses, success false, the suspended summary, ledger unchanged; active: the ledger and analyses are RunOutcome's, success true, and the summary reports the mode, the coin count and the two counters |
| TradingBotService.ReturnMessageText | backend/src/main/java/dankok/trading212/auto_trading_bot/services/TradingBotService.java:85-87 | the return line starts "Return: ", prints the percentage with two decimals then "%, Trades: " and the trade count, and prints "NaN" when there is no percentage |
| TradingBotService.BacktestAnalysis | backend/src/main/java/dankok/trading212/auto_trading_bot/services/TradingBotService.java:70-89 | a BACKTEST analysis whose status is the backtest's summary and whose BACKTEST_SUMMARY result carries its success, quantity = totalTrades and value = totalReturn |
| TradingBotService.FailedFetchTrainsNothing | backend/src/main/java/dankok/trading212/auto_trading_bot/services/TradingBotService.java:64-90 | a coin whose history fetch failed gets a failed BACKTEST analysis reporting insufficient data, 0 trades and return 0 |
| TradingBotService.RunTrainingOnHistoricalData | backend/src/main/java/dankok/trading212/auto_trading_bot/services/TradingBotService.java:64-96 | success, the summary with the coin count and days, and exactly one BacktestAnalysis of a 1000.0 backtest per coin, in order |
| TradingBotService.TrainAll | backend/src/main/java/dankok/trading212/auto_trading_bot/services/TradingBotService.java:65-90 | the loop gives one BacktestAnalysis of a 1000.0 backtest per coin, in coin order |
| TradingBotService.TrainCoin | backend/src/main/java/dankok/trading212/auto_trading_bot/services/TradingBotService.java:68-89 | one iteration's analysis is the BacktestAnalysis of that coin's 1000.0 backtest |

## Left out

- HTTP and persistence are not modelled. The CoinGecko request and the URL built from the
  coin ids are absent. The HTTP reply is the input `Reply`, and each coin's fetched price
  list is an input of a run. The `savePrice` side effect of fetchPrices, with its logged
  failure, is left out.
- The SQL repositories are not modelled. The ledger is one account held in memory, the
  account passed as `1`. Other accounts and the JDBC layer are left out.
- Timestamps: `LocalDateTime.now()` is an integer clock `now`, in seconds, and
  `now.minusDays(days)` is `now - days * 86400`. getStatusSummary prints the stamp in
  decimal rather than in ISO form.
- Floating point: money and prices are `real`. Java's NaN percentage for a backtest starting
  from 0 is `None`, which renders "NaN"; `BacktestTradeRules` proves that case is 0/0 and
  never an infinity. Rounding, overflow and infinities of `double` are not modelled.
- `String.format` text: formatted messages are kept as pieces (literal text and a number
  with its decimals) rather than as strings. The fixed literals are exact; the numbers are
  rendered as in a '.'-separator locale (see the next line).
- Locale: `String.format` in BacktestService.java:65, TradingBotService.java:85 and
  TradeExecutorService.java:40 and :64 uses the JVM default locale. The model assumes a locale
  whose decimal separator is '.' and whose digits are ASCII (Locale.ROOT, Locale.US); under
  a locale such as de_DE Java prints "12,34" where the model prints "12.34".
- TradeExecutorService.ExecuteBuyTrade: requires a positive price, whereas Java's division
  would give an infinite or NaN quantity.
- TradeExecutorService.BuyOutcome: requires a positive price, for the same reason.
- TradingBotService.AnalyzeCoin: requires every fetched price to be positive. The code
  divides by the last one in TRAINING and in the executor.
- TradingBotService.ExecuteTradingLogic: requires positive fetched prices, as AnalyzeCoin.
- TradingBotService.RunTrainingOnHistoricalData: requires positive fetched prices, as the
  backtest divides by the day's price when it buys.
- BacktestService.RunBacktest: requires positive fetched prices, for the same reason.
- BacktestService.BacktestOutcome: requires positive fetched prices, for the same reason.
- TradingBotService.RunTrainingOnHistoricalData: each coin's history is the price list the
  fetch returned. A fetch that raises an exception (the `FetchFailed` path of `RunBacktest`) does not arise
  there, because fetchHistoricalPrices catches every exception; `FailedFetchTrainsNothing`
  covers the empty list it returns instead.
- The on-hold branch of analyzeCoin is modelled, but as `RunNeverHeld` proves, a run never
  reaches it.
- Exception messages are strings. A `null` message is not modelled, so neither is the
  NullPointerException that `e.getMessage().contains(...)` would raise in the rate-limit
  check.
- The TradingMode enum's source is not part of this model. It is taken to have exactly the
  values TRADING and TRAINING, named as such.
- `CoinAnalysis` is a value, and `setTradeResult` becomes an updated copy.
- Concurrency is not modelled. BotStateService is an unsynchronised singleton; races
  between a run and a status change are left out.
- Where the repository's tests expect something the code does not do, the model follows the
  code:
  - executeBuyTrade (TradeExecutorService.java:22-46) never checks the balance, so a buy
    larger than the balance succeeds (`BuyCanOverdraw`), whereas
    TradeExecutorServiceTest.java:58-91 expects "Insufficient balance for purchase" and no
    writes;
  - executeSellTrade (TradeExecutorService.java:48-71) logs the SELL row without a
    profit/loss and never reads an average buy price, whereas
    TradeExecutorServiceTest.java:109-133 expects insertTradeWithProfitLoss with one.
- BotStateService.java:33-43 replaces only a `null` reason with the default text; an empty
  reason is stored as given (`EmptyReasonKept`). BotStateServiceTest.java:53-77 checks only
  the `null` case.
- TradingBotService.java:49-54 counts a signal for every analysis that carries a trade result
  (BUY or SELL, in either mode) and a success when that result succeeded; the model counts
  the same way (`CountsStep`).
- TradeExecutorService.ExecuteBuyTrade and ExecuteSellTrade, and every member built on them,
  model the all-or-nothing behaviour the transaction is meant to give. The behaviour as
  written is under Findings.

## Findings

| source | as written | input that shows it | evidently intended | confidence | as-written member | corrected member |
|---|---|---|---|---|---|---|
| backend/src/main/java/dankok/trading212/auto_trading_bot/services/TradeExecutorService.java:22-46 | the catch-all inside the `@Transactional` method swallows the exception, so the transaction commits the writes already made | insertTrade raises after the debit and the holding update: the result says the buy failed, but the balance is debited and the coins are held with no BUY row | a failed buy leaves the ledger as it was | medium (Spring rolls back only on an exception that leaves the method); not executed | TradeExecutorService.FailedBuyKeepsDebit | TradeExecutorService.AllOrNothing |
| backend/src/main/java/dankok/trading212/auto_trading_bot/services/TradeExecutorService.java:48-71 | same catch-all inside the `@Transactional` method | deleteHolding raises after the credit: the result says the sell failed, but the sale value is credited and the position is still held, so it can be sold again | a failed sell leaves the ledger as it was | medium (same reason); not executed | TradeExecutorService.FailedSellKeepsCredit | TradeExecutorService.AllOrNothing |
