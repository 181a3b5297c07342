/**
 * TradeExecutorService: a live buy or sell against one account's ledger (cash balance,
 * holdings by symbol, trade log), which CryptoRepository keeps in SQL.
 *
 * The repository calls are pure steps on an Account value and methods of the Ledger
 * class that mirror them. Each executor operation is meant to run its steps as one
 * transaction: `failure` is None when every repository call succeeds, Some(message) when
 * one of them raises; the catch-all then reports a failed trade and the ledger is as it
 * was. BuyAsWritten and SellAsWritten show what the code commits instead, because its
 * catch-all keeps the exception from rolling the transaction back.
 */
module TradeExecutorService {
  import opened Wrappers
  import opened Text
  import opened Dtos

  /** One row of the trades table; profitLoss is always null in what the executor writes. */
  datatype TradeRecord = TradeRecord(
    timestamp: int,
    accountId: int,
    action: TradeAction,
    symbol: string,
    quantity: real,
    price: real,
    profitLoss: Option<real>)

  /** The account's stored state: cash balance, holdings by symbol and trade log. */
  datatype Account = Account(balance: real, holdings: map<string, real>, trades: seq<TradeRecord>)

  // ---- CryptoRepository's calls as steps on an Account ----

  /** updateAccountBalance: balance = balance + amount. */
  function AdjustBalance(a: Account, amount: real): Account {
    a.(balance := a.balance + amount)
  }

  /** getHoldingsCount: how many holding rows the symbol has (at most one here). */
  function HoldingsCount(a: Account, symbol: string): nat {
    if symbol in a.holdings then 1 else 0
  }

  /** updateHoldingsQuantity: quantity = quantity + delta on the symbol's row. */
  function AddToHolding(a: Account, symbol: string, delta: real): Account
    requires symbol in a.holdings
  {
    a.(holdings := a.holdings[symbol := a.holdings[symbol] + delta])
  }

  /** insertHolding: a new row for the symbol. */
  function InsertHolding(a: Account, symbol: string, quantity: real): Account {
    a.(holdings := a.holdings[symbol := quantity])
  }

  /** getHoldingQuantity: the symbol's quantity, null when it has no row. */
  function HoldingQuantity(a: Account, symbol: string): Option<real> {
    if symbol in a.holdings then Some(a.holdings[symbol]) else None
  }

  /** deleteHolding: the symbol's row is gone. */
  function DeleteHolding(a: Account, symbol: string): Account {
    a.(holdings := a.holdings - {symbol})
  }

  /** insertTrade: one more row in the trade log. */
  function InsertTrade(a: Account, record: TradeRecord): Account {
    a.(trades := a.trades + [record])
  }

  // ---- The executor's operations on values ----

  /**
   * executeBuyTrade as a function of the account before it: quantity = amount / price,
   * the balance is debited by the amount with no check that it covers it, the holding
   * grows by the quantity (a row is created when there is none), one BUY row with no
   * profit/loss is logged, and the result reports the quantity and the amount.
   */
  function BuyOutcome(a: Account, accountId: int, symbol: string, currentPrice: real,
                      amountToInvest: real, now: int, failure: Option<string>): (out: (Account, TradeResult))
    requires currentPrice > 0.0
    ensures failure.Some? ==> out.0 == a && out.1 == FailedTrade(TradeAction.Buy, currentPrice, "Failed to execute buy trade: " + failure.value)
    ensures failure.None? ==>
      var quantity := amountToInvest / currentPrice;
      && out.1.success && out.1.action == TradeAction.Buy
      && out.1.quantity == quantity && out.1.price == currentPrice && out.1.totalValue == amountToInvest
      && out.0.balance == a.balance - amountToInvest
      && out.0.holdings == a.holdings[symbol := Held(a, symbol) + quantity]
      && out.0.trades == a.trades + [TradeRecord(now, accountId, TradeAction.Buy, symbol, quantity, currentPrice, None)]
  {
    if failure.Some? then
      (a, FailedTrade(TradeAction.Buy, currentPrice, "Failed to execute buy trade: " + failure.value))
    else
      var quantity := amountToInvest / currentPrice;
      var debited := AdjustBalance(a, -amountToInvest);
      var held := if HoldingsCount(debited, symbol) > 0 then AddToHolding(debited, symbol, quantity)
                  else InsertHolding(debited, symbol, quantity);
      var logged := InsertTrade(held, TradeRecord(now, accountId, TradeAction.Buy, symbol, quantity, currentPrice, None));
      (logged, TradeResult(true, TradeAction.Buy, quantity, currentPrice, amountToInvest,
        BoughtMessage(quantity, symbol, amountToInvest)))
  }

  /**
   * executeSellTrade as a function of the account before it: with no holding row or a
   * quantity <= 0 nothing changes and the trade fails; otherwise the whole holding is sold,
   * the balance is credited quantity * price, the row is deleted, one SELL row with no
   * profit/loss is logged, and the result reports the quantity and the sale value.
   */
  function SellOutcome(a: Account, accountId: int, symbol: string, currentPrice: real,
                       now: int, failure: Option<string>): (out: (Account, TradeResult))
    ensures failure.Some? ==> out.0 == a && out.1 == FailedTrade(TradeAction.Sell, currentPrice, "Failed to execute sell trade: " + failure.value)
    ensures failure.None? && !HasPosition(a, symbol) ==>
      out.0 == a && out.1 == FailedTrade(TradeAction.Sell, currentPrice,
        "Cannot sell: No holdings for " + symbol + " in account " + IntToString(accountId))
    ensures failure.None? && HasPosition(a, symbol) ==>
      var quantity := a.holdings[symbol];
      && out.1.success && out.1.action == TradeAction.Sell
      && out.1.quantity == quantity && out.1.price == currentPrice && out.1.totalValue == quantity * currentPrice
      && out.0.balance == a.balance + quantity * currentPrice
      && out.0.holdings == a.holdings - {symbol}
      && out.0.trades == a.trades + [TradeRecord(now, accountId, TradeAction.Sell, symbol, quantity, currentPrice, None)]
  {
    if failure.Some? then
      (a, FailedTrade(TradeAction.Sell, currentPrice, "Failed to execute sell trade: " + failure.value))
    else
      var quantityToSell := HoldingQuantity(a, symbol);
      if quantityToSell.None? || quantityToSell.value <= 0.0 then
        (a, FailedTrade(TradeAction.Sell, currentPrice,
          "Cannot sell: No holdings for " + symbol + " in account " + IntToString(accountId)))
      else
        var quantity := quantityToSell.value;
        var saleValue := quantity * currentPrice;
        var credited := AdjustBalance(a, saleValue);
        var emptied := DeleteHolding(credited, symbol);
        var logged := InsertTrade(emptied, TradeRecord(now, accountId, TradeAction.Sell, symbol, quantity, currentPrice, None));
        (logged, TradeResult(true, TradeAction.Sell, quantity, currentPrice, saleValue,
          SoldMessage(quantity, symbol, saleValue)))
  }

  /** The quantity held of a symbol, 0 when it has no row. */
  function Held(a: Account, symbol: string): real {
    if symbol in a.holdings then a.holdings[symbol] else 0.0
  }

  /** The account holds a positive quantity of the symbol. */
  predicate HasPosition(a: Account, symbol: string) {
    symbol in a.holdings && a.holdings[symbol] > 0.0
  }

  /** Every failed trade reports quantity 0 and value 0 at the quoted price. */
  function FailedTrade(action: TradeAction, currentPrice: real, message: string): TradeResult {
    TradeResult(false, action, 0.0, currentPrice, 0.0, Plain(message))
  }

  /** "Successfully bought %.6f %s for $%.2f" */
  function BoughtMessage(quantity: real, symbol: string, amount: real): Message {
    [Lit("Successfully bought "), Fixed(quantity, 6), Lit(" " + symbol + " for $"), Fixed(amount, 2)]
  }

  /** "Successfully sold %.6f %s for $%.2f" */
  function SoldMessage(quantity: real, symbol: string, saleValue: real): Message {
    [Lit("Successfully sold "), Fixed(quantity, 6), Lit(" " + symbol + " for $"), Fixed(saleValue, 2)]
  }

  // ---- The ledger object the executor mutates ----

  class Ledger {
    const accountId: int
    var balance: real
    var holdings: map<string, real>
    var trades: seq<TradeRecord>

    function State(): Account
      reads this
    {
      Account(balance, holdings, trades)
    }

    constructor (accountId: int, initial: Account)
      ensures this.accountId == accountId && State() == initial
    {
      this.accountId := accountId;
      balance := initial.balance;
      holdings := initial.holdings;
      trades := initial.trades;
    }

    method UpdateAccountBalance(amount: real)
      modifies this
      ensures State() == AdjustBalance(old(State()), amount)
    {
      balance := balance + amount;
    }

    method GetHoldingsCount(symbol: string) returns (count: nat)
      ensures count == HoldingsCount(State(), symbol)
    {
      count := if symbol in holdings then 1 else 0;
    }

    method UpdateHoldingsQuantity(symbol: string, delta: real)
      requires symbol in holdings
      modifies this
      ensures State() == AddToHolding(old(State()), symbol, delta)
    {
      holdings := holdings[symbol := holdings[symbol] + delta];
    }

    method InsertHoldingRow(symbol: string, quantity: real)
      modifies this
      ensures State() == InsertHolding(old(State()), symbol, quantity)
    {
      holdings := holdings[symbol := quantity];
    }

    method GetHoldingQuantity(symbol: string) returns (quantity: Option<real>)
      ensures quantity == HoldingQuantity(State(), symbol)
    {
      quantity := if symbol in holdings then Some(holdings[symbol]) else None;
    }

    method DeleteHoldingRow(symbol: string)
      modifies this
      ensures State() == DeleteHolding(old(State()), symbol)
    {
      holdings := holdings - {symbol};
    }

    method InsertTradeRow(record: TradeRecord)
      modifies this
      ensures State() == InsertTrade(old(State()), record)
    {
      trades := trades + [record];
    }
  }

  /** executeBuyTrade: runs the repository calls in order against the ledger. */
  method ExecuteBuyTrade(ledger: Ledger, symbol: string, currentPrice: real, amountToInvest: real,
                         now: int, failure: Option<string>) returns (r: TradeResult)
    requires currentPrice > 0.0
    modifies ledger
    ensures (ledger.State(), r) == BuyOutcome(old(ledger.State()), ledger.accountId, symbol, currentPrice, amountToInvest, now, failure)
  {
    if failure.Some? {
      // a repository call raised: all-or-nothing, nothing is written
      return FailedTrade(TradeAction.Buy, currentPrice, "Failed to execute buy trade: " + failure.value);
    }
    var quantity := amountToInvest / currentPrice;
    ghost var a := ledger.State();
    ledger.UpdateAccountBalance(-amountToInvest);
    ghost var debited := ledger.State();
    assert debited == AdjustBalance(a, -amountToInvest);
    var count := ledger.GetHoldingsCount(symbol);
    if count > 0 {
      ledger.UpdateHoldingsQuantity(symbol, quantity);
    } else {
      ledger.InsertHoldingRow(symbol, quantity);
    }
    assert ledger.State() == if HoldingsCount(debited, symbol) > 0 then AddToHolding(debited, symbol, quantity)
                             else InsertHolding(debited, symbol, quantity);
    ledger.InsertTradeRow(TradeRecord(now, ledger.accountId, TradeAction.Buy, symbol, quantity, currentPrice, None));
    r := TradeResult(true, TradeAction.Buy, quantity, currentPrice, amountToInvest,
      BoughtMessage(quantity, symbol, amountToInvest));
  }

  /** executeSellTrade: runs the repository calls in order against the ledger. */
  method ExecuteSellTrade(ledger: Ledger, symbol: string, currentPrice: real,
                          now: int, failure: Option<string>) returns (r: TradeResult)
    modifies ledger
    ensures (ledger.State(), r) == SellOutcome(old(ledger.State()), ledger.accountId, symbol, currentPrice, now, failure)
  {
    if failure.Some? {
      // a repository call raised: all-or-nothing, nothing is written
      return FailedTrade(TradeAction.Sell, currentPrice, "Failed to execute sell trade: " + failure.value);
    }
    var quantityToSell := ledger.GetHoldingQuantity(symbol);
    if quantityToSell.None? || quantityToSell.value <= 0.0 {
      return FailedTrade(TradeAction.Sell, currentPrice,
        "Cannot sell: No holdings for " + symbol + " in account " + IntToString(ledger.accountId));
    }
    var quantity := quantityToSell.value;
    var saleValue := quantity * currentPrice;
    ghost var a := ledger.State();
    ledger.UpdateAccountBalance(saleValue);
    ledger.DeleteHoldingRow(symbol);
    ghost var emptied := ledger.State();
    assert emptied == DeleteHolding(AdjustBalance(a, saleValue), symbol);
    ledger.InsertTradeRow(TradeRecord(now, ledger.accountId, TradeAction.Sell, symbol, quantity, currentPrice, None));
    r := TradeResult(true, TradeAction.Sell, quantity, currentPrice, saleValue,
      SoldMessage(quantity, symbol, saleValue));
  }

  // ---- The operations as the catch-all actually behaves ----

  /**
   * A repository call that raised, after `completedWrites` of the operation's writes had
   * gone through, and the exception's message.
   */
  datatype Fault = Fault(completedWrites: nat, message: string)

  /**
   * executeBuyTrade as written: the catch-all sits inside the @Transactional method, so the
   * exception never reaches the transaction boundary and the writes made before it (the
   * debit, then the holding) are committed. The trade insert is the last call, so at most
   * two writes precede a raising call; a larger count means both.
   */
  function BuyAsWritten(a: Account, accountId: int, symbol: string, currentPrice: real,
                        amountToInvest: real, now: int, fault: Option<Fault>): (out: (Account, TradeResult))
    requires currentPrice > 0.0
    ensures fault.Some? ==>
              out.1 == FailedTrade(TradeAction.Buy, currentPrice, "Failed to execute buy trade: " + fault.value.message)
  {
    if fault.None? then BuyOutcome(a, accountId, symbol, currentPrice, amountToInvest, now, None)
    else
      var quantity := amountToInvest / currentPrice;
      var debited := if fault.value.completedWrites >= 1 then AdjustBalance(a, -amountToInvest) else a;
      var held := if fault.value.completedWrites < 2 then debited
                  else if HoldingsCount(debited, symbol) > 0 then AddToHolding(debited, symbol, quantity)
                  else InsertHolding(debited, symbol, quantity);
      (held, FailedTrade(TradeAction.Buy, currentPrice, "Failed to execute buy trade: " + fault.value.message))
  }

  /**
   * executeSellTrade as written: the credit, then the holding's deletion, are committed when
   * a later call raises. Without a position the method returns before any write, so only its
   * read can raise there.
   */
  function SellAsWritten(a: Account, accountId: int, symbol: string, currentPrice: real,
                         now: int, fault: Option<Fault>): (out: (Account, TradeResult))
    ensures fault.Some? ==>
              out.1 == FailedTrade(TradeAction.Sell, currentPrice, "Failed to execute sell trade: " + fault.value.message)
  {
    if fault.None? then SellOutcome(a, accountId, symbol, currentPrice, now, None)
    else if fault.value.completedWrites == 0 || !HasPosition(a, symbol) then
      SellOutcome(a, accountId, symbol, currentPrice, now, Some(fault.value.message))
    else
      var saleValue := a.holdings[symbol] * currentPrice;
      var credited := AdjustBalance(a, saleValue);
      var emptied := if fault.value.completedWrites >= 2 then DeleteHolding(credited, symbol) else credited;
      (emptied, FailedTrade(TradeAction.Sell, currentPrice, "Failed to execute sell trade: " + fault.value.message))
  }

  /**
   * With no fault, or a fault before any write, the code as written and the all-or-nothing
   * operations agree.
   */
  lemma AsWrittenAgreesBeforeAnyWrite(a: Account, accountId: int, symbol: string, price: real,
                                      amount: real, now: int, message: string)
    requires price > 0.0
    ensures BuyAsWritten(a, accountId, symbol, price, amount, now, None) == BuyOutcome(a, accountId, symbol, price, amount, now, None)
    ensures BuyAsWritten(a, accountId, symbol, price, amount, now, Some(Fault(0, message)))
              == BuyOutcome(a, accountId, symbol, price, amount, now, Some(message))
    ensures SellAsWritten(a, accountId, symbol, price, now, None) == SellOutcome(a, accountId, symbol, price, now, None)
    ensures SellAsWritten(a, accountId, symbol, price, now, Some(Fault(0, message)))
              == SellOutcome(a, accountId, symbol, price, now, Some(message))
  {
  }

  /**
   * A buy whose trade insert raises is reported as failed, yet the debit and the holding
   * stay committed and no BUY row records them.
   */
  lemma FailedBuyKeepsDebit(a: Account, accountId: int, symbol: string, price: real,
                            amount: real, now: int, message: string)
    requires price > 0.0 && amount > 0.0
    ensures var (after, r) := BuyAsWritten(a, accountId, symbol, price, amount, now, Some(Fault(2, message)));
            && !r.success
            && after.balance == a.balance - amount && after.balance != a.balance
            && after.holdings == a.holdings[symbol := Held(a, symbol) + amount / price]
            && after.trades == a.trades
  {
  }

  /**
   * A sell whose holding deletion raises is reported as failed, yet the sale value stays
   * credited while the position is still held: the same coins can be sold again.
   */
  lemma FailedSellKeepsCredit(a: Account, accountId: int, symbol: string, price: real, now: int, message: string)
    requires price > 0.0 && HasPosition(a, symbol)
    ensures var (after, r) := SellAsWritten(a, accountId, symbol, price, now, Some(Fault(1, message)));
            && !r.success
            && after.balance == a.balance + a.holdings[symbol] * price && after.balance > a.balance
            && after.holdings == a.holdings
            && after.trades == a.trades
  {
    assert a.holdings[symbol] * price > 0.0;
  }

  // ---- Properties ----

  /**
   * Buying `amount` at `price` with no prior holding and then selling at the same price
   * gives the balance back exactly, leaves the holdings as they were and logs two rows.
   */
  lemma BuyThenSellRestoresBalance(a: Account, accountId: int, symbol: string, price: real,
                                   amount: real, bought: int, sold: int)
    requires price > 0.0 && amount > 0.0
    requires symbol !in a.holdings
    ensures var (afterBuy, buy) := BuyOutcome(a, accountId, symbol, price, amount, bought, None);
            var (afterSell, sell) := SellOutcome(afterBuy, accountId, symbol, price, sold, None);
            && buy.success && sell.success
            && sell.quantity == buy.quantity && sell.totalValue == amount
            && afterSell.balance == a.balance
            && afterSell.holdings == a.holdings
            && afterSell.trades[..|a.trades|] == a.trades && |afterSell.trades| == |a.trades| + 2
  {
    var (afterBuy, buy) := BuyOutcome(a, accountId, symbol, price, amount, bought, None);
    var quantity := amount / price;
    assert quantity > 0.0;
    assert quantity * price == amount;
    assert afterBuy.holdings == a.holdings[symbol := quantity];
    assert afterBuy.holdings - {symbol} == a.holdings;
  }

  /** Neither operation touches the holding of any other symbol, nor rewrites earlier trade rows. */
  lemma OtherSymbolsUntouched(a: Account, accountId: int, symbol: string, other: string,
                              price: real, amount: real, now: int, failure: Option<string>)
    requires price > 0.0
    requires other != symbol
    ensures var afterBuy := BuyOutcome(a, accountId, symbol, price, amount, now, failure).0;
            && (other in afterBuy.holdings <==> other in a.holdings)
            && (other in a.holdings ==> afterBuy.holdings[other] == a.holdings[other])
            && afterBuy.trades[..|a.trades|] == a.trades
            && forall k :: |a.trades| <= k < |afterBuy.trades| ==> afterBuy.trades[k].symbol == symbol
    ensures var afterSell := SellOutcome(a, accountId, symbol, price, now, failure).0;
            && (other in afterSell.holdings <==> other in a.holdings)
            && (other in a.holdings ==> afterSell.holdings[other] == a.holdings[other])
            && afterSell.trades[..|a.trades|] == a.trades
            && forall k :: |a.trades| <= k < |afterSell.trades| ==> afterSell.trades[k].symbol == symbol
  {
  }

  /**
   * Either operation changes the ledger completely or not at all: when it reports failure
   * the account is exactly as before, and when it reports success the balance, the holding
   * and the log have all moved.
   */
  lemma AllOrNothing(a: Account, accountId: int, symbol: string, price: real, amount: real,
                     now: int, failure: Option<string>)
    requires price > 0.0
    ensures var (afterBuy, buy) := BuyOutcome(a, accountId, symbol, price, amount, now, failure);
            && (!buy.success <==> failure.Some?)
            && (!buy.success ==> afterBuy == a && buy.quantity == 0.0 && buy.totalValue == 0.0)
            && (buy.success ==> |afterBuy.trades| == |a.trades| + 1 && symbol in afterBuy.holdings)
    ensures var (afterSell, sell) := SellOutcome(a, accountId, symbol, price, now, failure);
            && (!sell.success <==> failure.Some? || !HasPosition(a, symbol))
            && (!sell.success ==> afterSell == a && sell.quantity == 0.0 && sell.totalValue == 0.0)
            && (sell.success ==> |afterSell.trades| == |a.trades| + 1 && symbol !in afterSell.holdings)
  {
  }

  /** There is no balance guard on a buy: it goes through even when it overdraws the account. */
  lemma BuyCanOverdraw(a: Account, accountId: int, symbol: string, price: real, amount: real, now: int)
    requires price > 0.0
    requires a.balance < amount
    ensures var (after, r) := BuyOutcome(a, accountId, symbol, price, amount, now, None);
            r.success && after.balance < 0.0
  {
  }
}
