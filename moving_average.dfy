/**
 * The moving-average crossover rule. TradingBotService and BacktestService each carry an
 * identical private calculateSMA; both use CalculateSma here.
 */
module MovingAverage {
  import opened Dtos

  const SHORT_TERM_PERIOD: nat := 10
  const LONG_TERM_PERIOD: nat := 50

  function Sum(s: seq<real>): real
    decreases |s|
  {
    if s == [] then 0.0 else s[0] + Sum(s[1..])
  }

  /** Every price is strictly positive. */
  predicate AllPositive(prices: seq<real>) {
    forall k :: 0 <= k < |prices| ==> prices[k] > 0.0
  }

  /**
   * calculateSMA: the arithmetic mean of the last `period` prices, and 0 when there are
   * fewer prices than that (or none are averaged, where Java's average() falls back to 0).
   */
  function CalculateSma(prices: seq<real>, period: nat): (r: real)
    ensures period > |prices| ==> r == 0.0
  {
    if period > |prices| || period == 0 then 0.0
    else Sum(prices[|prices| - period..]) / period as real
  }

  /** With enough prices, the moving average times the period is the sum of the last `period` prices. */
  lemma SmaIsMeanOfLastPrices(prices: seq<real>, period: nat)
    requires 0 < period <= |prices|
    ensures CalculateSma(prices, period) * period as real == Sum(prices[|prices| - period..])
  {
  }

  /** The comparison analyzeCoin and the backtest loop make between the two averages. */
  function Crossover(shortSma: real, longSma: real): (s: TradingSignal)
    ensures s == TradingSignal.Buy <==> shortSma > longSma
    ensures s == TradingSignal.Sell <==> shortSma < longSma
    ensures s == TradingSignal.Hold <==> shortSma == longSma
  {
    if shortSma > longSma then TradingSignal.Buy
    else if shortSma < longSma then TradingSignal.Sell
    else TradingSignal.Hold
  }

  /** A sum of values all at least `lo` is at least |s|*lo. */
  lemma {:induction false} SumAtLeast(s: seq<real>, lo: real)
    requires forall k :: 0 <= k < |s| ==> lo <= s[k]
    ensures |s| as real * lo <= Sum(s)
    decreases |s|
  {
    if s != [] {
      SumAtLeast(s[1..], lo);
    }
  }

  /** A sum of values all at most `hi` is at most |s|*hi. */
  lemma {:induction false} SumAtMost(s: seq<real>, hi: real)
    requires forall k :: 0 <= k < |s| ==> s[k] <= hi
    ensures Sum(s) <= |s| as real * hi
    decreases |s|
  {
    if s != [] {
      SumAtMost(s[1..], hi);
    }
  }

  /** A non-empty sum of values all below `hi` is below |s|*hi. */
  lemma {:induction false} SumStrictlyBelow(s: seq<real>, hi: real)
    requires |s| > 0
    requires forall k :: 0 <= k < |s| ==> s[k] < hi
    ensures Sum(s) < |s| as real * hi
    decreases |s|
  {
    if |s| > 1 {
      SumStrictlyBelow(s[1..], hi);
    }
  }

  lemma {:induction false} SumAppend(a: seq<real>, b: seq<real>)
    ensures Sum(a + b) == Sum(a) + Sum(b)
    decreases |a|
  {
    if a == [] {
      assert a + b == b;
    } else {
      assert (a + b)[1..] == a[1..] + b;
      SumAppend(a[1..], b);
    }
  }

  /** The moving average lies between the least and the greatest price of its window. */
  lemma SmaWithinWindow(prices: seq<real>, period: nat, lo: real, hi: real)
    requires 0 < period <= |prices|
    requires forall k :: |prices| - period <= k < |prices| ==> lo <= prices[k] <= hi
    ensures lo <= CalculateSma(prices, period) <= hi
  {
    var w := prices[|prices| - period..];
    forall k | 0 <= k < |w| ensures lo <= w[k] <= hi { assert w[k] == prices[|prices| - period + k]; }
    SumAtLeast(w, lo);
    SumAtMost(w, hi);
    MeanBetween(Sum(w), period as real, lo, hi);
  }

  /** Dividing a total that lies between n*lo and n*hi by n lands between lo and hi. */
  lemma MeanBetween(total: real, n: real, lo: real, hi: real)
    requires n > 0.0
    requires n * lo <= total <= n * hi
    ensures lo <= total / n <= hi
  {
    assert total / n * n == total;
  }

  /** Over a run of one repeated price the moving average is that price. */
  lemma SmaOfFlatWindow(prices: seq<real>, period: nat, c: real)
    requires 0 < period <= |prices|
    requires forall k :: |prices| - period <= k < |prices| ==> prices[k] == c
    ensures CalculateSma(prices, period) == c
  {
    SmaWithinWindow(prices, period, c, c);
  }

  /** Positive prices have a positive moving average. */
  lemma SmaPositive(prices: seq<real>, period: nat)
    requires 0 < period <= |prices|
    requires AllPositive(prices)
    ensures CalculateSma(prices, period) > 0.0
  {
    var w := prices[|prices| - period..];
    var lo := w[0];
    forall k | 0 <= k < |w| ensures w[k] > 0.0 { assert w[k] == prices[|prices| - period + k]; }
    MinBelowAll(w);
  }

  lemma {:induction false} MinBelowAll(w: seq<real>)
    requires |w| > 0
    requires forall k :: 0 <= k < |w| ==> w[k] > 0.0
    ensures Sum(w) > 0.0
    decreases |w|
  {
    if |w| > 1 {
      MinBelowAll(w[1..]);
    }
  }

  /** Strictly rising prices: every later price is above every earlier one. */
  predicate Rising(prices: seq<real>) {
    forall i, j :: 0 <= i < j < |prices| ==> prices[i] < prices[j]
  }

  /** Strictly falling prices: every later price is below every earlier one. */
  predicate Falling(prices: seq<real>) {
    forall i, j :: 0 <= i < j < |prices| ==> prices[i] > prices[j]
  }

  /**
   * Over strictly rising prices with a full long window, the 10-day average is above the
   * 50-day one, so the crossover rule says BUY.
   */
  lemma RisingPricesSignalBuy(prices: seq<real>)
    requires |prices| >= LONG_TERM_PERIOD
    requires Rising(prices)
    ensures Crossover(CalculateSma(prices, SHORT_TERM_PERIOD), CalculateSma(prices, LONG_TERM_PERIOD))
            == TradingSignal.Buy
  {
    var n := |prices|;
    var older := prices[n - 50..n - 10];
    var recent := prices[n - 10..];
    var pivot := prices[n - 10];
    assert prices[n - 50..] == older + recent;
    SumAppend(older, recent);
    forall k | 0 <= k < |older| ensures older[k] < pivot {
      assert older[k] == prices[n - 50 + k];
    }
    SumStrictlyBelow(older, pivot);
    forall k | 0 <= k < |recent| ensures pivot <= recent[k] {
      assert recent[k] == prices[n - 10 + k];
    }
    SumAtLeast(recent, pivot);
  }

  /** Symmetrically, strictly falling prices make the crossover rule say SELL. */
  lemma FallingPricesSignalSell(prices: seq<real>)
    requires |prices| >= LONG_TERM_PERIOD
    requires Falling(prices)
    ensures Crossover(CalculateSma(prices, SHORT_TERM_PERIOD), CalculateSma(prices, LONG_TERM_PERIOD))
            == TradingSignal.Sell
  {
    var n := |prices|;
    var older := prices[n - 50..n - 10];
    var recent := prices[n - 10..];
    var pivot := prices[n - 10];
    assert prices[n - 50..] == older + recent;
    SumAppend(older, recent);
    forall k | 0 <= k < |older| ensures -older[k] < -pivot {
      assert older[k] == prices[n - 50 + k];
    }
    SumStrictlyAbove(older, pivot);
    forall k | 0 <= k < |recent| ensures recent[k] <= pivot {
      assert recent[k] == prices[n - 10 + k];
    }
    SumAtMost(recent, pivot);
  }

  lemma {:induction false} SumStrictlyAbove(s: seq<real>, lo: real)
    requires |s| > 0
    requires forall k :: 0 <= k < |s| ==> -s[k] < -lo
    ensures Sum(s) > |s| as real * lo
    decreases |s|
  {
    if |s| > 1 {
      SumStrictlyAbove(s[1..], lo);
    }
  }
}
