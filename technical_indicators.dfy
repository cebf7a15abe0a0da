/** Technical indicators over a series of closing prices
    (src/utils/technicalIndicators.ts). Every output array keeps the source's
    sentinel: 0 stands for "not enough data yet". Each calculation is a
    method that builds its arrays the way the source's loops do, proved
    against a function giving the value at each index; the lemmas state
    what those values mean. */
module TechnicalIndicators {
  import opened Common
  import opened Market

  function Zeros(n: nat): (r: seq<real>)
    ensures |r| == n
    ensures forall i :: 0 <= i < n ==> r[i] == 0.0
  {
    seq(n, _ => 0.0)
  }

  // ===========================================================================
  // Simple moving average (calculateSMA)
  // ===========================================================================

  /** The `period` prices ending at index `i`. */
  function Window(prices: seq<real>, period: nat, i: nat): (w: seq<real>)
    requires 0 < period <= i + 1 <= |prices|
    ensures |w| == period
  {
    prices[i + 1 - period .. i + 1]
  }

  /** SMA at index `i`: 0 while fewer than `period` prices are available
      (or the whole series is shorter than `period`), else the sum of the
      trailing window divided by `period`. */
  function SmaAt(prices: seq<real>, period: nat, i: nat): real
    requires 0 < period && i < |prices|
  {
    if |prices| < period || i < period - 1 then 0.0
    else Sum(Window(prices, period, i)) / (period as real)
  }

  method CalculateSma(prices: seq<real>, period: nat) returns (sma: seq<real>)
    requires period > 0
    ensures |sma| == |prices|
    ensures forall i :: 0 <= i < |prices| ==> sma[i] == SmaAt(prices, period, i)
  {
    if |prices| < period {
      return Zeros(|prices|);
    }
    sma := [];
    for i := 0 to |prices|
      invariant |sma| == i
      invariant forall j :: 0 <= j < i ==> sma[j] == SmaAt(prices, period, j)
    {
      if i < period - 1 {
        sma := sma + [0.0];
      } else {
        var sum := Sum(prices[i - period + 1 .. i + 1]);
        sma := sma + [sum / (period as real)];
      }
    }
  }

  /** Once defined, the SMA is the mean of its window, so it lies between the
      window's lowest and highest price. */
  lemma SmaWithinWindow(prices: seq<real>, period: nat, i: nat)
    requires 0 < period <= i + 1 <= |prices|
    ensures SmaAt(prices, period, i) == Mean(Window(prices, period, i))
    ensures MinOf(Window(prices, period, i)) <= SmaAt(prices, period, i) <= MaxOf(Window(prices, period, i))
  {
    var w := Window(prices, period, i);
    MeanBounds(w, MinOf(w), MaxOf(w));
  }

  /** A series shorter than the period yields only sentinels. */
  lemma SmaShortSeries(prices: seq<real>, period: nat, i: nat)
    requires 0 < period && i < |prices| && (|prices| < period || i < period - 1)
    ensures SmaAt(prices, period, i) == 0.0
  {
  }

  /** SMA(7) of 10, 12, ..., 22 ends in 16 and starts with the sentinel. */
  lemma SmaSevenDayExample()
    ensures SmaAt([10.0, 12.0, 14.0, 16.0, 18.0, 20.0, 22.0], 7, 6) == 16.0
    ensures SmaAt([10.0, 12.0, 14.0, 16.0, 18.0, 20.0, 22.0], 7, 0) == 0.0
  {
    var p := [10.0, 12.0, 14.0, 16.0, 18.0, 20.0, 22.0];
    assert Window(p, 7, 6) == p;
    assert p[..6] == [10.0, 12.0, 14.0, 16.0, 18.0, 20.0];
    assert p[..6][..5] == [10.0, 12.0, 14.0, 16.0, 18.0];
    assert p[..6][..5][..4] == [10.0, 12.0, 14.0, 16.0];
    assert p[..6][..5][..4][..3] == [10.0, 12.0, 14.0];
    assert p[..6][..5][..4][..3][..2] == [10.0, 12.0];
    assert p[..6][..5][..4][..3][..2][..1] == [10.0];
    SumSingle(10.0);
    assert Sum([10.0, 12.0]) == 22.0;
    assert Sum([10.0, 12.0, 14.0]) == 36.0;
    assert Sum([10.0, 12.0, 14.0, 16.0]) == 52.0;
    assert Sum([10.0, 12.0, 14.0, 16.0, 18.0]) == 70.0;
    assert Sum([10.0, 12.0, 14.0, 16.0, 18.0, 20.0]) == 90.0;
    assert Sum(p) == 112.0;
  }

  // ===========================================================================
  // Relative strength index (calculateRSI)
  // ===========================================================================

  /** Gain of the step from price `i` to price `i + 1`: the rise, or 0. */
  function GainAt(prices: seq<real>, i: nat): (g: real)
    requires i + 1 < |prices|
    ensures 0.0 <= g
  {
    var change := prices[i + 1] - prices[i];
    if change > 0.0 then change else 0.0
  }

  /** Loss of the step from price `i` to price `i + 1`: the magnitude of the
      fall (`Math.abs(change)`), or 0. */
  function LossAt(prices: seq<real>, i: nat): (l: real)
    requires i + 1 < |prices|
    ensures 0.0 <= l
  {
    var change := prices[i + 1] - prices[i];
    if change < 0.0 then -change else 0.0
  }

  /** The gains of every step, in order. */
  function Gains(prices: seq<real>): (g: seq<real>)
    ensures |g| == if |prices| == 0 then 0 else |prices| - 1
    ensures forall i :: 0 <= i < |g| ==> g[i] == GainAt(prices, i)
  {
    if |prices| == 0 then []
    else seq(|prices| - 1, i requires 0 <= i < |prices| - 1 => GainAt(prices, i))
  }

  /** The losses of every step, in order. */
  function Losses(prices: seq<real>): (l: seq<real>)
    ensures |l| == if |prices| == 0 then 0 else |prices| - 1
    ensures forall i :: 0 <= i < |l| ==> l[i] == LossAt(prices, i)
  {
    if |prices| == 0 then []
    else seq(|prices| - 1, i requires 0 <= i < |prices| - 1 => LossAt(prices, i))
  }

  /** Each step is a gain or a loss, never both, and gain minus loss is the
      price change. */
  lemma GainLossSplit(prices: seq<real>, i: nat)
    requires i + 1 < |prices|
    ensures GainAt(prices, i) == 0.0 || LossAt(prices, i) == 0.0
    ensures GainAt(prices, i) - LossAt(prices, i) == prices[i + 1] - prices[i]
  {
  }

  /** Wilder smoothing: `(previous * (period - 1) + x) / period`. */
  function Smooth(prev: real, x: real, period: nat): real
    requires 0 < period
  {
    (prev * (period as real - 1.0) + x) / (period as real)
  }

  /** Smoothing keeps a non-negative average non-negative, and with a
      period above 1 it keeps a positive one positive. */
  lemma SmoothSign(prev: real, x: real, period: nat)
    requires 0 < period && 0.0 <= prev && 0.0 <= x
    ensures 0.0 <= Smooth(prev, x, period)
    ensures 0.0 < prev && 1 < period ==> 0.0 < Smooth(prev, x, period)
  {
    var p := period as real;
    MulMonotone(0.0, prev, p - 1.0);
    if 0.0 < prev && 1 < period {
      MulPositive(prev, p - 1.0);
      var n := prev * (p - 1.0) + x;
      assert 0.0 < n;
      assert n / p * p == n;
    }
  }

  /** Wilder-smoothed average gain after step `j` (the first value averages
      the first `period` gains). */
  function AvgGain(prices: seq<real>, period: nat, j: nat): (a: real)
    requires 0 < period && period + 1 <= |prices| && period - 1 <= j < |prices| - 1
    ensures 0.0 <= a
    decreases j
  {
    if j == period - 1 then
      SumNonNegative(Gains(prices)[..period]);
      Sum(Gains(prices)[..period]) / (period as real)
    else
      SmoothSign(AvgGain(prices, period, j - 1), GainAt(prices, j), period);
      Smooth(AvgGain(prices, period, j - 1), GainAt(prices, j), period)
  }

  /** Wilder-smoothed average loss after step `j`. */
  function AvgLoss(prices: seq<real>, period: nat, j: nat): (a: real)
    requires 0 < period && period + 1 <= |prices| && period - 1 <= j < |prices| - 1
    ensures 0.0 <= a
    decreases j
  {
    if j == period - 1 then
      SumNonNegative(Losses(prices)[..period]);
      Sum(Losses(prices)[..period]) / (period as real)
    else
      SmoothSign(AvgLoss(prices, period, j - 1), LossAt(prices, j), period);
      Smooth(AvgLoss(prices, period, j - 1), LossAt(prices, j), period)
  }

  /** The source divides the average gain by the average loss. A zero
      average loss with a positive average gain makes that quotient
      Infinity, and the RSI exactly 100, which `RsiValue` returns. A window
      whose average gain and average loss are both zero (no rise and no
      fall) makes it 0/0, NaN, which this model keeps out: every series
      with such a window is excluded. */
  predicate RsiDefined(prices: seq<real>, period: nat)
    requires 0 < period
  {
    |prices| < period + 1 ||
    forall j :: period - 1 <= j < |prices| - 1 ==> RsiDefinedAt(prices, period, j)
  }

  /** After step `j` something rose or something fell. */
  predicate RsiDefinedAt(prices: seq<real>, period: nat, j: nat)
    requires 0 < period && period + 1 <= |prices| && period - 1 <= j < |prices| - 1
  {
    AvgLoss(prices, period, j) > 0.0 || AvgGain(prices, period, j) > 0.0
  }

  /** `100 - 100 / (1 + avgGain / avgLoss)`; with a zero average loss the
      IEEE quotient is Infinity, `100 / Infinity` is 0, and the value is
      exactly 100. */
  function RsiValue(avgGain: real, avgLoss: real): real
    requires 0.0 <= avgGain && 0.0 <= avgLoss && (0.0 < avgGain || 0.0 < avgLoss)
  {
    if avgLoss == 0.0 then 100.0
    else
      assert 1.0 + avgGain / avgLoss >= 1.0;
      100.0 - 100.0 / (1.0 + avgGain / avgLoss)
  }

  /** RSI output at index `k`: zeros for a series of at most `period` prices;
      otherwise `period - 1` zeros followed by one value per remaining step. */
  function RsiAt(prices: seq<real>, period: nat, k: nat): real
    requires 0 < period && RsiDefined(prices, period)
    requires k < (if |prices| < period + 1 then |prices| else |prices| - 1)
  {
    if |prices| < period + 1 || k < period - 1 then 0.0
    else
      assert RsiDefinedAt(prices, period, k);
      RsiValue(AvgGain(prices, period, k), AvgLoss(prices, period, k))
  }

  /** The first loop of calculateRSI: the gain and the loss of every step. */
  method PriceChanges(prices: seq<real>) returns (gains: seq<real>, losses: seq<real>)
    ensures gains == Gains(prices) && losses == Losses(prices)
  {
    gains := [];
    losses := [];
    if |prices| == 0 {
      return;
    }
    for i := 1 to |prices|
      invariant |gains| == i - 1 && |losses| == i - 1
      invariant forall j :: 0 <= j < i - 1 ==> gains[j] == GainAt(prices, j)
      invariant forall j :: 0 <= j < i - 1 ==> losses[j] == LossAt(prices, j)
    {
      var change := prices[i] - prices[i - 1];
      gains := gains + [if change > 0.0 then change else 0.0];
      losses := losses + [if change < 0.0 then -change else 0.0];
    }
  }

  /** The statement form of `RsiValue`, for the loop body of
      `CalculateRsi`: the two assignments `rs = avgGain / avgLoss;
      rsiValue = 100 - (100 / (1 + rs))` that the source writes out twice.
      A zero average loss makes `rs` Infinity and the value 100. */
  method RsiOf(avgGain: real, avgLoss: real) returns (rsiValue: real)
    requires 0.0 <= avgGain && 0.0 <= avgLoss && (0.0 < avgGain || 0.0 < avgLoss)
    ensures rsiValue == RsiValue(avgGain, avgLoss)
  {
    rsiValue := 100.0;
    if avgLoss != 0.0 {
      var rs := avgGain / avgLoss;
      rsiValue := 100.0 - 100.0 / (1.0 + rs);
    }
  }

  method CalculateRsi(prices: seq<real>, period: nat) returns (rsi: seq<real>)
    requires 0 < period && RsiDefined(prices, period)
    ensures |rsi| == if |prices| < period + 1 then |prices| else |prices| - 1
    ensures forall k :: 0 <= k < |rsi| ==> rsi[k] == RsiAt(prices, period, k)
  {
    if |prices| < period + 1 {
      return Zeros(|prices|);
    }
    var gains, losses := PriceChanges(prices);
    var avgGain := Sum(gains[..period]) / (period as real);
    var avgLoss := Sum(losses[..period]) / (period as real);
    assert avgGain == AvgGain(prices, period, period - 1);
    assert avgLoss == AvgLoss(prices, period, period - 1);
    assert RsiDefinedAt(prices, period, period - 1);
    var rsiValue := RsiOf(avgGain, avgLoss);
    rsi := Zeros(period - 1) + [rsiValue];
    assert rsi[period - 1] == RsiAt(prices, period, period - 1);
    for i := period to |gains|
      invariant |rsi| == i
      invariant avgGain == AvgGain(prices, period, i - 1)
      invariant avgLoss == AvgLoss(prices, period, i - 1)
      invariant forall k :: 0 <= k < i ==> rsi[k] == RsiAt(prices, period, k)
    {
      AvgStep(prices, period, i);
      avgGain := Smooth(avgGain, gains[i], period);
      avgLoss := Smooth(avgLoss, losses[i], period);
      assert avgGain == AvgGain(prices, period, i) && avgLoss == AvgLoss(prices, period, i);
      assert RsiDefinedAt(prices, period, i);
      rsiValue := RsiOf(avgGain, avgLoss);
      rsi := rsi + [rsiValue];
    }
  }

  /** One smoothing step of both averages. */
  lemma AvgStep(prices: seq<real>, period: nat, j: nat)
    requires 0 < period && period + 1 <= |prices| && period - 1 < j < |prices| - 1
    ensures AvgGain(prices, period, j) == Smooth(AvgGain(prices, period, j - 1), GainAt(prices, j), period)
    ensures AvgLoss(prices, period, j) == Smooth(AvgLoss(prices, period, j - 1), LossAt(prices, j), period)
  {
  }

  /** An RSI value lies in [0, 100]; it is 100 exactly when nothing fell
      (zero average loss) and 0 exactly when nothing rose (zero average
      gain). */
  lemma RsiValueRange(avgGain: real, avgLoss: real)
    requires 0.0 <= avgGain && 0.0 <= avgLoss && (0.0 < avgGain || 0.0 < avgLoss)
    ensures 0.0 <= RsiValue(avgGain, avgLoss) <= 100.0
    ensures RsiValue(avgGain, avgLoss) == 100.0 <==> avgLoss == 0.0
    ensures RsiValue(avgGain, avgLoss) == 0.0 <==> avgGain == 0.0
  {
    if avgLoss != 0.0 {
      var rs := avgGain / avgLoss;
      var d := 1.0 + rs;
      assert rs >= 0.0;
      assert rs == 0.0 <==> avgGain == 0.0 by {
        assert rs * avgLoss == avgGain;
      }
      assert 100.0 / d <= 100.0 by {
        calc { 100.0 / d; <= { assert d >= 1.0; } 100.0 / 1.0; }
      }
      assert 100.0 / d > 0.0;
      assert 100.0 / d == 100.0 <==> d == 1.0 by {
        assert (100.0 / d) * d == 100.0;
      }
    }
  }

  /** Every RSI value lies in [0, 100]; the sentinel is 0. */
  lemma RsiBounds(prices: seq<real>, period: nat, k: nat)
    requires 0 < period && RsiDefined(prices, period)
    requires k < (if |prices| < period + 1 then |prices| else |prices| - 1)
    ensures 0.0 <= RsiAt(prices, period, k) <= 100.0
  {
    if !(|prices| < period + 1 || k < period - 1) {
      assert RsiDefinedAt(prices, period, k);
      RsiValueRange(AvgGain(prices, period, k), AvgLoss(prices, period, k));
    }
  }

  /** With a period above 1, a positive first average loss stays positive:
      the smoothing keeps (period-1)/period of it at every step. */
  lemma {:induction false} AvgLossStaysPositive(prices: seq<real>, period: nat, j: nat)
    requires 1 < period && period + 1 <= |prices| && period - 1 <= j < |prices| - 1
    requires AvgLoss(prices, period, period - 1) > 0.0
    ensures AvgLoss(prices, period, j) > 0.0
    decreases j
  {
    if j > period - 1 {
      AvgLossStaysPositive(prices, period, j - 1);
      SmoothSign(AvgLoss(prices, period, j - 1), LossAt(prices, j), period);
    }
  }

  // ===========================================================================
  // Exponential moving average and MACD (calculateMACD, its calculateEMA)
  // ===========================================================================

  function EmaLength(values: seq<real>): nat
  {
    if |values| == 0 then 1 else |values|
  }

  /** EMA at index `i`: the seed is the sum of the first `period` values (or
      all of them, if fewer) divided by `period`; after that each value is
      `v*k + previous*(1-k)` with `k = 2/(period+1)`. */
  function EmaAt(values: seq<real>, period: nat, i: nat): real
    requires 0 < period && i < EmaLength(values)
  {
    var k := 2.0 / ((period + 1) as real);
    if i == 0 then
      Sum(values[..if |values| < period then |values| else period]) / (period as real)
    else
      values[i] * k + EmaAt(values, period, i - 1) * (1.0 - k)
  }

  method CalculateEma(values: seq<real>, period: nat) returns (ema: seq<real>)
    requires 0 < period
    ensures |ema| == EmaLength(values)
    ensures forall i :: 0 <= i < |ema| ==> ema[i] == EmaAt(values, period, i)
  {
    var multiplier := 2.0 / ((period + 1) as real);
    var seed := Sum(values[..if |values| < period then |values| else period]) / (period as real);
    ema := [seed];
    var i := 1;
    while i < |values|
      invariant 1 <= i <= EmaLength(values) && |ema| == i
      invariant forall j :: 0 <= j < i ==> ema[j] == EmaAt(values, period, j)
    {
      var emaValue := values[i] * multiplier + ema[i - 1] * (1.0 - multiplier);
      assert emaValue == EmaAt(values, period, i);
      ema := ema + [emaValue];
      i := i + 1;
    }
  }

  /** A fraction `k` in [0, 1] of a non-negative gap is at most the gap. */
  lemma ScaledGap(v: real, e: real, k: real)
    requires 0.0 <= k <= 1.0 && v >= e
    ensures 0.0 <= k * (v - e) <= v - e
  {
    var d := v - e;
    MulMonotone(0.0, k, d);
    MulMonotone(k, 1.0, d);
    assert k * (v - e) == k * d;
  }

  /** `v*k + e*(1-k)` with `k` in [0, 1] lies between `v` and `e`. */
  lemma ConvexBetween(v: real, e: real, k: real, lo: real, hi: real)
    requires 0.0 <= k <= 1.0
    requires lo <= v <= hi && lo <= e <= hi
    ensures lo <= v * k + e * (1.0 - k) <= hi
  {
    var x := v * k + e * (1.0 - k);
    assert x == e + k * (v - e);
    if v >= e {
      ScaledGap(v, e, k);
    } else {
      ScaledGap(e, v, 1.0 - k);
      assert x == v + (1.0 - k) * (e - v);
    }
  }

  /** Given at least `period` values, every EMA value stays within the range
      of the values: it is a running weighted average. */
  lemma {:induction false} EmaWithinRange(values: seq<real>, period: nat, i: nat, lo: real, hi: real)
    requires 0 < period <= |values| && i < |values|
    requires forall j :: 0 <= j < |values| ==> lo <= values[j] <= hi
    ensures lo <= EmaAt(values, period, i) <= hi
    decreases i
  {
    if i == 0 {
      assert values[..period] == values[..if |values| < period then |values| else period];
      MeanBounds(values[..period], lo, hi);
    } else {
      EmaWithinRange(values, period, i - 1, lo, hi);
      var k := 2.0 / ((period + 1) as real);
      assert 0.0 <= k <= 1.0 by {
        assert (period + 1) as real >= 2.0;
      }
      ConvexBetween(values[i], EmaAt(values, period, i - 1), k, lo, hi);
    }
  }

  /** The MACD line: 0 before index `slow - 1` (or for a series shorter than
      `slow`), then fast EMA minus slow EMA. */
  function MacdAt(prices: seq<real>, fast: nat, slow: nat, i: nat): real
    requires i < |prices|
    requires |prices| < slow || (0 < fast && 0 < slow)
  {
    if |prices| < slow || i < slow - 1 then 0.0
    else EmaAt(prices, fast, i) - EmaAt(prices, slow, i)
  }

  function MacdLine(prices: seq<real>, fast: nat, slow: nat): (m: seq<real>)
    requires |prices| < slow || (0 < fast && 0 < slow)
    ensures |m| == |prices|
  {
    seq(|prices|, i requires 0 <= i < |prices| => MacdAt(prices, fast, slow, i))
  }

  function NonZero(x: real): bool
  {
    x != 0.0
  }

  /** The signal line: the EMA of the non-zero MACD values, left-padded with
      zeros to the length of the series (all zeros for a short series). */
  function SignalAt(prices: seq<real>, fast: nat, slow: nat, signalPeriod: nat, i: nat): real
    requires i < |prices|
    requires |prices| < slow || (0 < fast && 0 < slow && 0 < signalPeriod)
  {
    if |prices| < slow then 0.0
    else
      var defined := Where(MacdLine(prices, fast, slow), NonZero);
      var pad := |prices| - EmaLength(defined);
      if i < pad then 0.0 else EmaAt(defined, signalPeriod, i - pad)
  }

  method CalculateMacd(prices: seq<real>, fastPeriod: nat, slowPeriod: nat, signalPeriod: nat)
    returns (macd: seq<real>, signal: seq<real>, histogram: seq<real>)
    requires |prices| < slowPeriod || (0 < fastPeriod && 0 < slowPeriod && 0 < signalPeriod)
    ensures |macd| == |prices| && |signal| == |prices| && |histogram| == |prices|
    ensures forall i :: 0 <= i < |prices| ==> macd[i] == MacdAt(prices, fastPeriod, slowPeriod, i)
    ensures forall i :: 0 <= i < |prices| ==> signal[i] == SignalAt(prices, fastPeriod, slowPeriod, signalPeriod, i)
    ensures forall i :: 0 <= i < |prices| ==> histogram[i] == macd[i] - signal[i]
  {
    if |prices| < slowPeriod {
      return Zeros(|prices|), Zeros(|prices|), Zeros(|prices|);
    }
    var fastEma := CalculateEma(prices, fastPeriod);
    var slowEma := CalculateEma(prices, slowPeriod);
    macd := [];
    for i := 0 to |prices|
      invariant |macd| == i
      invariant forall j :: 0 <= j < i ==> macd[j] == MacdAt(prices, fastPeriod, slowPeriod, j)
    {
      if i < slowPeriod - 1 {
        macd := macd + [0.0];
      } else {
        macd := macd + [fastEma[i] - slowEma[i]];
      }
    }
    assert macd == MacdLine(prices, fastPeriod, slowPeriod);
    var defined := Where(macd, NonZero);
    var signalEma := CalculateEma(defined, signalPeriod);
    signal := Zeros(|macd| - |signalEma|) + signalEma;
    histogram := seq(|macd|, i requires 0 <= i < |macd| => macd[i] - signal[i]);
  }

  /** Flat prices give a flat MACD: after the slow EMA's lookback both EMAs
      equal the price, so every MACD value is 0. */
  lemma MacdOfFlatPrices(prices: seq<real>, fast: nat, slow: nat, c: real, i: nat)
    requires 0 < fast <= slow <= |prices| && i < |prices|
    requires forall j :: 0 <= j < |prices| ==> prices[j] == c
    ensures MacdAt(prices, fast, slow, i) == 0.0
  {
    if i >= slow - 1 {
      EmaWithinRange(prices, fast, i, c, c);
      EmaWithinRange(prices, slow, i, c, c);
    }
  }

  // ===========================================================================
  // Bollinger bands (calculateBollingerBands)
  // ===========================================================================

  /** Distance of either band from the middle: `stdDev` population standard
      deviations of the window. */
  function BandOffset(prices: seq<real>, period: nat, stdDev: real, sqrt: real -> real, i: nat): real
    requires 0 < period <= i + 1 <= |prices|
  {
    sqrt(PopulationVariance(Window(prices, period, i))) * stdDev
  }

  function UpperAt(prices: seq<real>, period: nat, stdDev: real, sqrt: real -> real, i: nat): real
    requires 0 < period && i < |prices|
  {
    if |prices| < period || i < period - 1 then 0.0
    else SmaAt(prices, period, i) + BandOffset(prices, period, stdDev, sqrt, i)
  }

  function LowerAt(prices: seq<real>, period: nat, stdDev: real, sqrt: real -> real, i: nat): real
    requires 0 < period && i < |prices|
  {
    if |prices| < period || i < period - 1 then 0.0
    else SmaAt(prices, period, i) - BandOffset(prices, period, stdDev, sqrt, i)
  }

  method CalculateBollingerBands(prices: seq<real>, period: nat, stdDev: real, sqrt: real -> real)
    returns (upper: seq<real>, middle: seq<real>, lower: seq<real>)
    requires 0 < period
    ensures |upper| == |prices| && |middle| == |prices| && |lower| == |prices|
    ensures forall i :: 0 <= i < |prices| ==> middle[i] == SmaAt(prices, period, i)
    ensures forall i :: 0 <= i < |prices| ==> upper[i] == UpperAt(prices, period, stdDev, sqrt, i)
    ensures forall i :: 0 <= i < |prices| ==> lower[i] == LowerAt(prices, period, stdDev, sqrt, i)
  {
    if |prices| < period {
      return Zeros(|prices|), Zeros(|prices|), Zeros(|prices|);
    }
    middle := CalculateSma(prices, period);
    upper := [];
    lower := [];
    for i := 0 to |prices|
      invariant |upper| == i && |lower| == i
      invariant forall j :: 0 <= j < i ==> upper[j] == UpperAt(prices, period, stdDev, sqrt, j)
      invariant forall j :: 0 <= j < i ==> lower[j] == LowerAt(prices, period, stdDev, sqrt, j)
    {
      if i < period - 1 {
        upper := upper + [0.0];
        lower := lower + [0.0];
      } else {
        var u, l := BandsAt(prices, period, stdDev, sqrt, middle[i], i);
        upper := upper + [u];
        lower := lower + [l];
      }
    }
  }

  /** The body of calculateBollingerBands' loop for an index with a full
      window: the mean and population variance of the window, and the bands
      around the middle value. */
  method BandsAt(prices: seq<real>, period: nat, stdDev: real, sqrt: real -> real, middle: real, i: nat)
    returns (upper: real, lower: real)
    requires 0 < period <= i + 1 <= |prices|
    requires middle == SmaAt(prices, period, i)
    ensures upper == UpperAt(prices, period, stdDev, sqrt, i)
    ensures lower == LowerAt(prices, period, stdDev, sqrt, i)
  {
    var slice := prices[i - period + 1 .. i + 1];
    assert slice == Window(prices, period, i);
    var mean := Sum(slice) / (period as real);
    var variance := Sum(SquaredDeviations(slice, mean)) / (period as real);
    var standardDeviation := sqrt(variance);
    upper := middle + standardDeviation * stdDev;
    lower := middle - standardDeviation * stdDev;
  }

  /** Once defined, the bands sit symmetrically around the middle band at
      `stdDev` standard deviations, so lower <= middle <= upper. */
  lemma BandsSymmetric(prices: seq<real>, period: nat, stdDev: real, sqrt: real -> real, i: nat)
    requires IsSqrt(sqrt) && 0.0 <= stdDev
    requires 0 < period <= i + 1 <= |prices|
    ensures UpperAt(prices, period, stdDev, sqrt, i) - SmaAt(prices, period, i)
         == SmaAt(prices, period, i) - LowerAt(prices, period, stdDev, sqrt, i)
         == BandOffset(prices, period, stdDev, sqrt, i)
    ensures 0.0 <= BandOffset(prices, period, stdDev, sqrt, i)
    ensures LowerAt(prices, period, stdDev, sqrt, i) <= SmaAt(prices, period, i)
         <= UpperAt(prices, period, stdDev, sqrt, i)
  {
    var w := Window(prices, period, i);
    VarianceZeroIff(w);
    var s := sqrt(PopulationVariance(w));
    assert 0.0 <= s;
    MulMonotone(0.0, s, stdDev);
  }

  /** A flat window has bands that collapse onto the middle band. */
  lemma BandsCollapseOnFlatWindow(prices: seq<real>, period: nat, stdDev: real, sqrt: real -> real, i: nat)
    requires IsSqrt(sqrt)
    requires 0 < period <= i + 1 <= |prices|
    requires forall j :: i + 1 - period <= j <= i ==> prices[j] == prices[i]
    ensures UpperAt(prices, period, stdDev, sqrt, i) == SmaAt(prices, period, i)
         == LowerAt(prices, period, stdDev, sqrt, i)
  {
    var w := Window(prices, period, i);
    SumConstant(w, prices[i]);
    assert Mean(w) == prices[i];
    VarianceZeroIff(w);
    assert PopulationVariance(w) == 0.0;
    var s := sqrt(0.0);
    assert s * s == 0.0;
    Square(s);
  }

  // ===========================================================================
  // All indicators at once (calculateAllIndicators)
  // ===========================================================================

  datatype MacdSeries = MacdSeries(macd: seq<real>, signal: seq<real>, histogram: seq<real>)

  datatype Bands = Bands(upper: seq<real>, middle: seq<real>, lower: seq<real>)

  datatype Indicators = Indicators(
    sma7: seq<real>,
    sma14: seq<real>,
    sma30: seq<real>,
    rsi: seq<real>,
    macd: MacdSeries,
    bollingerBands: Bands)

  method CalculateAllIndicators(data: seq<DailyMetrics>, sqrt: real -> real) returns (ind: Indicators)
    requires RsiDefined(Closes(data), 14)
    ensures |data| == 0 ==> ind == Indicators([], [], [], [], MacdSeries([], [], []), Bands([], [], []))
    ensures var prices := Closes(data);
      && |ind.sma7| == |ind.sma14| == |ind.sma30| == |data|
      && (forall i :: 0 <= i < |data| ==> ind.sma7[i] == SmaAt(prices, 7, i))
      && (forall i :: 0 <= i < |data| ==> ind.sma14[i] == SmaAt(prices, 14, i))
      && (forall i :: 0 <= i < |data| ==> ind.sma30[i] == SmaAt(prices, 30, i))
      && |ind.rsi| == (if |data| < 15 then |data| else |data| - 1)
      && (forall k :: 0 <= k < |ind.rsi| ==> ind.rsi[k] == RsiAt(prices, 14, k))
      && |ind.macd.macd| == |ind.macd.signal| == |ind.macd.histogram| == |data|
      && (forall i :: 0 <= i < |data| ==> ind.macd.macd[i] == MacdAt(prices, 12, 26, i))
      && (forall i :: 0 <= i < |data| ==> ind.macd.signal[i] == SignalAt(prices, 12, 26, 9, i))
      && (forall i :: 0 <= i < |data| ==> ind.macd.histogram[i] == ind.macd.macd[i] - ind.macd.signal[i])
      && |ind.bollingerBands.upper| == |ind.bollingerBands.middle| == |ind.bollingerBands.lower| == |data|
      && (forall i :: 0 <= i < |data| ==> ind.bollingerBands.middle[i] == SmaAt(prices, 20, i))
      && (forall i :: 0 <= i < |data| ==> ind.bollingerBands.upper[i] == UpperAt(prices, 20, 2.0, sqrt, i))
      && (forall i :: 0 <= i < |data| ==> ind.bollingerBands.lower[i] == LowerAt(prices, 20, 2.0, sqrt, i))
  {
    if |data| == 0 {
      return Indicators([], [], [], [], MacdSeries([], [], []), Bands([], [], []));
    }
    var prices := Closes(data);
    var sma7 := CalculateSma(prices, 7);
    var sma14 := CalculateSma(prices, 14);
    var sma30 := CalculateSma(prices, 30);
    var rsi := CalculateRsi(prices, 14);
    var macd, signal, histogram := CalculateMacd(prices, 12, 26, 9);
    var upper, middle, lower := CalculateBollingerBands(prices, 20, 2.0, sqrt);
    ind := Indicators(sma7, sma14, sma30, rsi, MacdSeries(macd, signal, histogram), Bands(upper, middle, lower));
  }

  // ===========================================================================
  // Signal classification (getTechnicalSignals)
  // ===========================================================================

  datatype RsiSignal = Oversold | Overbought | RsiNeutral
  datatype TrendSignal = Bullish | Bearish | Neutral

  datatype Signals = Signals(
    rsiSignal: RsiSignal,
    macdSignal: TrendSignal,
    bollingerSignal: RsiSignal,
    overallSignal: TrendSignal)

  /** Array read that yields `undefined` past the end. */
  function At(s: seq<real>, i: int): Option<real>
  {
    if 0 <= i < |s| then Some(s[i]) else None
  }

  /** `a > b`, false when either side is undefined. */
  predicate Greater(a: Option<real>, b: Option<real>)
  {
    a.Some? && b.Some? && a.value > b.value
  }

  function RsiClass(rsi: real): RsiSignal
  {
    if rsi < 30.0 then Oversold else if rsi > 70.0 then Overbought else RsiNeutral
  }

  function MacdClass(macd: Option<real>, signal: Option<real>, histogram: Option<real>): TrendSignal
  {
    if Greater(macd, signal) && Greater(histogram, Some(0.0)) then Bullish
    else if Greater(signal, macd) && Greater(Some(0.0), histogram) then Bearish
    else Neutral
  }

  function Overall(rsiSignal: RsiSignal, macdSignal: TrendSignal): TrendSignal
  {
    var bullish := (if rsiSignal == Oversold then 1 else 0) + (if macdSignal == Bullish then 1 else 0);
    var bearish := (if rsiSignal == Overbought then 1 else 0) + (if macdSignal == Bearish then 1 else 0);
    if bullish > bearish then Bullish else if bearish > bullish then Bearish else Neutral
  }

  function GetTechnicalSignals(ind: Indicators, currentIndex: int): (r: Signals)
    ensures r.bollingerSignal == RsiNeutral
  {
    if currentIndex < 0 || currentIndex >= |ind.rsi| then
      Signals(RsiNeutral, Neutral, RsiNeutral, Neutral)
    else
      var rsiSignal := RsiClass(ind.rsi[currentIndex]);
      var macdSignal := MacdClass(At(ind.macd.macd, currentIndex), At(ind.macd.signal, currentIndex),
                                  At(ind.macd.histogram, currentIndex));
      Signals(rsiSignal, macdSignal, RsiNeutral, Overall(rsiSignal, macdSignal))
  }

  /** Thresholds: an index outside the RSI series is neutral on every count;
      inside it, RSI below 30 is oversold and above 70 overbought (both
      bounds exclusive). */
  lemma SignalThresholds(ind: Indicators, i: int)
    ensures !(0 <= i < |ind.rsi|) ==> GetTechnicalSignals(ind, i) == Signals(RsiNeutral, Neutral, RsiNeutral, Neutral)
    ensures GetTechnicalSignals(ind, i).rsiSignal == Oversold <==> 0 <= i < |ind.rsi| && ind.rsi[i] < 30.0
    ensures GetTechnicalSignals(ind, i).rsiSignal == Overbought <==> 0 <= i < |ind.rsi| && ind.rsi[i] > 70.0
  {
  }

  /** MACD is bullish exactly when, at an index inside the RSI series, the
      MACD value exceeds the signal and the histogram is positive (and
      bearish in the mirror case). */
  lemma MacdThresholds(ind: Indicators, i: int)
    ensures GetTechnicalSignals(ind, i).macdSignal == Bullish <==>
      0 <= i < |ind.rsi| && i < |ind.macd.macd| && i < |ind.macd.signal| && i < |ind.macd.histogram|
      && ind.macd.macd[i] > ind.macd.signal[i] && ind.macd.histogram[i] > 0.0
    ensures GetTechnicalSignals(ind, i).macdSignal == Bearish <==>
      0 <= i < |ind.rsi| && i < |ind.macd.macd| && i < |ind.macd.signal| && i < |ind.macd.histogram|
      && ind.macd.macd[i] < ind.macd.signal[i] && ind.macd.histogram[i] < 0.0
  {
  }

  /** The overall signal is a majority vote of the RSI and MACD signals: it
      is bullish exactly when one of them leans bullish and neither leans
      bearish, and bearish in the mirror case; a split vote is neutral. */
  lemma OverallIsMajority(ind: Indicators, i: int)
    ensures var r := GetTechnicalSignals(ind, i);
      && (r.overallSignal == Bullish <==>
            (r.rsiSignal == Oversold || r.macdSignal == Bullish)
            && r.rsiSignal != Overbought && r.macdSignal != Bearish)
      && (r.overallSignal == Bearish <==>
            (r.rsiSignal == Overbought || r.macdSignal == Bearish)
            && r.rsiSignal != Oversold && r.macdSignal != Bullish)
  {
  }

  /** On the series CalculateMacd produces, the histogram test is implied by
      the MACD/signal comparison: bullish exactly when MACD exceeds signal. */
  lemma MacdSignalFromLine(ind: Indicators, i: int)
    requires |ind.macd.macd| == |ind.macd.signal| == |ind.macd.histogram|
    requires forall j :: 0 <= j < |ind.macd.histogram| ==>
      ind.macd.histogram[j] == ind.macd.macd[j] - ind.macd.signal[j]
    requires 0 <= i < |ind.rsi| && i < |ind.macd.macd|
    ensures GetTechnicalSignals(ind, i).macdSignal == Bullish <==> ind.macd.macd[i] > ind.macd.signal[i]
    ensures GetTechnicalSignals(ind, i).macdSignal == Bearish <==> ind.macd.macd[i] < ind.macd.signal[i]
  {
  }
}
