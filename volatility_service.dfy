/** Rolling volatility of daily returns and the percentile rank of a
    volatility among others (src/utils/volatilityService.ts). */
module VolatilityService {
  import opened Common
  import opened Market

  /** Trading days per year used to annualise a daily standard deviation. */
  const TradingDaysPerYear: real := 252.0

  // ---------------------------------------------------------------------------
  // calculateVolatility
  // ---------------------------------------------------------------------------

  /** The source divides each close by the previous one; a zero previous
      close (NaN or Infinity there) is kept out by precondition. */
  predicate PrevClosesNonZero(sorted: seq<DailyMetrics>)
  {
    forall i :: 0 <= i < |sorted| - 1 ==> sorted[i].close != 0.0
  }

  /** Simple return from day `j` to day `j + 1`. */
  function SimpleReturn(sorted: seq<DailyMetrics>, j: nat): real
    requires j + 1 < |sorted| && sorted[j].close != 0.0
  {
    (sorted[j + 1].close - sorted[j].close) / sorted[j].close
  }

  /** The `|sorted| - 1` daily returns, in date order. */
  function Returns(sorted: seq<DailyMetrics>): (r: seq<real>)
    requires |sorted| >= 1 && PrevClosesNonZero(sorted)
    ensures |r| == |sorted| - 1
  {
    seq(|sorted| - 1, j requires 0 <= j < |sorted| - 1 => SimpleReturn(sorted, j))
  }

  /** Annualised volatility in percent for the day at `index`: the population
      standard deviation of the `windowSize` returns before it, times
      sqrt(252), times 100. */
  function VolatilityAt(dailyReturns: seq<real>, windowSize: nat, index: nat, sqrt: real -> real): real
    requires 0 < windowSize <= index <= |dailyReturns|
  {
    sqrt(PopulationVariance(dailyReturns[index - windowSize .. index])) * sqrt(TradingDaysPerYear) * 100.0
  }

  /** The record of day `index` after the rolling pass: unchanged while the
      window is not yet full, otherwise with its volatility set. */
  function WithVolatility(day: DailyMetrics, index: nat, dailyReturns: seq<real>, windowSize: nat,
                          sqrt: real -> real): DailyMetrics
    requires 0 < windowSize && index <= |dailyReturns|
  {
    if index < windowSize then day
    else day.(volatility := Some(VolatilityAt(dailyReturns, windowSize, index, sqrt)))
  }

  method CalculateVolatility(historicalData: seq<DailyMetrics>, windowSize: nat, sqrt: real -> real)
    returns (result: seq<DailyMetrics>)
    requires |historicalData| < 2 || (0 < windowSize && PrevClosesNonZero(SortByDate(historicalData)))
    ensures |historicalData| < 2 ==> result == historicalData
    ensures |result| == |historicalData|
    ensures |historicalData| >= 2 ==>
      var sorted := SortByDate(historicalData);
      forall i :: 0 <= i < |result| ==>
        result[i] == WithVolatility(sorted[i], i, Returns(sorted), windowSize, sqrt)
  {
    if |historicalData| < 2 {
      return historicalData;
    }
    var sortedData := SortByDate(historicalData);
    var dailyReturns := DailyReturns(sortedData);
    result := seq(|sortedData|, index requires 0 <= index < |sortedData| =>
      WithVolatility(sortedData[index], index, dailyReturns, windowSize, sqrt));
  }

  /** The first loop of calculateVolatility: the return of every day over
      the previous one. */
  method DailyReturns(sortedData: seq<DailyMetrics>) returns (dailyReturns: seq<real>)
    requires |sortedData| >= 1 && PrevClosesNonZero(sortedData)
    ensures dailyReturns == Returns(sortedData)
  {
    dailyReturns := [];
    for i := 1 to |sortedData|
      invariant |dailyReturns| == i - 1
      invariant forall j :: 0 <= j < i - 1 ==> dailyReturns[j] == SimpleReturn(sortedData, j)
    {
      var prevClose := sortedData[i - 1].close;
      var currentClose := sortedData[i].close;
      var dailyReturn := (currentClose - prevClose) / prevClose;
      dailyReturns := dailyReturns + [dailyReturn];
    }
  }

  /** The rolling pass keeps the date order and every field but the
      volatility: the output is the date-sorted input, each day either as it
      was (window not full) or with a volatility attached. */
  lemma RollingKeepsRecords(historicalData: seq<DailyMetrics>, windowSize: nat, sqrt: real -> real, i: nat)
    requires |historicalData| >= 2 && 0 < windowSize && PrevClosesNonZero(SortByDate(historicalData))
    requires i < |historicalData|
    ensures var sorted := SortByDate(historicalData);
      var r := WithVolatility(sorted[i], i, Returns(sorted), windowSize, sqrt);
      && r.(volatility := sorted[i].volatility) == sorted[i]
      && (i < windowSize ==> r == sorted[i])
      && (i >= windowSize ==> r.volatility.Some?)
    ensures SortedByDate(SortByDate(historicalData))
  {
    SortByDateSorted(historicalData);
  }

  /** Volatility is never negative. */
  lemma VolatilityNonNegative(dailyReturns: seq<real>, windowSize: nat, index: nat, sqrt: real -> real)
    requires IsSqrt(sqrt)
    requires 0 < windowSize <= index <= |dailyReturns|
    ensures 0.0 <= VolatilityAt(dailyReturns, windowSize, index, sqrt)
  {
    var w := dailyReturns[index - windowSize .. index];
    VarianceZeroIff(w);
    var s := sqrt(PopulationVariance(w));
    var a := sqrt(TradingDaysPerYear);
    MulMonotone(0.0, s, a);
    MulMonotone(0.0, s * a, 100.0);
  }

  /** Volatility is zero exactly when every return in the window is the
      same (for instance a price growing at a constant rate). */
  lemma VolatilityZeroIffFlat(dailyReturns: seq<real>, windowSize: nat, index: nat, sqrt: real -> real)
    requires IsSqrt(sqrt)
    requires 0 < windowSize <= index <= |dailyReturns|
    ensures var w := dailyReturns[index - windowSize .. index];
      VolatilityAt(dailyReturns, windowSize, index, sqrt) == 0.0 <==>
        forall j :: 0 <= j < |w| ==> w[j] == Mean(w)
  {
    var w := dailyReturns[index - windowSize .. index];
    VarianceZeroIff(w);
    var v := PopulationVariance(w);
    var s := sqrt(v);
    var a := sqrt(TradingDaysPerYear);
    SqrtPositive(sqrt, TradingDaysPerYear);
    if s == 0.0 {
      assert v == s * s == 0.0;
    } else {
      assert 0.0 < s;
      MulPositive(s, a);
      MulPositive(s * a, 100.0);
      assert v != 0.0 by {
        Square(s);
      }
    }
  }

  /** With no more records than the window, no volatility is added: records
      that had none still have none. */
  lemma ShortSeriesGetsNoVolatility(historicalData: seq<DailyMetrics>, windowSize: nat, sqrt: real -> real, i: nat)
    requires |historicalData| >= 2 && 0 < windowSize && PrevClosesNonZero(SortByDate(historicalData))
    requires |historicalData| <= windowSize && i < |historicalData|
    requires forall k :: 0 <= k < |historicalData| ==> historicalData[k].volatility.None?
    ensures var sorted := SortByDate(historicalData);
      WithVolatility(sorted[i], i, Returns(sorted), windowSize, sqrt).volatility.None?
  {
    var sorted := SortByDate(historicalData);
    assert sorted[i] in multiset(historicalData);
    var k :| 0 <= k < |historicalData| && historicalData[k] == sorted[i];
  }

  // ---------------------------------------------------------------------------
  // getVolatilityPercentile
  // ---------------------------------------------------------------------------

  /** The defined values, in order (`filter(v => v !== undefined)`). */
  function Defined(all: seq<Option<real>>): (vs: seq<real>)
    ensures |vs| <= |all|
  {
    if all == [] then []
    else
      var rest := Defined(all[..|all| - 1]);
      if all[|all| - 1].Some? then rest + [all[|all| - 1].value] else rest
  }

  /** A value is among the defined ones exactly when it occurs defined. */
  lemma {:induction false} DefinedMembers(all: seq<Option<real>>, x: real)
    ensures x in Defined(all) <==> Some(x) in all
  {
    if all != [] {
      var init := all[..|all| - 1];
      DefinedMembers(init, x);
      assert all == init + [all[|all| - 1]];
    }
  }

  ghost predicate Ascending(s: seq<real>)
  {
    forall i, j :: 0 <= i < j < |s| ==> s[i] <= s[j]
  }

  function InsertReal(x: real, s: seq<real>): (r: seq<real>)
    ensures |r| == |s| + 1
    ensures multiset(r) == multiset(s) + multiset{x}
  {
    if s == [] || x <= s[0] then [x] + s
    else
      assert s == [s[0]] + s[1..];
      [s[0]] + InsertReal(x, s[1..])
  }

  /** `sort((a, b) => a - b)`. */
  function SortReals(s: seq<real>): (r: seq<real>)
    ensures |r| == |s|
    ensures multiset(r) == multiset(s)
  {
    if s == [] then []
    else
      assert s == [s[0]] + s[1..];
      InsertReal(s[0], SortReals(s[1..]))
  }

  lemma {:induction false} InsertRealAscending(x: real, s: seq<real>)
    requires Ascending(s)
    ensures Ascending(InsertReal(x, s))
  {
    if s != [] && x > s[0] {
      InsertRealAscending(x, s[1..]);
      var r := InsertReal(x, s[1..]);
      forall i | 0 <= i < |r| ensures s[0] <= r[i] {
        assert r[i] in multiset(r);
        if r[i] != x {
          assert r[i] in multiset(s[1..]);
          assert r[i] in s[1..];
        }
      }
    }
  }

  lemma {:induction false} SortRealsAscending(s: seq<real>)
    ensures Ascending(SortReals(s))
  {
    if s != [] {
      SortRealsAscending(s[1..]);
      InsertRealAscending(s[0], SortReals(s[1..]));
    }
  }

  /** `findIndex(v => v >= x)`: the first position holding a value at least
      `x`, or -1. */
  function FirstAtLeast(s: seq<real>, x: real): (r: int)
    ensures -1 <= r < |s|
    ensures r == -1 <==> forall i :: 0 <= i < |s| ==> s[i] < x
    ensures r >= 0 ==> x <= s[r] && forall i :: 0 <= i < r ==> s[i] < x
  {
    if s == [] then -1
    else if s[0] >= x then 0
    else
      var r := FirstAtLeast(s[1..], x);
      if r == -1 then -1 else r + 1
  }

  /** How many of `s` lie strictly below `x`. */
  function CountBelow(s: seq<real>, x: real): (n: nat)
    ensures n <= |s|
  {
    if s == [] then 0 else (if s[0] < x then 1 else 0) + CountBelow(s[1..], x)
  }

  /** `getVolatilityPercentile`: the rank of the volatility among the
      defined ones, as a fraction. It lies in [0, 1]; it is 0 for an
      undefined volatility and when there is nothing defined to compare
      with. */
  function GetVolatilityPercentile(volatility: Option<real>, allVolatilities: seq<Option<real>>): (p: real)
    ensures 0.0 <= p <= 1.0
    ensures volatility.None? || |Defined(allVolatilities)| == 0 ==> p == 0.0
  {
    if volatility.None? then 0.0
    else
      var validVolatilities := Defined(allVolatilities);
      if |validVolatilities| == 0 then 0.0
      else
        var sorted := SortReals(validVolatilities);
        var rank := FirstAtLeast(sorted, volatility.value);
        if rank == -1 then 1.0
        else
          Fraction(rank, |sorted|);
          (rank as real) / (|sorted| as real)
  }

  lemma {:induction false} CountBelowInsert(y: real, s: seq<real>, x: real)
    ensures CountBelow(InsertReal(y, s), x) == CountBelow(s, x) + (if y < x then 1 else 0)
  {
    if s != [] && y > s[0] {
      CountBelowInsert(y, s[1..], x);
    }
  }

  /** Sorting does not change how many values lie below `x`. */
  lemma {:induction false} CountBelowSorted(s: seq<real>, x: real)
    ensures CountBelow(SortReals(s), x) == CountBelow(s, x)
  {
    if s != [] {
      CountBelowSorted(s[1..], x);
      CountBelowInsert(s[0], SortReals(s[1..]), x);
    }
  }

  /** In an ascending sequence the first value at least `x` sits right after
      the values below `x`. */
  lemma {:induction false} RankIsCountBelow(s: seq<real>, x: real)
    requires Ascending(s)
    ensures CountBelow(s, x) == if FirstAtLeast(s, x) == -1 then |s| else FirstAtLeast(s, x)
  {
    if s != [] {
      if s[0] >= x {
        NoneBelow(s, x);
      } else {
        RankIsCountBelow(s[1..], x);
      }
    }
  }

  lemma {:induction false} NoneBelow(s: seq<real>, x: real)
    requires forall i :: 0 <= i < |s| ==> x <= s[i]
    ensures CountBelow(s, x) == 0
  {
    if s != [] {
      NoneBelow(s[1..], x);
    }
  }

  lemma {:induction false} AllBelow(s: seq<real>, x: real)
    requires forall i :: 0 <= i < |s| ==> s[i] < x
    ensures CountBelow(s, x) == |s|
  {
    if s != [] {
      AllBelow(s[1..], x);
    }
  }

  /** The percentile is the fraction of defined volatilities strictly below
      the given one. */
  lemma PercentileIsFractionBelow(x: real, allVolatilities: seq<Option<real>>)
    requires |Defined(allVolatilities)| > 0
    ensures var valid := Defined(allVolatilities);
      GetVolatilityPercentile(Some(x), allVolatilities) == (CountBelow(valid, x) as real) / (|valid| as real)
  {
    var valid := Defined(allVolatilities);
    var sorted := SortReals(valid);
    SortRealsAscending(valid);
    CountBelowSorted(valid, x);
    RankIsCountBelow(sorted, x);
    var rank := FirstAtLeast(sorted, x);
    var n := |valid| as real;
    assert GetVolatilityPercentile(Some(x), allVolatilities) == if rank == -1 then 1.0 else (rank as real) / n;
    if rank == -1 {
      assert CountBelow(valid, x) == |valid|;
      Fraction(|valid|, |valid|);
    } else {
      assert CountBelow(valid, x) == rank;
    }
  }

  /** A count out of a non-empty total, as a fraction. */
  lemma Fraction(c: nat, n: nat)
    requires 0 < n && c <= n
    ensures 0.0 <= (c as real) / (n as real) <= 1.0
    ensures (c as real) / (n as real) == 1.0 <==> c == n
    ensures (c as real) / (n as real) == 0.0 <==> c == 0
  {
    var q := (c as real) / (n as real);
    assert q * (n as real) == c as real;
  }

  /** The percentile is 1 exactly when the volatility exceeds every defined
      value. */
  lemma PercentileOneIff(x: real, allVolatilities: seq<Option<real>>)
    ensures GetVolatilityPercentile(Some(x), allVolatilities) == 1.0 <==>
      |Defined(allVolatilities)| > 0 && forall v :: Some(v) in allVolatilities ==> v < x
  {
    var valid := Defined(allVolatilities);
    if |valid| > 0 {
      PercentileIsFractionBelow(x, allVolatilities);
      Fraction(CountBelow(valid, x), |valid|);
      if forall v :: Some(v) in allVolatilities ==> v < x {
        forall i | 0 <= i < |valid| ensures valid[i] < x {
          DefinedMembers(allVolatilities, valid[i]);
        }
        AllBelow(valid, x);
      } else {
        var v :| Some(v) in allVolatilities && x <= v;
        DefinedMembers(allVolatilities, v);
        var k :| 0 <= k < |valid| && valid[k] == v;
        CountBelowMissesOne(valid, x, k);
      }
    }
  }

  lemma {:induction false} CountBelowMissesOne(s: seq<real>, x: real, k: nat)
    requires k < |s| && x <= s[k]
    ensures CountBelow(s, x) < |s|
  {
    if k > 0 {
      CountBelowMissesOne(s[1..], x, k - 1);
    }
  }

  /** The percentile is 0 exactly when the volatility is undefined, nothing
      is defined, or the volatility is at most every defined value (in
      particular at most their minimum). */
  lemma PercentileZeroIff(volatility: Option<real>, allVolatilities: seq<Option<real>>)
    ensures GetVolatilityPercentile(volatility, allVolatilities) == 0.0 <==>
      volatility.None? || |Defined(allVolatilities)| == 0 ||
      forall v :: Some(v) in allVolatilities ==> volatility.value <= v
  {
    var valid := Defined(allVolatilities);
    if volatility.Some? && |valid| > 0 {
      var x := volatility.value;
      PercentileIsFractionBelow(x, allVolatilities);
      Fraction(CountBelow(valid, x), |valid|);
      if forall v :: Some(v) in allVolatilities ==> x <= v {
        forall i | 0 <= i < |valid| ensures x <= valid[i] {
          DefinedMembers(allVolatilities, valid[i]);
        }
        NoneBelow(valid, x);
      } else {
        var v :| Some(v) in allVolatilities && v < x;
        DefinedMembers(allVolatilities, v);
        var k :| 0 <= k < |valid| && valid[k] == v;
        CountBelowHitsOne(valid, x, k);
      }
    }
  }

  lemma {:induction false} CountBelowHitsOne(s: seq<real>, x: real, k: nat)
    requires k < |s| && s[k] < x
    ensures CountBelow(s, x) > 0
  {
    if k > 0 {
      CountBelowHitsOne(s[1..], x, k - 1);
    }
  }
}
