/** Shared vocabulary of the market-metrics model: optional values, results,
    sums, extrema, population variance, square roots and order-preserving
    filtering over sequences of prices. */
module Common {

  /** `undefined` in the source is `None`. */
  datatype Option<T> = None | Some(value: T)

  /** A value, or the message of the error the source throws. */
  datatype Result<T> = Ok(value: T) | Err(message: string)

  // ---------------------------------------------------------------------------
  // Sums, means and extrema (`reduce((a, b) => a + b, 0)`, `Math.max(...)`)
  // ---------------------------------------------------------------------------

  /** Left-to-right sum of a sequence, as `reduce` computes it. */
  function Sum(s: seq<real>): real
  {
    if s == [] then 0.0 else Sum(s[..|s| - 1]) + s[|s| - 1]
  }

  lemma {:induction false} SumAppend(a: seq<real>, b: seq<real>)
    ensures Sum(a + b) == Sum(a) + Sum(b)
  {
    if b == [] {
      assert a + b == a;
    } else {
      assert (a + b)[..|a + b| - 1] == a + b[..|b| - 1];
      SumAppend(a, b[..|b| - 1]);
    }
  }

  lemma SumSingle(x: real)
    ensures Sum([x]) == x
  {
    assert [x][..0] == [];
  }

  /** Every element within [lo, hi] bounds the sum by |s|*lo and |s|*hi. */
  lemma {:induction false} SumBounds(s: seq<real>, lo: real, hi: real)
    requires forall i :: 0 <= i < |s| ==> lo <= s[i] <= hi
    ensures (|s| as real) * lo <= Sum(s) <= (|s| as real) * hi
  {
    if s != [] {
      SumBounds(s[..|s| - 1], lo, hi);
    }
  }

  /** A sum of non-negative terms is non-negative, and it is zero only when
      every term is. */
  lemma {:induction false} SumNonNegative(s: seq<real>)
    requires forall i :: 0 <= i < |s| ==> 0.0 <= s[i]
    ensures 0.0 <= Sum(s)
    ensures Sum(s) == 0.0 ==> forall i :: 0 <= i < |s| ==> s[i] == 0.0
  {
    if s != [] {
      var t := s[..|s| - 1];
      SumNonNegative(t);
      if Sum(s) == 0.0 {
        forall i | 0 <= i < |s| ensures s[i] == 0.0 {
          if i < |s| - 1 { assert s[i] == t[i]; }
        }
      }
    }
  }

  /** The sum of a constant sequence. */
  lemma {:induction false} SumConstant(s: seq<real>, c: real)
    requires forall i :: 0 <= i < |s| ==> s[i] == c
    ensures Sum(s) == (|s| as real) * c
  {
    if s != [] {
      SumConstant(s[..|s| - 1], c);
    }
  }

  /** Arithmetic mean; the source divides by the length, so it needs one. */
  function Mean(s: seq<real>): real
    requires |s| > 0
  {
    Sum(s) / (|s| as real)
  }

  /** The mean of values lying within [lo, hi] lies within [lo, hi]. */
  lemma MeanBounds(s: seq<real>, lo: real, hi: real)
    requires |s| > 0
    requires forall i :: 0 <= i < |s| ==> lo <= s[i] <= hi
    ensures lo <= Mean(s) <= hi
  {
    SumBounds(s, lo, hi);
    var n := |s| as real;
    assert n * lo <= Sum(s) <= n * hi;
    assert Sum(s) / n <= hi by { assert Sum(s) <= hi * n; }
    assert lo <= Sum(s) / n by { assert lo * n <= Sum(s); }
  }

  /** `Math.max(...s)` for a non-empty `s`. */
  function MaxOf(s: seq<real>): (r: real)
    requires |s| > 0
    ensures r in s
    ensures forall i :: 0 <= i < |s| ==> s[i] <= r
  {
    if |s| == 1 then s[0]
    else
      var m := MaxOf(s[..|s| - 1]);
      assert forall i :: 0 <= i < |s| - 1 ==> s[i] == s[..|s| - 1][i];
      if s[|s| - 1] > m then s[|s| - 1] else m
  }

  /** `Math.min(...s)` for a non-empty `s`. */
  function MinOf(s: seq<real>): (r: real)
    requires |s| > 0
    ensures r in s
    ensures forall i :: 0 <= i < |s| ==> r <= s[i]
  {
    if |s| == 1 then s[0]
    else
      var m := MinOf(s[..|s| - 1]);
      assert forall i :: 0 <= i < |s| - 1 ==> s[i] == s[..|s| - 1][i];
      if s[|s| - 1] < m then s[|s| - 1] else m
  }

  lemma MaxOfAppend(s: seq<real>, x: real)
    requires |s| > 0
    ensures MaxOf(s + [x]) == if x > MaxOf(s) then x else MaxOf(s)
  {
    assert (s + [x])[..|s + [x]| - 1] == s;
  }

  lemma MinOfAppend(s: seq<real>, x: real)
    requires |s| > 0
    ensures MinOf(s + [x]) == if x < MinOf(s) then x else MinOf(s)
  {
    assert (s + [x])[..|s + [x]| - 1] == s;
  }

  // ---------------------------------------------------------------------------
  // Population variance and square roots
  // ---------------------------------------------------------------------------

  function Sq(x: real): real
  {
    x * x
  }

  /** The squared deviations of `s` from `m`. */
  function SquaredDeviations(s: seq<real>, m: real): (r: seq<real>)
    ensures |r| == |s|
  {
    seq(|s|, i requires 0 <= i < |s| => Sq(s[i] - m))
  }

  lemma MulPositive(a: real, b: real)
    requires 0.0 < a && 0.0 < b
    ensures 0.0 < a * b
  {
  }

  /** Multiplying by a non-negative number preserves order. */
  lemma MulMonotone(a: real, b: real, c: real)
    requires a <= b && 0.0 <= c
    ensures a * c <= b * c
  {
    if c > 0.0 && a < b {
      MulPositive(b - a, c);
    }
  }

  lemma Square(e: real)
    ensures 0.0 <= Sq(e)
    ensures e != 0.0 ==> 0.0 < Sq(e)
    ensures e == 0.0 ==> Sq(e) == 0.0
  {
    if e > 0.0 {
      calc { Sq(e); == e * e; > { MulPositive(e, e); } 0.0; }
    } else if e < 0.0 {
      calc { Sq(e); == e * e; == (-e) * (-e); > { MulPositive(-e, -e); } 0.0; }
    }
  }

  /** Population variance: mean squared deviation from the mean (divisor n). */
  function PopulationVariance(s: seq<real>): real
    requires |s| > 0
  {
    Sum(SquaredDeviations(s, Mean(s))) / (|s| as real)
  }

  /** Squared deviations sum to a non-negative number, which is zero exactly
      when every value equals the centre `m`. */
  lemma DeviationsZeroIff(s: seq<real>, m: real)
    ensures 0.0 <= Sum(SquaredDeviations(s, m))
    ensures Sum(SquaredDeviations(s, m)) == 0.0 <==> forall i :: 0 <= i < |s| ==> s[i] == m
  {
    var d := SquaredDeviations(s, m);
    forall i | 0 <= i < |d| ensures 0.0 <= d[i] {
      Square(s[i] - m);
    }
    SumNonNegative(d);
    if Sum(d) == 0.0 {
      forall i | 0 <= i < |s| ensures s[i] == m {
        assert d[i] == 0.0;
        Square(s[i] - m);
      }
    }
    if forall i :: 0 <= i < |s| ==> s[i] == m {
      forall i | 0 <= i < |d| ensures d[i] == 0.0 {
        Square(s[i] - m);
      }
      SumConstant(d, 0.0);
    }
  }

  /** Variance is never negative, and it is zero exactly when every value
      equals the mean (the window is flat). */
  lemma VarianceZeroIff(s: seq<real>)
    requires |s| > 0
    ensures 0.0 <= PopulationVariance(s)
    ensures PopulationVariance(s) == 0.0 <==> forall i :: 0 <= i < |s| ==> s[i] == Mean(s)
  {
    DeviationsZeroIff(s, Mean(s));
  }

  /** A function that behaves as `Math.sqrt` on non-negative reals. */
  ghost predicate IsSqrt(sqrt: real -> real)
  {
    forall x :: 0.0 <= x ==> 0.0 <= sqrt(x) && sqrt(x) * sqrt(x) == x
  }

  /** The square root of a positive number is positive. */
  lemma SqrtPositive(sqrt: real -> real, x: real)
    requires IsSqrt(sqrt)
    requires 0.0 < x
    ensures 0.0 < sqrt(x)
  {
    var r := sqrt(x);
    assert r * r == x;
    assert r != 0.0 by { assert 0.0 * 0.0 == 0.0; }
  }

  // ---------------------------------------------------------------------------
  // Order-preserving filtering (`Array.prototype.filter`)
  // ---------------------------------------------------------------------------

  function Where<T>(s: seq<T>, p: T -> bool): (r: seq<T>)
    ensures |r| <= |s|
    ensures forall i :: 0 <= i < |r| ==> r[i] in s && p(r[i])
    ensures forall i :: 0 <= i < |s| && p(s[i]) ==> s[i] in r
  {
    if s == [] then []
    else
      var rest := Where(s[..|s| - 1], p);
      assert forall i :: 0 <= i < |s| - 1 ==> s[i] == s[..|s| - 1][i];
      if p(s[|s| - 1]) then rest + [s[|s| - 1]] else rest
  }

  /** `idx` lists, in increasing order, the positions of `s` that hold `r`. */
  ghost predicate EmbeddingOf<T>(idx: seq<nat>, r: seq<T>, s: seq<T>)
  {
    && |idx| == |r|
    && (forall k :: 0 <= k < |idx| ==> idx[k] < |s| && s[idx[k]] == r[k])
    && (forall k, l :: 0 <= k < l < |idx| ==> idx[k] < idx[l])
  }

  /** `r` is obtained from `s` by deleting elements (order kept). */
  ghost predicate IsSubsequence<T>(r: seq<T>, s: seq<T>)
  {
    exists idx: seq<nat> :: EmbeddingOf(idx, r, s)
  }

  /** Filtering keeps an order-preserving subsequence. */
  lemma {:induction false} WhereIsSubsequence<T>(s: seq<T>, p: T -> bool)
    ensures IsSubsequence(Where(s, p), s)
  {
    if s == [] {
      var idx: seq<nat> := [];
      assert EmbeddingOf(idx, Where(s, p), s);
    } else {
      var t := s[..|s| - 1];
      WhereIsSubsequence(t, p);
      var idx: seq<nat> :| EmbeddingOf(idx, Where(t, p), t);
      if p(s[|s| - 1]) {
        var idx' := idx + [|s| - 1];
        var r := Where(s, p);
        assert r == Where(t, p) + [s[|s| - 1]];
        assert EmbeddingOf(idx', r, s);
      } else {
        assert EmbeddingOf(idx, Where(s, p), s);
      }
    }
  }

  /** Filtering by a predicate every element satisfies changes nothing. */
  lemma {:induction false} WhereAll<T>(s: seq<T>, p: T -> bool)
    requires forall i :: 0 <= i < |s| ==> p(s[i])
    ensures Where(s, p) == s
  {
    if s != [] {
      WhereAll(s[..|s| - 1], p);
    }
  }

  /** Filtering by a predicate no element satisfies leaves nothing. */
  lemma {:induction false} WhereNone<T>(s: seq<T>, p: T -> bool)
    requires forall i :: 0 <= i < |s| ==> !p(s[i])
    ensures Where(s, p) == []
  {
    if s != [] {
      WhereNone(s[..|s| - 1], p);
    }
  }

  /** Filtering by two predicates that agree everywhere gives the same result. */
  lemma {:induction false} WhereSame<T>(s: seq<T>, p: T -> bool, q: T -> bool)
    requires forall x :: p(x) == q(x)
    ensures Where(s, p) == Where(s, q)
  {
    if s != [] {
      WhereSame(s[..|s| - 1], p, q);
    }
  }

  /** Two successive filters are one filter by the conjunction. */
  lemma {:induction false} WhereWhere<T>(s: seq<T>, p: T -> bool, q: T -> bool, pq: T -> bool)
    requires forall x :: pq(x) == (p(x) && q(x))
    ensures Where(Where(s, p), q) == Where(s, pq)
  {
    if s != [] {
      var t := s[..|s| - 1];
      var x := s[|s| - 1];
      WhereWhere(t, p, q, pq);
      if p(x) {
        assert Where(t, p) + [x] == Where(s, p);
        assert (Where(t, p) + [x])[..|Where(t, p) + [x]| - 1] == Where(t, p);
      }
    }
  }

  /** No element occurs twice. */
  ghost predicate Distinct<T>(s: seq<T>)
  {
    forall a, b :: 0 <= a < b < |s| ==> s[a] != s[b]
  }

  /** `keys` lists the keys of `m`, each once. */
  ghost predicate KeysInOrder<K(!new), V>(m: map<K, V>, keys: seq<K>)
  {
    Distinct(keys) && forall k :: k in m <==> k in keys
  }
}
