/** The `[timestamp, value]` pairs a market-chart response carries
    (`prices` and `total_volumes`), their UTC day, and the daily record both
    provider transforms (src/api/coingecko.ts and
    src/services/api/cryptoService.ts) build from one day's points. */
module PricePoints {
  import opened Common
  import opened Market
  import Dates

  /** One `[timestamp, value]` pair; the timestamp is in milliseconds. */
  datatype Point = Point(timestamp: int, value: real)

  /** How an axios request fails: the server answered with an error status
      (and possibly an `error` field in its body), no answer arrived, or
      the request could not be set up. */
  datatype ApiFailure =
    | ErrorStatus(status: nat, error: Option<string>)
    | NoResponse
    | SetupFailed(message: string)

  /** `data.error || 'Unknown error'`: an absent or empty error field reads
      as `Unknown error`. */
  function ErrorOrUnknown(error: Option<string>): (s: string)
    ensures error.Some? && error.value != "" ==> s == error.value
    ensures error.None? || error.value == "" ==> s == "Unknown error"
  {
    if error.Some? && error.value != "" then error.value else "Unknown error"
  }

  /** The UTC day of a point (`toISOString().split('T')[0]`). */
  function DayOf(p: Point): int
  {
    Dates.DayOfTimestamp(p.timestamp)
  }

  function OnDayOf(day: int): Point -> bool
  {
    (p: Point) => DayOf(p) == day
  }

  /** The points of one UTC day, in input order. */
  function PointsOn(points: seq<Point>, day: int): seq<Point>
  {
    Where(points, OnDayOf(day))
  }

  function Values(points: seq<Point>): (vs: seq<real>)
    ensures |vs| == |points|
    ensures forall i :: 0 <= i < |points| ==> vs[i] == points[i].value
  {
    seq(|points|, i requires 0 <= i < |points| => points[i].value)
  }

  /** The keys of a map by day in the order the days were first seen: a
      point of a new day appends that day. */
  function WithDay<V>(m: map<int, V>, days: seq<int>, p: Point): seq<int>
  {
    if DayOf(p) in m then days else days + [DayOf(p)]
  }

  /** The UTC days that have at least one point. */
  function Days(points: seq<Point>): set<int>
  {
    set i | 0 <= i < |points| :: DayOf(points[i])
  }

  /** The first price of every day is non-zero, so the day's change
      percentage is defined. */
  ghost predicate OpensNonZero(prices: seq<Point>)
  {
    forall i :: 0 <= i < |prices| ==>
      |PointsOn(prices, DayOf(prices[i]))| > 0 ==> PointsOn(prices, DayOf(prices[i]))[0].value != 0.0
  }

  /** `(close - open) / open * 100`. */
  function ChangePercent(open: real, close: real): real
    requires open != 0.0
  {
    (close - open) / open * 100.0
  }

  /** The record of one day: open is its first price, close its last, high
      and low the extremes of its prices, volume the sum of its volume
      points (0 when it has none), and no volatility yet. */
  function DayRecord(symbol: string, prices: seq<Point>, volumes: seq<Point>, day: int): DailyMetrics
    requires day in Days(prices) && OpensNonZero(prices)
  {
    PointsOnDays(prices, day);
    var vals := Values(PointsOn(prices, day));
    var open := vals[0];
    var close := vals[|vals| - 1];
    DailyMetrics(day, symbol, open, MaxOf(vals), MinOf(vals), close,
      Sum(Values(PointsOn(volumes, day))), ChangePercent(open, close), None)
  }

  /** `r` is the record of its own day. */
  ghost predicate IsDayRecord(symbol: string, prices: seq<Point>, volumes: seq<Point>, r: DailyMetrics)
  {
    OpensNonZero(prices) && r.date in Days(prices) && r == DayRecord(symbol, prices, volumes, r.date)
  }

  function DatesOf(s: seq<DailyMetrics>): set<int>
  {
    set r | r in s :: r.date
  }

  ghost predicate StrictlyByDate(s: seq<DailyMetrics>)
  {
    forall a, b :: 0 <= a < b < |s| ==> s[a].date < s[b].date
  }

  /** A transform's result: one record per day that has prices, each the
      record of its day, in strictly ascending date order. */
  ghost predicate DailyRecordsOf(result: seq<DailyMetrics>, symbol: string, prices: seq<Point>, volumes: seq<Point>)
  {
    && (forall r :: r in result ==> IsDayRecord(symbol, prices, volumes, r))
    && DatesOf(result) == Days(prices)
    && StrictlyByDate(result)
  }

  // ---------------------------------------------------------------------------
  // Facts about days and their points
  // ---------------------------------------------------------------------------

  /** A day has points exactly when some point falls on it. */
  lemma PointsOnDays(points: seq<Point>, day: int)
    ensures |PointsOn(points, day)| > 0 <==> day in Days(points)
  {
    if day in Days(points) {
      var i :| 0 <= i < |points| && DayOf(points[i]) == day;
      assert OnDayOf(day)(points[i]);
    } else {
      forall i | 0 <= i < |points| ensures !OnDayOf(day)(points[i]) {
        assert DayOf(points[i]) in Days(points);
      }
      WhereNone(points, OnDayOf(day));
    }
  }

  /** How one more point extends every day's points. */
  lemma PointsOnStep(points: seq<Point>, i: nat)
    requires i < |points|
    ensures forall d ::
              PointsOn(points[..i + 1], d) ==
              PointsOn(points[..i], d) + (if DayOf(points[i]) == d then [points[i]] else [])
    ensures Days(points[..i + 1]) == Days(points[..i]) + {DayOf(points[i])}
  {
    assert points[..i + 1][..i] == points[..i];
    var next := points[..i + 1];
    forall d | d in Days(next) ensures d in Days(points[..i]) + {DayOf(points[i])} {
      var j :| 0 <= j < i + 1 && DayOf(next[j]) == d;
      if j < i {
        assert DayOf(points[..i][j]) == d;
      }
    }
    forall d | d in Days(points[..i]) ensures d in Days(next) {
      var j :| 0 <= j < i && DayOf(points[..i][j]) == d;
      assert DayOf(next[j]) == d;
    }
    assert DayOf(next[i]) in Days(next);
  }

  lemma ValuesAppend(points: seq<Point>, p: Point)
    ensures Values(points + [p]) == Values(points) + [p.value]
  {
  }

  /** The change percentage as coingecko.ts writes it, `(close/open - 1)*100`,
      is the same number. */
  lemma ChangePercentAsRatio(open: real, close: real)
    requires open != 0.0
    ensures (close / open - 1.0) * 100.0 == ChangePercent(open, close)
  {
    calc {
      (close / open - 1.0) * 100.0;
      == { assert open / open == 1.0; }
      (close / open - open / open) * 100.0;
      == { assert close / open - open / open == (close - open) / open; }
      (close - open) / open * 100.0;
    }
  }

  /** The open and close lie between the day's low and high. */
  lemma DayRecordRange(symbol: string, prices: seq<Point>, volumes: seq<Point>, day: int)
    requires day in Days(prices) && OpensNonZero(prices)
    ensures var r := DayRecord(symbol, prices, volumes, day);
      r.low <= r.open <= r.high && r.low <= r.close <= r.high
  {
    PointsOnDays(prices, day);
    var vals := Values(PointsOn(prices, day));
    assert 0 <= |vals| - 1;
  }

  /** A day with a single price: open, high, low and close are that price
      and the change is 0. */
  lemma SinglePriceDay(symbol: string, prices: seq<Point>, volumes: seq<Point>, day: int)
    requires day in Days(prices) && OpensNonZero(prices)
    requires |PointsOn(prices, day)| == 1
    ensures var r := DayRecord(symbol, prices, volumes, day);
      var p := PointsOn(prices, day)[0].value;
      r.open == p && r.high == p && r.low == p && r.close == p && r.changePercent == 0.0
  {
  }

  // ---------------------------------------------------------------------------
  // The final `result.sort` by date
  // ---------------------------------------------------------------------------

  ghost predicate DistinctDates(s: seq<DailyMetrics>)
  {
    forall a, b :: 0 <= a < b < |s| ==> s[a].date != s[b].date
  }

  lemma {:induction false} InsertByDateStrict(x: DailyMetrics, s: seq<DailyMetrics>)
    requires StrictlyByDate(s)
    requires forall i :: 0 <= i < |s| ==> s[i].date != x.date
    ensures StrictlyByDate(InsertByDate(x, s))
  {
    if s != [] && x.date > s[0].date {
      InsertByDateStrict(x, s[1..]);
      var r := InsertByDate(x, s[1..]);
      forall i | 0 <= i < |r| ensures s[0].date < r[i].date {
        assert r[i] in multiset(r);
        if r[i] != x {
          assert r[i] in multiset(s[1..]);
          var j :| 0 <= j < |s[1..]| && s[1..][j] == r[i];
          assert s[j + 1] == r[i];
        }
      }
    }
  }

  lemma {:induction false} SortByDateStrict(s: seq<DailyMetrics>)
    requires DistinctDates(s)
    ensures StrictlyByDate(SortByDate(s))
  {
    if s != [] {
      var t := SortByDate(s[1..]);
      SortByDateStrict(s[1..]);
      forall i | 0 <= i < |t| ensures t[i].date != s[0].date {
        assert t[i] in multiset(s[1..]);
        var j :| 0 <= j < |s[1..]| && s[1..][j] == t[i];
        assert s[j + 1] == t[i];
      }
      InsertByDateStrict(s[0], t);
    }
  }

  /** Records of distinct days come out of the date sort strictly ascending,
      with the same records. */
  lemma SortDistinctDates(s: seq<DailyMetrics>)
    requires DistinctDates(s)
    ensures StrictlyByDate(SortByDate(s))
    ensures forall r :: r in SortByDate(s) <==> r in s
    ensures DatesOf(SortByDate(s)) == DatesOf(s)
  {
    var t := SortByDate(s);
    SortByDateStrict(s);
    forall r ensures r in t <==> r in s {
      assert r in t <==> r in multiset(t);
      assert r in s <==> r in multiset(s);
    }
  }
}
