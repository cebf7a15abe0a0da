/** The per-day record every part of the pipeline passes around
    (`DailyMetrics` in src/types/data.ts), and the stable by-date sort the
    services get from `Array.prototype.sort`. */
module Market {
  import opened Common

  /** One trading day of one instrument. `date` is the UTC day number of the
      record's `YYYY-MM-DD` date; `volatility` is absent until the volatility
      service has a full window for the day. */
  datatype DailyMetrics = DailyMetrics(
    date: int,
    symbol: string,
    open: real,
    high: real,
    low: real,
    close: real,
    volume: real,
    changePercent: real,
    volatility: Option<real>)

  function Closes(data: seq<DailyMetrics>): (prices: seq<real>)
    ensures |prices| == |data|
    ensures forall i :: 0 <= i < |data| ==> prices[i] == data[i].close
  {
    seq(|data|, i requires 0 <= i < |data| => data[i].close)
  }

  function Volumes(data: seq<DailyMetrics>): (vs: seq<real>)
    ensures |vs| == |data|
    ensures forall i :: 0 <= i < |data| ==> vs[i] == data[i].volume
  {
    seq(|data|, i requires 0 <= i < |data| => data[i].volume)
  }

  ghost predicate SortedByDate(s: seq<DailyMetrics>)
  {
    forall i, j :: 0 <= i < j < |s| ==> s[i].date <= s[j].date
  }

  /** Inserts `x` in front of every record not earlier than it, so that `x`,
      which came first in the input, stays ahead of later records of its day. */
  function InsertByDate(x: DailyMetrics, s: seq<DailyMetrics>): (r: seq<DailyMetrics>)
    ensures |r| == |s| + 1
    ensures multiset(r) == multiset(s) + multiset{x}
  {
    if s == [] || x.date <= s[0].date then [x] + s
    else
      assert s == [s[0]] + s[1..];
      [s[0]] + InsertByDate(x, s[1..])
  }

  /** `[...data].sort((a, b) => time(a.date) - time(b.date))`: a stable sort. */
  function SortByDate(s: seq<DailyMetrics>): (r: seq<DailyMetrics>)
    ensures |r| == |s|
    ensures multiset(r) == multiset(s)
  {
    if s == [] then []
    else
      assert s == [s[0]] + s[1..];
      InsertByDate(s[0], SortByDate(s[1..]))
  }

  lemma {:induction false} InsertByDateSorted(x: DailyMetrics, s: seq<DailyMetrics>)
    requires SortedByDate(s)
    ensures SortedByDate(InsertByDate(x, s))
    ensures forall i :: 0 <= i < |InsertByDate(x, s)| ==>
      InsertByDate(x, s)[i] == x || InsertByDate(x, s)[i] in s
  {
    if s != [] && x.date > s[0].date {
      InsertByDateSorted(x, s[1..]);
      var r := InsertByDate(x, s[1..]);
      forall i | 0 <= i < |r| ensures s[0].date <= r[i].date {
        if r[i] != x {
          assert r[i] in s[1..];
        }
      }
    }
  }

  /** The sort orders records by date and is a permutation of its input. */
  lemma {:induction false} SortByDateSorted(s: seq<DailyMetrics>)
    ensures SortedByDate(SortByDate(s))
  {
    if s != [] {
      SortByDateSorted(s[1..]);
      InsertByDateSorted(s[0], SortByDate(s[1..]));
    }
  }

  /** The records of one day, in order. */
  function OnDay(day: int): DailyMetrics -> bool
  {
    (d: DailyMetrics) => d.date == day
  }

  lemma {:induction false} WhereCons<T>(x: T, s: seq<T>, p: T -> bool)
    ensures Where([x] + s, p) == (if p(x) then [x] else []) + Where(s, p)
  {
    if s == [] {
      assert [x] + s == [x];
      assert [x][..0] == [];
    } else {
      var t := s[..|s| - 1];
      WhereCons(x, t, p);
      assert ([x] + s)[..|[x] + s| - 1] == [x] + t;
    }
  }

  /** `x` is inserted ahead of the first record not earlier than it, so it
      passes only records of earlier days and lands behind none of its own. */
  lemma {:induction false} InsertByDateStable(x: DailyMetrics, s: seq<DailyMetrics>, day: int)
    ensures Where(InsertByDate(x, s), OnDay(day)) ==
      (if x.date == day then [x] else []) + Where(s, OnDay(day))
  {
    if s == [] || x.date <= s[0].date {
      WhereCons(x, s, OnDay(day));
    } else {
      assert [s[0]] + s[1..] == s;
      InsertByDateStable(x, s[1..], day);
      WhereCons(s[0], InsertByDate(x, s[1..]), OnDay(day));
      WhereCons(s[0], s[1..], OnDay(day));
    }
  }

  /** Stability: the records of any one day keep their input order. */
  lemma {:induction false} SortByDateStable(s: seq<DailyMetrics>, day: int)
    ensures Where(SortByDate(s), OnDay(day)) == Where(s, OnDay(day))
  {
    if s != [] {
      SortByDateStable(s[1..], day);
      InsertByDateStable(s[0], SortByDate(s[1..]), day);
      WhereCons(s[0], s[1..], OnDay(day));
      assert [s[0]] + s[1..] == s;
    }
  }

  /** Records already in date order come out of the sort unchanged. */
  lemma {:induction false} SortByDateOfSorted(s: seq<DailyMetrics>)
    requires SortedByDate(s)
    ensures SortByDate(s) == s
  {
    if s != [] {
      assert SortedByDate(s[1..]) by {
        forall i, j | 0 <= i < j < |s[1..]| ensures s[1..][i].date <= s[1..][j].date {
          assert s[1..][i] == s[i + 1] && s[1..][j] == s[j + 1];
        }
      }
      SortByDateOfSorted(s[1..]);
      assert [s[0]] + s[1..] == s;
    }
  }
}
