/** Calendar-month buckets of daily records
    (src/utils/monthlyAggregationService.ts): the records are grouped by
    year-month in a map, each group is summarised into one bucket (first
    open, last close, extrema, totals and means), and the buckets are sorted
    by month. */
module MonthlyAggregation {
  import opened Common
  import opened Market
  import Dates

  /** One month of one instrument. `key` is the `yyyy-MM` bucket as a count
      of months (see `Dates.MonthKey`); `month` is the English month name and
      `year` the calendar year of the month's earliest day. */
  datatype MonthlyMetrics = MonthlyMetrics(
    key: int,
    month: string,
    year: int,
    open: real,
    high: real,
    low: real,
    close: real,
    totalVolume: real,
    averageChangePercent: real,
    maxChangePercent: real,
    minChangePercent: real,
    volatility: real,
    tradingDays: nat)

  const MonthNames: seq<string> := ["January", "February", "March", "April", "May", "June", "July",
    "August", "September", "October", "November", "December"]

  /** The records of month `key`. */
  function InMonth(key: int): DailyMetrics -> bool
  {
    (d: DailyMetrics) => Dates.MonthKey(d.date) == key
  }

  /** The records of month `key`, in input order. */
  function Group(data: seq<DailyMetrics>, key: int): seq<DailyMetrics>
  {
    Where(data, InMonth(key))
  }

  function Highs(days: seq<DailyMetrics>): (r: seq<real>)
    ensures |r| == |days| && forall i :: 0 <= i < |days| ==> r[i] == days[i].high
  {
    seq(|days|, i requires 0 <= i < |days| => days[i].high)
  }

  function Lows(days: seq<DailyMetrics>): (r: seq<real>)
    ensures |r| == |days| && forall i :: 0 <= i < |days| ==> r[i] == days[i].low
  {
    seq(|days|, i requires 0 <= i < |days| => days[i].low)
  }

  function Changes(days: seq<DailyMetrics>): (r: seq<real>)
    ensures |r| == |days| && forall i :: 0 <= i < |days| ==> r[i] == days[i].changePercent
  {
    seq(|days|, i requires 0 <= i < |days| => days[i].changePercent)
  }

  /** `d.volatility || 0`: a missing (or zero) volatility counts as 0. */
  function VolatilityOrZero(d: DailyMetrics): real
  {
    if d.volatility.Some? then d.volatility.value else 0.0
  }

  function VolatilitiesOrZero(days: seq<DailyMetrics>): (r: seq<real>)
    ensures |r| == |days| && forall i :: 0 <= i < |days| ==> r[i] == VolatilityOrZero(days[i])
  {
    seq(|days|, i requires 0 <= i < |days| => VolatilityOrZero(days[i]))
  }

  /** The bucket of one month's records. The source sorts the records by
      date in place first, so every reduction runs over the sorted days. */
  function Summarize(key: int, days: seq<DailyMetrics>): (b: MonthlyMetrics)
    requires |days| > 0
    ensures b.key == key && b.tradingDays == |days|
    ensures b.minChangePercent <= b.averageChangePercent <= b.maxChangePercent
  {
    var sortedDays := SortByDate(days);
    var changes := Changes(sortedDays);
    MeanBounds(changes, MinOf(changes), MaxOf(changes));
    var firstDay := sortedDays[0];
    var lastDay := sortedDays[|sortedDays| - 1];
    var civil := Dates.CivilFromDays(firstDay.date);
    MonthlyMetrics(
      key,
      MonthNames[civil.month - 1],
      civil.year,
      firstDay.open,
      MaxOf(Highs(sortedDays)),
      MinOf(Lows(sortedDays)),
      lastDay.close,
      Sum(Volumes(sortedDays)),
      Mean(Changes(sortedDays)),
      MaxOf(Changes(sortedDays)),
      MinOf(Changes(sortedDays)),
      Mean(VolatilitiesOrZero(sortedDays)),
      |days|)
  }

  // ---------------------------------------------------------------------------
  // Totals over groups and over buckets
  // ---------------------------------------------------------------------------

  /** `f` summed over the groups of `keys`, in order. */
  function GroupTotal(keys: seq<int>, m: map<int, seq<DailyMetrics>>, f: seq<DailyMetrics> -> real): real
    requires forall k :: k in keys ==> k in m
  {
    if keys == [] then 0.0
    else
      var last := keys[|keys| - 1];
      assert last in keys;
      GroupTotal(keys[..|keys| - 1], m, f) + f(m[last])
  }

  function DayCount(g: seq<DailyMetrics>): real
  {
    |g| as real
  }

  function VolumeTotal(g: seq<DailyMetrics>): real
  {
    Sum(Volumes(g))
  }

  lemma {:induction false} GroupTotalOther(keys: seq<int>, m: map<int, seq<DailyMetrics>>,
                                           f: seq<DailyMetrics> -> real, k: int, v: seq<DailyMetrics>)
    requires forall x :: x in keys ==> x in m
    requires k !in keys
    ensures GroupTotal(keys, m[k := v], f) == GroupTotal(keys, m, f)
  {
    if keys != [] {
      GroupTotalOther(keys[..|keys| - 1], m, f, k, v);
    }
  }

  /** Changing one group changes the total by exactly the change of that
      group's value. */
  lemma {:induction false} GroupTotalUpdate(keys: seq<int>, m: map<int, seq<DailyMetrics>>,
                                            f: seq<DailyMetrics> -> real, k: int, v: seq<DailyMetrics>)
    requires forall x :: x in keys ==> x in m
    requires Distinct(keys) && k in keys
    ensures GroupTotal(keys, m[k := v], f) == GroupTotal(keys, m, f) - f(m[k]) + f(v)
  {
    var init := keys[..|keys| - 1];
    var last := keys[|keys| - 1];
    if last == k {
      assert k !in init by {
        forall a | 0 <= a < |init| ensures init[a] != k {
          assert keys[a] != keys[|keys| - 1];
        }
      }
      GroupTotalOther(init, m, f, k, v);
    } else {
      assert k in init by {
        var a :| 0 <= a < |keys| && keys[a] == k;
        assert init[a] == k;
      }
      GroupTotalUpdate(init, m, f, k, v);
    }
  }

  /** `f` summed over the buckets, front to back. */
  function BucketTotal(ms: seq<MonthlyMetrics>, f: MonthlyMetrics -> real): real
  {
    if ms == [] then 0.0 else f(ms[0]) + BucketTotal(ms[1..], f)
  }

  function TradingDays(b: MonthlyMetrics): real
  {
    b.tradingDays as real
  }

  function TotalVolumeOf(b: MonthlyMetrics): real
  {
    b.totalVolume
  }

  lemma {:induction false} BucketTotalAppend(ms: seq<MonthlyMetrics>, b: MonthlyMetrics, f: MonthlyMetrics -> real)
    ensures BucketTotal(ms + [b], f) == BucketTotal(ms, f) + f(b)
  {
    if ms == [] {
      assert ([] + [b])[1..] == [];
    } else {
      BucketTotalAppend(ms[1..], b, f);
      assert (ms + [b])[1..] == ms[1..] + [b];
    }
  }

  // ---------------------------------------------------------------------------
  // The final sort by month (`monthlyData.sort(...)`)
  // ---------------------------------------------------------------------------

  function InsertByKey(b: MonthlyMetrics, s: seq<MonthlyMetrics>): (r: seq<MonthlyMetrics>)
    ensures |r| == |s| + 1
    ensures multiset(r) == multiset(s) + multiset{b}
  {
    if s == [] || b.key <= s[0].key then [b] + s
    else
      assert s == [s[0]] + s[1..];
      [s[0]] + InsertByKey(b, s[1..])
  }

  function SortByKey(s: seq<MonthlyMetrics>): (r: seq<MonthlyMetrics>)
    ensures |r| == |s|
    ensures multiset(r) == multiset(s)
  {
    if s == [] then []
    else
      assert s == [s[0]] + s[1..];
      InsertByKey(s[0], SortByKey(s[1..]))
  }

  ghost predicate StrictlyByKey(s: seq<MonthlyMetrics>)
  {
    forall a, b :: 0 <= a < b < |s| ==> s[a].key < s[b].key
  }

  ghost predicate DistinctKeys(s: seq<MonthlyMetrics>)
  {
    forall a, b :: 0 <= a < b < |s| ==> s[a].key != s[b].key
  }

  lemma {:induction false} InsertByKeyStrict(b: MonthlyMetrics, s: seq<MonthlyMetrics>)
    requires StrictlyByKey(s)
    requires forall i :: 0 <= i < |s| ==> s[i].key != b.key
    ensures StrictlyByKey(InsertByKey(b, s))
  {
    if s != [] && b.key > s[0].key {
      InsertByKeyStrict(b, s[1..]);
      var r := InsertByKey(b, s[1..]);
      forall i | 0 <= i < |r| ensures s[0].key < r[i].key {
        InsertedBucketFrom(b, s, i);
      }
    }
  }

  /** Every bucket after the first place of the insertion is `b` itself or
      a bucket of `s[1..]`, whose keys exceed the first one's. */
  lemma InsertedBucketFrom(b: MonthlyMetrics, s: seq<MonthlyMetrics>, i: nat)
    requires s != [] && StrictlyByKey(s) && b.key > s[0].key
    requires i < |InsertByKey(b, s[1..])|
    ensures s[0].key < InsertByKey(b, s[1..])[i].key
  {
    var x := InsertByKey(b, s[1..])[i];
    assert x in multiset(InsertByKey(b, s[1..]));
    if x != b {
      assert x in multiset(s[1..]);
      var j :| 0 <= j < |s[1..]| && s[1..][j] == x;
      assert s[j + 1] == x;
    }
  }

  /** Buckets with distinct months come out in strictly ascending month order. */
  lemma {:induction false} SortByKeyStrict(s: seq<MonthlyMetrics>)
    requires DistinctKeys(s)
    ensures StrictlyByKey(SortByKey(s))
  {
    if s != [] {
      var t := SortByKey(s[1..]);
      SortByKeyStrict(s[1..]);
      forall i | 0 <= i < |t| ensures t[i].key != s[0].key {
        assert t[i] in multiset(s[1..]);
        var j :| 0 <= j < |s[1..]| && s[1..][j] == t[i];
        assert s[j + 1] == t[i];
      }
      InsertByKeyStrict(s[0], t);
    }
  }

  /** Sorting keeps the buckets, so it keeps the set of months. */
  lemma SortByKeyMembers(s: seq<MonthlyMetrics>)
    ensures forall b :: b in SortByKey(s) <==> b in s
    ensures Months(SortByKey(s)) == Months(s)
  {
    var r := SortByKey(s);
    forall b ensures b in r <==> b in s {
      assert b in r <==> b in multiset(r);
      assert b in s <==> b in multiset(s);
    }
  }

  lemma {:induction false} BucketTotalInsert(b: MonthlyMetrics, s: seq<MonthlyMetrics>, f: MonthlyMetrics -> real)
    ensures BucketTotal(InsertByKey(b, s), f) == f(b) + BucketTotal(s, f)
  {
    if s != [] && b.key > s[0].key {
      BucketTotalInsert(b, s[1..], f);
    }
  }

  /** Sorting the buckets keeps every total. */
  lemma {:induction false} BucketTotalSort(s: seq<MonthlyMetrics>, f: MonthlyMetrics -> real)
    ensures BucketTotal(SortByKey(s), f) == BucketTotal(s, f)
  {
    if s != [] {
      BucketTotalSort(s[1..], f);
      BucketTotalInsert(s[0], SortByKey(s[1..]), f);
    }
  }

  // ---------------------------------------------------------------------------
  // aggregateToMonthly
  // ---------------------------------------------------------------------------

  /** Every month seen maps to its records among the first `i`, in order. */
  ghost predicate GroupsMatch(data: seq<DailyMetrics>, i: nat, m: map<int, seq<DailyMetrics>>)
    requires i <= |data|
  {
    forall k :: k in m ==> m[k] == Group(data[..i], k) && |m[k]| > 0
  }

  ghost predicate AllSeen(data: seq<DailyMetrics>, i: nat, m: map<int, seq<DailyMetrics>>)
    requires i <= |data|
  {
    forall j :: 0 <= j < i ==> Dates.MonthKey(data[j].date) in m
  }

  /** Day and volume totals over the groups match the records consumed. */
  ghost predicate TotalsMatch(data: seq<DailyMetrics>, i: nat, m: map<int, seq<DailyMetrics>>, keys: seq<int>)
    requires i <= |data|
  {
    && (forall k :: k in keys ==> k in m)
    && GroupTotal(keys, m, DayCount) == i as real
    && GroupTotal(keys, m, VolumeTotal) == Sum(Volumes(data[..i]))
  }

  /** What the grouping pass has built after the first `i` records. */
  ghost predicate GroupedUpTo(data: seq<DailyMetrics>, i: nat, m: map<int, seq<DailyMetrics>>, keys: seq<int>)
    requires i <= |data|
  {
    KeysInOrder(m, keys) && GroupsMatch(data, i, m) && AllSeen(data, i, m) && TotalsMatch(data, i, m, keys)
  }

  /** The map after `day` is pushed onto its month's group, which is
      created empty first if the month is new. */
  function AddDay(m: map<int, seq<DailyMetrics>>, day: DailyMetrics): map<int, seq<DailyMetrics>>
  {
    var k := Dates.MonthKey(day.date);
    m[k := (if k in m then m[k] else []) + [day]]
  }

  function AddKey(m: map<int, seq<DailyMetrics>>, keys: seq<int>, day: DailyMetrics): seq<int>
  {
    var k := Dates.MonthKey(day.date);
    if k in m then keys else keys + [k]
  }

  /** How one more record extends the groups and the volume sum. */
  lemma GroupStep(data: seq<DailyMetrics>, i: nat)
    requires i < |data|
    ensures forall k ::
              Group(data[..i + 1], k) ==
              Group(data[..i], k) + (if Dates.MonthKey(data[i].date) == k then [data[i]] else [])
    ensures Sum(Volumes(data[..i + 1])) == Sum(Volumes(data[..i])) + data[i].volume
  {
    assert data[..i + 1][..i] == data[..i];
    assert Volumes(data[..i + 1])[..i] == Volumes(data[..i]);
  }

  lemma VolumesAppend(g: seq<DailyMetrics>, d: DailyMetrics)
    ensures Sum(Volumes(g + [d])) == Sum(Volumes(g)) + d.volume
  {
    assert Volumes(g + [d])[..|g|] == Volumes(g);
  }

  lemma StepKeys(m: map<int, seq<DailyMetrics>>, keys: seq<int>, day: DailyMetrics)
    requires KeysInOrder(m, keys)
    ensures KeysInOrder(AddDay(m, day), AddKey(m, keys, day))
  {
  }

  lemma StepSeen(data: seq<DailyMetrics>, i: nat, m: map<int, seq<DailyMetrics>>)
    requires i < |data| && AllSeen(data, i, m)
    ensures AllSeen(data, i + 1, AddDay(m, data[i]))
  {
  }

  lemma StepGroups(data: seq<DailyMetrics>, i: nat, m: map<int, seq<DailyMetrics>>)
    requires i < |data| && GroupsMatch(data, i, m) && AllSeen(data, i, m)
    ensures GroupsMatch(data, i + 1, AddDay(m, data[i]))
  {
    var d := data[i];
    var k := Dates.MonthKey(d.date);
    var m' := AddDay(m, d);
    GroupStep(data, i);
    if k !in m {
      forall j | 0 <= j < i ensures !InMonth(k)(data[..i][j]) {
        assert Dates.MonthKey(data[j].date) in m;
      }
      WhereNone(data[..i], InMonth(k));
    }
    forall x | x in m' ensures m'[x] == Group(data[..i + 1], x) && |m'[x]| > 0 {
      if x == k {
        assert Group(data[..i + 1], x) == Group(data[..i], x) + [d];
      } else {
        assert Group(data[..i + 1], x) == Group(data[..i], x) + [];
      }
    }
  }

  /** Pushing a record onto its month's group changes a group total by the
      change of that one group's value. */
  lemma GroupTotalAddDay(m: map<int, seq<DailyMetrics>>, keys: seq<int>, d: DailyMetrics, f: seq<DailyMetrics> -> real)
    requires KeysInOrder(m, keys) && f([]) == 0.0
    ensures var k := Dates.MonthKey(d.date);
      var g := if k in m then m[k] else [];
      GroupTotal(AddKey(m, keys, d), AddDay(m, d), f) == GroupTotal(keys, m, f) - f(g) + f(g + [d])
  {
    GroupTotalPush(m, keys, Dates.MonthKey(d.date), d, f);
  }

  /** `GroupTotalAddDay` for any key. */
  lemma GroupTotalPush(m: map<int, seq<DailyMetrics>>, keys: seq<int>, k: int, d: DailyMetrics,
                       f: seq<DailyMetrics> -> real)
    requires KeysInOrder(m, keys) && f([]) == 0.0
    ensures var g := if k in m then m[k] else [];
      GroupTotal(if k in m then keys else keys + [k], m[k := g + [d]], f) == GroupTotal(keys, m, f) - f(g) + f(g + [d])
  {
    if k in m {
      GroupTotalUpdate(keys, m, f, k, m[k] + [d]);
    } else {
      var m' := m[k := [] + [d]];
      GroupTotalOther(keys, m, f, k, [] + [d]);
      assert (keys + [k])[..|keys|] == keys;
      assert GroupTotal(keys + [k], m', f) == GroupTotal(keys, m', f) + f(m'[k]);
    }
  }

  lemma StepTotals(data: seq<DailyMetrics>, i: nat, m: map<int, seq<DailyMetrics>>, keys: seq<int>)
    requires i < |data| && KeysInOrder(m, keys) && TotalsMatch(data, i, m, keys)
    ensures TotalsMatch(data, i + 1, AddDay(m, data[i]), AddKey(m, keys, data[i]))
  {
    var d := data[i];
    var k := Dates.MonthKey(d.date);
    var g := if k in m then m[k] else [];
    GroupStep(data, i);
    GroupTotalAddDay(m, keys, d, DayCount);
    assert Volumes([]) == [];
    GroupTotalAddDay(m, keys, d, VolumeTotal);
    VolumesAppend(g, d);
  }

  /** One step of the grouping pass keeps `GroupedUpTo`. */
  lemma GroupStepKeeps(data: seq<DailyMetrics>, i: nat, m: map<int, seq<DailyMetrics>>, keys: seq<int>)
    requires i < |data| && GroupedUpTo(data, i, m, keys)
    ensures GroupedUpTo(data, i + 1, AddDay(m, data[i]), AddKey(m, keys, data[i]))
  {
    StepKeys(m, keys, data[i]);
    StepSeen(data, i, m);
    StepGroups(data, i, m);
    StepTotals(data, i, m, keys);
  }

  /** The body of the grouping callback: create the month's group if it is
      new, then push the record onto it. */
  method PushDay(monthlyMap: map<int, seq<DailyMetrics>>, keys: seq<int>, day: DailyMetrics)
    returns (monthlyMap': map<int, seq<DailyMetrics>>, keys': seq<int>)
    ensures monthlyMap' == AddDay(monthlyMap, day) && keys' == AddKey(monthlyMap, keys, day)
  {
    var monthKey := Dates.MonthKey(day.date);
    monthlyMap', keys' := monthlyMap, keys;
    if monthKey !in monthlyMap' {
      monthlyMap' := monthlyMap'[monthKey := []];
      keys' := keys' + [monthKey];
    }
    monthlyMap' := monthlyMap'[monthKey := monthlyMap'[monthKey] + [day]];
  }

  /** The grouping pass (`data.forEach`): a map from month to that month's
      records in input order, and the months in order of first appearance
      (the iteration order of a JavaScript `Map`). */
  method GroupByMonth(data: seq<DailyMetrics>) returns (monthlyMap: map<int, seq<DailyMetrics>>, keys: seq<int>)
    ensures GroupedUpTo(data, |data|, monthlyMap, keys)
  {
    monthlyMap := map[];
    keys := [];
    for i := 0 to |data|
      invariant GroupedUpTo(data, i, monthlyMap, keys)
    {
      GroupStepKeeps(data, i, monthlyMap, keys);
      monthlyMap, keys := PushDay(monthlyMap, keys, data[i]);
    }
  }

  /** The buckets of the months `keys`, in that order. */
  function Summaries(keys: seq<int>, m: map<int, seq<DailyMetrics>>): (r: seq<MonthlyMetrics>)
    requires forall k :: k in keys ==> k in m && |m[k]| > 0
    ensures |r| == |keys|
  {
    if keys == [] then []
    else
      var last := keys[|keys| - 1];
      assert last in keys;
      Summaries(keys[..|keys| - 1], m) + [Summarize(last, m[last])]
  }

  lemma {:induction false} SummariesAt(keys: seq<int>, m: map<int, seq<DailyMetrics>>, a: nat)
    requires forall k :: k in keys ==> k in m && |m[k]| > 0
    requires a < |keys|
    ensures Summaries(keys, m)[a] == Summarize(keys[a], m[keys[a]])
    ensures Summaries(keys, m)[a].key == keys[a]
  {
    if a < |keys| - 1 {
      SummariesAt(keys[..|keys| - 1], m, a);
    }
  }

  /** The buckets count every grouped record once. */
  lemma {:induction false} SummariesDays(keys: seq<int>, m: map<int, seq<DailyMetrics>>)
    requires forall k :: k in keys ==> k in m && |m[k]| > 0
    ensures BucketTotal(Summaries(keys, m), TradingDays) == GroupTotal(keys, m, DayCount)
  {
    if keys != [] {
      var init := keys[..|keys| - 1];
      var last := keys[|keys| - 1];
      assert last in keys;
      SummariesDays(init, m);
      SummarizeTotals(last, m[last]);
      BucketTotalAppend(Summaries(init, m), Summarize(last, m[last]), TradingDays);
    }
  }

  /** The buckets total every grouped volume once. */
  lemma {:induction false} SummariesVolume(keys: seq<int>, m: map<int, seq<DailyMetrics>>)
    requires forall k :: k in keys ==> k in m && |m[k]| > 0
    ensures BucketTotal(Summaries(keys, m), TotalVolumeOf) == GroupTotal(keys, m, VolumeTotal)
  {
    if keys != [] {
      var init := keys[..|keys| - 1];
      var last := keys[|keys| - 1];
      assert last in keys;
      SummariesVolume(init, m);
      SummarizeTotals(last, m[last]);
      BucketTotalAppend(Summaries(init, m), Summarize(last, m[last]), TotalVolumeOf);
    }
  }

  lemma SummariesSnoc(keys: seq<int>, m: map<int, seq<DailyMetrics>>, j: nat)
    requires forall k :: k in keys ==> k in m && |m[k]| > 0
    requires j < |keys|
    ensures Summaries(keys[..j + 1], m) == Summaries(keys[..j], m) + [Summarize(keys[j], m[keys[j]])]
  {
    assert keys[..j + 1][..j] == keys[..j];
  }

  /** One bucket per month, in the order of `keys` (`monthlyMap.forEach`). */
  method SummarizeMonths(monthlyMap: map<int, seq<DailyMetrics>>, keys: seq<int>) returns (monthlyData: seq<MonthlyMetrics>)
    requires forall k :: k in keys ==> k in monthlyMap && |monthlyMap[k]| > 0
    ensures monthlyData == Summaries(keys, monthlyMap)
  {
    monthlyData := [];
    for j := 0 to |keys|
      invariant monthlyData == Summaries(keys[..j], monthlyMap)
    {
      var monthKey := keys[j];
      var days := monthlyMap[monthKey];
      SummariesSnoc(keys, monthlyMap, j);
      monthlyData := monthlyData + [Summarize(monthKey, days)];
    }
    assert keys[..|keys|] == keys;
  }

  /** `b` is the bucket of month `b.key` of `data`, and that month has
      records. */
  ghost predicate Describes(data: seq<DailyMetrics>, b: MonthlyMetrics)
  {
    |Group(data, b.key)| > 0 && b == Summarize(b.key, Group(data, b.key))
  }

  lemma SummariesDescribe(data: seq<DailyMetrics>, m: map<int, seq<DailyMetrics>>, keys: seq<int>)
    requires KeysInOrder(m, keys) && GroupsMatch(data, |data|, m)
    ensures forall b :: b in Summaries(keys, m) ==> Describes(data, b)
  {
    assert data[..|data|] == data;
    forall b | b in Summaries(keys, m) ensures Describes(data, b) {
      var a :| 0 <= a < |keys| && Summaries(keys, m)[a] == b;
      SummariesAt(keys, m, a);
      var k := keys[a];
      assert k in m;
      assert b.key == k && m[k] == Group(data, k);
    }
  }

  /** The months that have a bucket. */
  function Months(ms: seq<MonthlyMetrics>): set<int>
  {
    set b | b in ms :: b.key
  }

  lemma SummariesCover(data: seq<DailyMetrics>, m: map<int, seq<DailyMetrics>>, keys: seq<int>)
    requires KeysInOrder(m, keys) && forall k :: k in keys ==> k in m && |m[k]| > 0
    requires AllSeen(data, |data|, m)
    ensures forall i :: 0 <= i < |data| ==> Dates.MonthKey(data[i].date) in Months(Summaries(keys, m))
  {
    forall i | 0 <= i < |data| ensures Dates.MonthKey(data[i].date) in Months(Summaries(keys, m)) {
      var k := Dates.MonthKey(data[i].date);
      var a :| 0 <= a < |keys| && keys[a] == k;
      SummariesAt(keys, m, a);
      assert Summaries(keys, m)[a] in Summaries(keys, m);
    }
  }

  lemma SummariesDistinct(m: map<int, seq<DailyMetrics>>, keys: seq<int>)
    requires KeysInOrder(m, keys) && forall k :: k in keys ==> k in m && |m[k]| > 0
    ensures DistinctKeys(Summaries(keys, m))
  {
    var s := Summaries(keys, m);
    forall a, b | 0 <= a < b < |s| ensures s[a].key != s[b].key {
      SummariesAt(keys, m, a);
      SummariesAt(keys, m, b);
    }
  }

  lemma SummariesOfNothing(data: seq<DailyMetrics>, m: map<int, seq<DailyMetrics>>, keys: seq<int>)
    requires |data| == 0 && KeysInOrder(m, keys) && GroupsMatch(data, 0, m)
    ensures Summaries(keys, m) == []
  {
    var none := data[..0];
    assert |keys| > 0 ==> keys[0] in keys;
    assert |keys| > 0 ==> keys[0] in m && |Group(none, keys[0])| <= |none| == 0;
  }

  /** `aggregateToMonthly`: one bucket per calendar month present in the
      data, each summarising exactly that month's records, in strictly
      ascending month order; no record is lost or counted twice. */
  method AggregateToMonthly(data: seq<DailyMetrics>) returns (monthly: seq<MonthlyMetrics>)
    ensures |data| == 0 ==> monthly == []
    ensures forall b :: b in monthly ==> Describes(data, b)
    ensures forall i :: 0 <= i < |data| ==> Dates.MonthKey(data[i].date) in Months(monthly)
    ensures StrictlyByKey(monthly)
    ensures BucketTotal(monthly, TradingDays) == |data| as real
    ensures BucketTotal(monthly, TotalVolumeOf) == Sum(Volumes(data))
  {
    var monthlyMap, keys := GroupByMonth(data);
    var monthlyData := SummarizeMonths(monthlyMap, keys);
    SummariesDescribe(data, monthlyMap, keys);
    SummariesCover(data, monthlyMap, keys);
    SummariesDistinct(monthlyMap, keys);
    SummariesDays(keys, monthlyMap);
    SummariesVolume(keys, monthlyMap);
    if |data| == 0 {
      SummariesOfNothing(data, monthlyMap, keys);
    }
    assert data[..|data|] == data;
    BucketTotalSort(monthlyData, TradingDays);
    BucketTotalSort(monthlyData, TotalVolumeOf);
    SortByKeyStrict(monthlyData);
    SortByKeyMembers(monthlyData);
    monthly := SortByKey(monthlyData);
  }

  /** A bucket counts its records and totals their volume. */
  lemma SummarizeTotals(key: int, days: seq<DailyMetrics>)
    requires |days| > 0
    ensures Summarize(key, days).tradingDays == |days|
    ensures Summarize(key, days).totalVolume == Sum(Volumes(days))
  {
    SumVolumesSorted(days);
  }

  lemma {:induction false} SumVolumesInsert(x: DailyMetrics, s: seq<DailyMetrics>)
    ensures Sum(Volumes(InsertByDate(x, s))) == x.volume + Sum(Volumes(s))
  {
    if s == [] || x.date <= s[0].date {
      SumVolumesCons(x, s);
    } else {
      SumVolumesInsert(x, s[1..]);
      var rest := InsertByDate(x, s[1..]);
      assert InsertByDate(x, s) == [s[0]] + rest;
      SumVolumesCons(s[0], rest);
      assert s == [s[0]] + s[1..];
      SumVolumesCons(s[0], s[1..]);
    }
  }

  lemma SumVolumesCons(x: DailyMetrics, s: seq<DailyMetrics>)
    ensures Sum(Volumes([x] + s)) == x.volume + Sum(Volumes(s))
  {
    assert Volumes([x] + s) == [x.volume] + Volumes(s);
    SumAppend([x.volume], Volumes(s));
    SumSingle(x.volume);
  }

  /** Sorting the days by date does not change their volume total. */
  lemma {:induction false} SumVolumesSorted(s: seq<DailyMetrics>)
    ensures Sum(Volumes(SortByDate(s))) == Sum(Volumes(s))
  {
    if s != [] {
      SumVolumesSorted(s[1..]);
      SortByDateUnfold(s);
      SumVolumesInsert(s[0], SortByDate(s[1..]));
      SumVolumesFirst(s);
    }
  }

  lemma SortByDateUnfold(s: seq<DailyMetrics>)
    requires s != []
    ensures SortByDate(s) == InsertByDate(s[0], SortByDate(s[1..]))
  {
  }

  lemma SumVolumesFirst(s: seq<DailyMetrics>)
    requires s != []
    ensures Sum(Volumes(s)) == s[0].volume + Sum(Volumes(s[1..]))
  {
    assert s == [s[0]] + s[1..];
    SumVolumesCons(s[0], s[1..]);
  }

  // ---------------------------------------------------------------------------
  // What one bucket says about its days
  // ---------------------------------------------------------------------------

  lemma SortedDayIsInput(days: seq<DailyMetrics>, i: nat) returns (j: nat)
    requires i < |days|
    ensures j < |days| && SortByDate(days)[i] == days[j]
  {
    assert SortByDate(days)[i] in multiset(days);
    j :| 0 <= j < |days| && days[j] == SortByDate(days)[i];
  }

  lemma InputDayIsSorted(days: seq<DailyMetrics>, j: nat) returns (i: nat)
    requires j < |days|
    ensures i < |days| && SortByDate(days)[i] == days[j]
  {
    assert days[j] in multiset(SortByDate(days));
    i :| 0 <= i < |days| && SortByDate(days)[i] == days[j];
  }

  /** The bucket opens at the open of its earliest day and closes at the
      close of its latest day. */
  lemma OpenEarliestCloseLatest(key: int, days: seq<DailyMetrics>)
    requires |days| > 0
    ensures exists a ::
              && 0 <= a < |days| && Summarize(key, days).open == days[a].open
              && forall j :: 0 <= j < |days| ==> days[a].date <= days[j].date
    ensures exists z ::
              && 0 <= z < |days| && Summarize(key, days).close == days[z].close
              && forall j :: 0 <= j < |days| ==> days[j].date <= days[z].date
  {
    var a := EarliestDay(days);
    var z := LatestDay(days);
    SummarizeEnds(key, days);
  }

  lemma SummarizeEnds(key: int, days: seq<DailyMetrics>)
    requires |days| > 0
    ensures Summarize(key, days).open == SortByDate(days)[0].open
    ensures Summarize(key, days).close == SortByDate(days)[|days| - 1].close
  {
  }

  /** The first day after sorting is an input day no later than any other. */
  lemma EarliestDay(days: seq<DailyMetrics>) returns (a: nat)
    requires |days| > 0
    ensures a < |days| && SortByDate(days)[0] == days[a]
    ensures forall j :: 0 <= j < |days| ==> days[a].date <= days[j].date
  {
    SortByDateSorted(days);
    a := SortedDayIsInput(days, 0);
    forall j | 0 <= j < |days| ensures days[a].date <= days[j].date {
      var i := InputDayIsSorted(days, j);
    }
  }

  /** The last day after sorting is an input day no earlier than any other. */
  lemma LatestDay(days: seq<DailyMetrics>) returns (z: nat)
    requires |days| > 0
    ensures z < |days| && SortByDate(days)[|days| - 1] == days[z]
    ensures forall j :: 0 <= j < |days| ==> days[j].date <= days[z].date
  {
    SortByDateSorted(days);
    z := SortedDayIsInput(days, |days| - 1);
    forall j | 0 <= j < |days| ensures days[j].date <= days[z].date {
      var i := InputDayIsSorted(days, j);
    }
  }

  /** The bucket's high and low bound every day's high and low, and are
      attained by some day. */
  lemma HighLowBound(key: int, days: seq<DailyMetrics>)
    requires |days| > 0
    ensures forall j :: 0 <= j < |days| ==> days[j].high <= Summarize(key, days).high
    ensures forall j :: 0 <= j < |days| ==> Summarize(key, days).low <= days[j].low
    ensures exists j :: 0 <= j < |days| && days[j].high == Summarize(key, days).high
    ensures exists j :: 0 <= j < |days| && days[j].low == Summarize(key, days).low
  {
    var sorted := SortByDate(days);
    var b := Summarize(key, days);
    forall j | 0 <= j < |days| ensures days[j].high <= b.high && b.low <= days[j].low {
      var i := InputDayIsSorted(days, j);
      assert Highs(sorted)[i] == days[j].high;
      assert Lows(sorted)[i] == days[j].low;
    }
    var h :| 0 <= h < |sorted| && Highs(sorted)[h] == b.high;
    var jh := SortedDayIsInput(days, h);
    var l :| 0 <= l < |sorted| && Lows(sorted)[l] == b.low;
    var jl := SortedDayIsInput(days, l);
  }

  /** Defined volatilities of some days, in order. */
  function DefinedVolatilities(days: seq<DailyMetrics>): seq<real>
  {
    if days == [] then []
    else
      var rest := DefinedVolatilities(days[..|days| - 1]);
      var d := days[|days| - 1];
      if d.volatility.Some? then rest + [d.volatility.value] else rest
  }

  lemma {:induction false} SumOrZeroIsSumDefined(days: seq<DailyMetrics>)
    ensures Sum(VolatilitiesOrZero(days)) == Sum(DefinedVolatilities(days))
  {
    if days != [] {
      var init := days[..|days| - 1];
      SumOrZeroIsSumDefined(init);
      assert VolatilitiesOrZero(days)[..|days| - 1] == VolatilitiesOrZero(init);
      var d := days[|days| - 1];
      if d.volatility.Some? {
        SumAppend(DefinedVolatilities(init), [d.volatility.value]);
        SumSingle(d.volatility.value);
      }
    }
  }

  lemma {:induction false} DefinedVolatilitiesInsert(x: DailyMetrics, s: seq<DailyMetrics>)
    ensures Sum(DefinedVolatilities(InsertByDate(x, s))) ==
      VolatilityOrZero(x) + Sum(DefinedVolatilities(s))
  {
    SumOrZeroIsSumDefined(InsertByDate(x, s));
    SumOrZeroIsSumDefined(s);
    SumOrZeroInsert(x, s);
  }

  lemma {:induction false} SumOrZeroInsert(x: DailyMetrics, s: seq<DailyMetrics>)
    ensures Sum(VolatilitiesOrZero(InsertByDate(x, s))) == VolatilityOrZero(x) + Sum(VolatilitiesOrZero(s))
  {
    if s == [] || x.date <= s[0].date {
      SumOrZeroCons(x, s);
    } else {
      SumOrZeroInsert(x, s[1..]);
      var rest := InsertByDate(x, s[1..]);
      assert InsertByDate(x, s) == [s[0]] + rest;
      SumOrZeroCons(s[0], rest);
      assert s == [s[0]] + s[1..];
      SumOrZeroCons(s[0], s[1..]);
    }
  }

  lemma SumOrZeroCons(x: DailyMetrics, s: seq<DailyMetrics>)
    ensures Sum(VolatilitiesOrZero([x] + s)) == VolatilityOrZero(x) + Sum(VolatilitiesOrZero(s))
  {
    var v := VolatilityOrZero(x);
    assert VolatilitiesOrZero([x] + s) == [v] + VolatilitiesOrZero(s);
    SumAppend([v], VolatilitiesOrZero(s));
    SumSingle(v);
  }

  lemma {:induction false} SumOrZeroSorted(s: seq<DailyMetrics>)
    ensures Sum(VolatilitiesOrZero(SortByDate(s))) == Sum(VolatilitiesOrZero(s))
  {
    if s != [] {
      SumOrZeroSorted(s[1..]);
      SortByDateUnfold(s);
      SumOrZeroInsert(s[0], SortByDate(s[1..]));
      SumOrZeroFirst(s);
    }
  }

  lemma SumOrZeroFirst(s: seq<DailyMetrics>)
    requires s != []
    ensures Sum(VolatilitiesOrZero(s)) == VolatilityOrZero(s[0]) + Sum(VolatilitiesOrZero(s[1..]))
  {
    assert s == [s[0]] + s[1..];
    SumOrZeroCons(s[0], s[1..]);
  }

  /** Missing volatilities count as zero: the bucket volatility is the sum of
      the defined volatilities divided by the number of trading days, not by
      the number of days that have one. */
  lemma VolatilityOverAllDays(key: int, days: seq<DailyMetrics>)
    requires |days| > 0
    ensures Summarize(key, days).volatility == Sum(DefinedVolatilities(days)) / (|days| as real)
  {
    SumOrZeroSorted(days);
    SumOrZeroIsSumDefined(days);
  }
}
