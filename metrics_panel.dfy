/** The side drawer that shows the metrics of the day picked on the
    calendar (src/components/dashboard/MetricsPanel.tsx): the record of
    that day, the seven-day series behind its charts, the number
    formatters, and the store field that opens and closes it. The
    calendar store holds the picked date as its `YYYY-MM-DD` text; here it
    is the day that text names. */
module MetricsPanel {
  import opened Common
  import opened Market
  import Text
  import Dates

  // ---------------------------------------------------------------------------
  // selectedMetrics
  // ---------------------------------------------------------------------------

  /** The record is dated on `day`. The component compares the record's
      `YYYY-MM-DD` text with the selected one; `OnDateIsSameText` shows the
      two tests agree. */
  predicate OnDate(d: DailyMetrics, day: int)
  {
    d.date == day
  }

  /** Comparing days is comparing their `YYYY-MM-DD` texts. */
  lemma OnDateIsSameText(d: DailyMetrics, day: int)
    ensures OnDate(d, day) <==> Dates.IsoDate(d.date) == Dates.IsoDate(day)
  {
    Dates.IsoDateInjective(d.date, day);
  }

  /** Position of the first record on `day`, or `|data|` when there is none. */
  function FirstOnDate(data: seq<DailyMetrics>, day: int): (i: nat)
    ensures i <= |data|
    ensures i < |data| ==> OnDate(data[i], day)
    ensures forall j :: 0 <= j < i ==> !OnDate(data[j], day)
  {
    if data == [] then 0
    else if OnDate(data[0], day) then 0
    else 1 + FirstOnDate(data[1..], day)
  }

  /** `selectedMetrics`: nothing without a selected date, otherwise
      `historicalData.find` of the first record on that date. */
  function SelectedMetrics(selectedDate: Option<int>, historicalData: seq<DailyMetrics>)
    : (r: Option<DailyMetrics>)
    ensures selectedDate.None? ==> r.None?
    ensures selectedDate.Some? && r.None? ==>
              forall j :: 0 <= j < |historicalData| ==> !OnDate(historicalData[j], selectedDate.value)
    ensures r.Some? ==>
              && selectedDate.Some?
              && exists i :: 0 <= i < |historicalData| && r.value == historicalData[i]
                   && OnDate(historicalData[i], selectedDate.value)
                   && forall j :: 0 <= j < i ==> !OnDate(historicalData[j], selectedDate.value)
  {
    match selectedDate
    case None => None
    case Some(day) =>
      var i := FirstOnDate(historicalData, day);
      if i < |historicalData| then Some(historicalData[i]) else None
  }

  // ---------------------------------------------------------------------------
  // weeklyData
  // ---------------------------------------------------------------------------

  /** One point of the seven-day charts. */
  datatype WeekPoint = WeekPoint(date: string, price: real, volume: real, change: real)

  const MonthAbbreviations: seq<string> :=
    ["Jan", "Feb", "Mar", "Apr", "May", "Jun", "Jul", "Aug", "Sep", "Oct", "Nov", "Dec"]

  /** `toLocaleDateString('en-US', { month: 'short', day: 'numeric', timeZone: 'UTC' })`:
      the three-letter month of the UTC date, a space, then the day of the
      month without leading zeros, which reads back to that day. */
  function ShortDate(day: int): (shown: string)
    ensures var c := Dates.CivilFromDays(day);
            && |shown| >= 5
            && shown[..3] == MonthAbbreviations[c.month - 1]
            && shown[3] == ' '
            && (|shown| > 5 ==> shown[4] != '0')
            && (forall i :: 4 <= i < |shown| ==> Text.IsDigit(shown[i]))
            && Text.ParseNat(shown[4..]) == c.day
  {
    var c := Dates.CivilFromDays(day);
    CivilLabel(c.month, c.day)
  }

  /** The shown of a month in 1..12 and a day of the month. */
  function CivilLabel(month: int, dayOfMonth: nat): (shown: string)
    requires 1 <= month <= 12
    ensures |shown| >= 5
    ensures shown[..3] == MonthAbbreviations[month - 1] && shown[3] == ' '
    ensures |shown| > 5 ==> shown[4] != '0'
    ensures forall i :: 4 <= i < |shown| ==> Text.IsDigit(shown[i])
    ensures Text.ParseNat(shown[4..]) == dayOfMonth
  {
    var digits := Text.NatToString(dayOfMonth);
    Text.ParseNatToString(dayOfMonth);
    assert |MonthAbbreviations[month - 1]| == 3;
    var shown := MonthAbbreviations[month - 1] + " " + digits;
    assert shown[4..] == digits;
    shown
  }

  function ToPoint(day: int, metrics: DailyMetrics): WeekPoint
  {
    WeekPoint(ShortDate(day), metrics.close, metrics.volume, metrics.changePercent)
  }

  /** The lookup map `historicalData.forEach` fills: each record under its
      UTC day (the source keys by that day's midnight in milliseconds, one
      key per day), a later record on the same day replacing an earlier one. */
  function DayMap(data: seq<DailyMetrics>): (m: map<int, DailyMetrics>)
    ensures forall i :: 0 <= i < |data| ==> data[i].date in m
    ensures forall day :: day in m ==> m[day] in data && m[day].date == day
  {
    if data == [] then map[]
    else
      var last := data[|data| - 1];
      DayMap(data[..|data| - 1])[last.date := last]
  }

  /** The record the map keeps for a day is the last one on that day. */
  lemma {:induction false} DayMapKeepsLast(data: seq<DailyMetrics>, i: nat)
    requires i < |data|
    requires forall j :: i < j < |data| ==> data[j].date != data[i].date
    ensures DayMap(data)[data[i].date] == data[i]
  {
    if i < |data| - 1 {
      var init := data[..|data| - 1];
      assert init[i] == data[i];
      DayMapKeepsLast(init, i);
    }
  }

  /** The days from `start` on, `n` of them, that have a record in `m`,
      oldest first. */
  function WindowDays(m: map<int, DailyMetrics>, start: int, n: nat): (days: seq<int>)
    decreases n
    ensures |days| <= n
    ensures forall k :: 0 <= k < |days| ==> start <= days[k] < start + n && days[k] in m
    ensures forall k, l :: 0 <= k < l < |days| ==> days[k] < days[l]
    ensures forall d :: start <= d < start + n && d in m ==> d in days
  {
    if n == 0 then []
    else (if start in m then [start] else []) + WindowDays(m, start + 1, n - 1)
  }

  /** The chart points of some days of the map. */
  function PointsOf(m: map<int, DailyMetrics>, days: seq<int>): (points: seq<WeekPoint>)
    requires forall k :: 0 <= k < |days| ==> days[k] in m
    ensures |points| == |days|
    ensures forall k :: 0 <= k < |days| ==> points[k] == ToPoint(days[k], m[days[k]])
  {
    seq(|days|, k requires 0 <= k < |days| => ToPoint(days[k], m[days[k]]))
  }

  /** Days in the charts' window. */
  const WeekLength: nat := 7

  /** What `weeklyData` should be: the points of the seven days ending at the
      selected day that have a record, oldest first. */
  function WeekOf(m: map<int, DailyMetrics>, day: int): seq<WeekPoint>
  {
    var days := WindowDays(m, day - (WeekLength - 1), WeekLength);
    PointsOf(m, days)
  }

  /** The days the backward loop has found in the map after `k` rounds,
      in the order it pushed their points: day, day - 1, ..., day - k + 1. */
  function CollectedDays(m: map<int, DailyMetrics>, day: int, k: nat): (days: seq<int>)
    ensures forall j :: 0 <= j < |days| ==> days[j] in m
  {
    if k == 0 then []
    else CollectedDays(m, day, k - 1) + (if day - (k - 1) in m then [day - (k - 1)] else [])
  }

  function Reversed<T>(s: seq<T>): (r: seq<T>)
    ensures |r| == |s|
    ensures forall i :: 0 <= i < |s| ==> r[i] == s[|s| - 1 - i]
  {
    if s == [] then [] else Reversed(s[1..]) + [s[0]]
  }

  lemma ReversedAppend<T>(a: seq<T>, b: seq<T>)
    ensures Reversed(a + b) == Reversed(b) + Reversed(a)
  {
    var r := Reversed(a + b);
    var t := Reversed(b) + Reversed(a);
    assert |r| == |t|;
    forall i | 0 <= i < |r| ensures r[i] == t[i] {
      if i < |b| {
        assert r[i] == (a + b)[|a| + |b| - 1 - i];
      } else {
        assert r[i] == (a + b)[|a| + |b| - 1 - i];
      }
    }
  }

  lemma PointsOfAppend(m: map<int, DailyMetrics>, xs: seq<int>, ys: seq<int>)
    requires forall k :: 0 <= k < |xs| ==> xs[k] in m
    requires forall k :: 0 <= k < |ys| ==> ys[k] in m
    ensures forall k :: 0 <= k < |xs + ys| ==> (xs + ys)[k] in m
    ensures PointsOf(m, xs + ys) == PointsOf(m, xs) + PointsOf(m, ys)
  {
    assert forall k :: 0 <= k < |xs + ys| ==> (xs + ys)[k] in m by {
      forall k | 0 <= k < |xs + ys| ensures (xs + ys)[k] in m {
        if k >= |xs| {
          assert (xs + ys)[k] == ys[k - |xs|];
        }
      }
    }
  }

  /** Reversing the days pushed newest first gives them oldest first. */
  lemma {:induction false} ReversedCollectedDays(m: map<int, DailyMetrics>, day: int, k: nat, start: int)
    requires start + k == day + 1
    ensures Reversed(CollectedDays(m, day, k)) == WindowDays(m, start, k)
  {
    if k > 0 {
      var here := if start in m then [start] else [];
      assert day - (k - 1) == start;
      ReversedCollectedDays(m, day, k - 1, start + 1);
      ReversedStep(CollectedDays(m, day, k - 1), here, WindowDays(m, start + 1, k - 1));
    }
  }

  lemma ReversedStep<T>(before: seq<T>, here: seq<T>, rest: seq<T>)
    requires Reversed(before) == rest && |here| <= 1
    ensures Reversed(before + here) == here + rest
  {
    ReversedAppend(before, here);
    assert Reversed(here) == here;
  }

  /** The points of reversed days are the reversed points. */
  lemma ReversedPoints(m: map<int, DailyMetrics>, days: seq<int>)
    requires forall k :: 0 <= k < |days| ==> days[k] in m
    ensures forall k :: 0 <= k < |Reversed(days)| ==> Reversed(days)[k] in m
    ensures Reversed(PointsOf(m, days)) == PointsOf(m, Reversed(days))
  {
    var rd := Reversed(days);
    var pts := PointsOf(m, days);
    forall k | 0 <= k < |rd| ensures rd[k] in m {
      assert rd[k] == days[|days| - 1 - k];
    }
    var lhs := Reversed(pts);
    var rhs := PointsOf(m, rd);
    forall k | 0 <= k < |lhs| ensures lhs[k] == rhs[k] {
      var j := |days| - 1 - k;
      assert lhs[k] == pts[j];
      assert rd[k] == days[j];
    }
  }

  /** Seven rounds of the backward loop, reversed, give the week. */
  lemma LoopCollectsWeek(m: map<int, DailyMetrics>, day: int)
    ensures Reversed(PointsOf(m, CollectedDays(m, day, WeekLength))) == WeekOf(m, day)
  {
    ReversedCollectedDays(m, day, WeekLength, day - (WeekLength - 1));
    ReversedPoints(m, CollectedDays(m, day, WeekLength));
  }

  /** `historicalData.forEach(d => dataMap.set(...))`. */
  method BuildDayMap(historicalData: seq<DailyMetrics>) returns (dataMap: map<int, DailyMetrics>)
    ensures dataMap == DayMap(historicalData)
  {
    dataMap := map[];
    for k := 0 to |historicalData|
      invariant dataMap == DayMap(historicalData[..k])
    {
      assert historicalData[..k + 1][..k] == historicalData[..k];
      dataMap := dataMap[historicalData[k].date := historicalData[k]];
    }
    assert historicalData[..|historicalData|] == historicalData;
  }

  /** `weeklyData`: nothing without a selected date or without data;
      otherwise the map is filled, the seven days ending at the selected one
      are looked up newest first, and the collected points are reversed. */
  method WeeklyData(selectedDate: Option<int>, historicalData: seq<DailyMetrics>)
    returns (result: seq<WeekPoint>)
    ensures selectedDate.None? || |historicalData| == 0 ==> result == []
    ensures selectedDate.Some? && |historicalData| > 0 ==>
              result == WeekOf(DayMap(historicalData), selectedDate.value)
    ensures |result| <= 7
  {
    if selectedDate.None? || |historicalData| == 0 {
      return [];
    }
    var day := selectedDate.value;
    var dataMap := BuildDayMap(historicalData);
    var collected: seq<WeekPoint> := [];
    for i := 0 to WeekLength
      invariant collected == PointsOf(dataMap, CollectedDays(dataMap, day, i))
    {
      var date := day - i;
      if date in dataMap {
        var metrics := dataMap[date];
        PointsOfAppend(dataMap, CollectedDays(dataMap, day, i), [date]);
        collected := collected + [ToPoint(date, metrics)];
      }
    }
    result := Reversed(collected);
    LoopCollectsWeek(dataMap, day);
  }

  /** Every point of the week comes from a record of the data dated within
      the seven days ending at the selected day, the last such record of its
      day, and the points run oldest first. */
  lemma WeekFromRecords(data: seq<DailyMetrics>, day: int)
    ensures var m := DayMap(data);
            var days := WindowDays(m, day - (WeekLength - 1), WeekLength);
            && WeekOf(m, day) == PointsOf(m, days)
            && (forall k :: 0 <= k < |days| ==>
                  day - 6 <= days[k] <= day && m[days[k]] in data && m[days[k]].date == days[k])
            && (forall k, l :: 0 <= k < l < |days| ==> days[k] < days[l])
            && (forall i :: 0 <= i < |data| && day - 6 <= data[i].date <= day ==> data[i].date in days)
  {
    var m := DayMap(data);
    var start := day - (WeekLength - 1);
    assert start == day - 6 && start + WeekLength == day + 1;
    var days := WindowDays(m, start, WeekLength);
    forall i | 0 <= i < |data| && day - 6 <= data[i].date <= day ensures data[i].date in days {
      assert data[i].date in m;
    }
  }

  // ---------------------------------------------------------------------------
  // Formatters
  // ---------------------------------------------------------------------------

  /** `formatPercent`: 'N/A' when undefined, otherwise two decimals and a
      '%', with a '+' only in front of a strictly positive value. */
  function FormatPercent(value: Option<real>): (s: string)
    ensures value.None? <==> s == "N/A"
    ensures value.Some? ==> |s| >= 2 && s[|s| - 1] == '%'
    ensures value.Some? ==> (s[0] == '+' <==> value.value > 0.0)
    ensures value.Some? ==> (s[0] == '-' <==> value.value < 0.0)
  {
    match value
    case None => "N/A"
    case Some(v) =>
      var digits := Text.ToFixed(v, 2);
      (if v > 0.0 then "+" else "") + digits + "%"
  }

  /** `formatVolume`: 'N/A' when undefined; otherwise scaled to billions,
      millions or thousands, whichever is the largest the value reaches,
      with the matching suffix, or plain two decimals below a thousand. */
  function FormatVolume(value: Option<real>): (s: string)
    ensures value.None? <==> s == "N/A"
    ensures value.Some? ==> |s| >= 1
    ensures value.Some? ==> (s[|s| - 1] == 'B' <==> value.value >= 1000000000.0)
    ensures value.Some? ==> (s[|s| - 1] == 'M' <==> 1000000.0 <= value.value < 1000000000.0)
    ensures value.Some? ==> (s[|s| - 1] == 'K' <==> 1000.0 <= value.value < 1000000.0)
    ensures value.Some? ==> (Text.IsDigit(s[|s| - 1]) <==> value.value < 1000.0)
  {
    match value
    case None => "N/A"
    case Some(v) =>
      if v >= 1000000000.0 then Text.ToFixed(v / 1000000000.0, 2) + "B"
      else if v >= 1000000.0 then Text.ToFixed(v / 1000000.0, 2) + "M"
      else if v >= 1000.0 then Text.ToFixed(v / 1000.0, 2) + "K"
      else Text.ToFixed(v, 2)
  }

  // ---------------------------------------------------------------------------
  // The drawer
  // ---------------------------------------------------------------------------

  /** The calendar store's selected date, which the drawer shows. */
  class Drawer {
    var selectedDate: Option<int>

    /** `open={!!selectedDate}`. */
    predicate IsOpen()
      reads this
    {
      selectedDate.Some?
    }

    constructor()
      ensures selectedDate == None && !IsOpen()
    {
      selectedDate := None;
    }

    /** A calendar cell picks a day: the drawer opens on it. */
    method SelectDate(day: int)
      modifies this
      ensures selectedDate == Some(day) && IsOpen()
    {
      selectedDate := Some(day);
    }

    /** `handleClose`: the selection is cleared, which closes the drawer and
        empties what it shows. */
    method HandleClose(historicalData: seq<DailyMetrics>)
      modifies this
      ensures selectedDate == None && !IsOpen()
      ensures SelectedMetrics(selectedDate, historicalData) == None
    {
      selectedDate := None;
    }
  }
}
