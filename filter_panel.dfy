/** The filter state of the dashboard's filter panel
    (src/components/common/FilterPanel.tsx): the count of active filters
    shown on its badge, the reset button, the handler that records a change
    and moves the calendar's view mode, and the chain of filters that picks
    the records the panel reports as matching. */
module FilterPanel {
  import opened Common
  import opened Market
  import Dates

  /** `FilterState`. Time periods and metric types are the option strings
      of the two drop-downs ("all", "lastWeek", ...); thresholds are reals. */
  datatype FilterState = FilterState(
    instrument: string,
    timePeriod: string,
    metricType: string,
    displayThreshold: real,
    showOnlyPositive: bool,
    showOnlyNegative: bool,
    showOnlyHighVolatility: bool,
    volatilityThreshold: real)

  /** The filters the panel starts with and returns to on "clear all". */
  function DefaultFilters(instrument: string): FilterState
  {
    FilterState(instrument, "all", "all", 0.0, false, false, false, 20.0)
  }

  /** None of the six filters the badge counts is set. */
  predicate NoneActive(f: FilterState)
  {
    && f.timePeriod == "all" && f.metricType == "all" && f.displayThreshold <= 0.0
    && !f.showOnlyPositive && !f.showOnlyNegative && !f.showOnlyHighVolatility
  }

  function Tally(b: bool): nat
  {
    if b then 1 else 0
  }

  /** `activeFiltersCount`: one for each of the six filters away from its
      default; the instrument and the volatility threshold never count. */
  function ActiveFiltersCount(f: FilterState): (count: nat)
    ensures count <= 6
    ensures count == 0 <==> NoneActive(f)
  {
    Tally(f.timePeriod != "all") + Tally(f.metricType != "all") + Tally(f.displayThreshold > 0.0)
      + Tally(f.showOnlyPositive) + Tally(f.showOnlyNegative) + Tally(f.showOnlyHighVolatility)
  }

  /** Neither the instrument nor the volatility threshold moves the count. */
  lemma CountIgnoresInstrumentAndThreshold(f: FilterState, instrument: string, threshold: real)
    ensures ActiveFiltersCount(f.(instrument := instrument, volatilityThreshold := threshold))
         == ActiveFiltersCount(f)
  {
  }

  /** The calendar's view modes. */
  datatype ViewMode = Day | Week | Month

  /** The view mode a new time period selects: the last week is shown by
      week, the last month, quarter or year by month, anything else by day. */
  function ViewModeFor(period: string): (mode: ViewMode)
    ensures mode == Week <==> period == "lastWeek"
    ensures mode == Month <==> period == "lastMonth" || period == "lastQuarter" || period == "lastYear"
  {
    match period
    case "lastWeek" => Week
    case "lastMonth" => Month
    case "lastQuarter" => Month
    case "lastYear" => Month
    case _ => Day
  }

  /** A change of one field, as the panel's controls report it
      (`handleFilterChange(key, value)`). */
  datatype FilterChange =
    | SetInstrument(instrument: string)
    | SetTimePeriod(timePeriod: string)
    | SetMetricType(metricType: string)
    | SetDisplayThreshold(displayThreshold: real)
    | SetShowOnlyPositive(showOnlyPositive: bool)
    | SetShowOnlyNegative(showOnlyNegative: bool)
    | SetShowOnlyHighVolatility(showOnlyHighVolatility: bool)
    | SetVolatilityThreshold(volatilityThreshold: real)

  /** `{ ...prev, [key]: value }`. */
  function Apply(f: FilterState, change: FilterChange): FilterState
  {
    match change
    case SetInstrument(v) => f.(instrument := v)
    case SetTimePeriod(v) => f.(timePeriod := v)
    case SetMetricType(v) => f.(metricType := v)
    case SetDisplayThreshold(v) => f.(displayThreshold := v)
    case SetShowOnlyPositive(v) => f.(showOnlyPositive := v)
    case SetShowOnlyNegative(v) => f.(showOnlyNegative := v)
    case SetShowOnlyHighVolatility(v) => f.(showOnlyHighVolatility := v)
    case SetVolatilityThreshold(v) => f.(volatilityThreshold := v)
  }

  /** A change touches the one field it names and no other. */
  lemma ApplyChangesOneField(f: FilterState, change: FilterChange)
    ensures var g := Apply(f, change);
      && (g.instrument != f.instrument ==> change.SetInstrument?)
      && (g.timePeriod != f.timePeriod ==> change.SetTimePeriod?)
      && (g.metricType != f.metricType ==> change.SetMetricType?)
      && (g.displayThreshold != f.displayThreshold ==> change.SetDisplayThreshold?)
      && (g.showOnlyPositive != f.showOnlyPositive ==> change.SetShowOnlyPositive?)
      && (g.showOnlyNegative != f.showOnlyNegative ==> change.SetShowOnlyNegative?)
      && (g.showOnlyHighVolatility != f.showOnlyHighVolatility ==> change.SetShowOnlyHighVolatility?)
      && (g.volatilityThreshold != f.volatilityThreshold ==> change.SetVolatilityThreshold?)
  {
  }

  // ---------------------------------------------------------------------------
  // The filter chain of getFilteredData
  // ---------------------------------------------------------------------------

  /** `Math.abs`. */
  function Abs(x: real): (r: real)
    ensures r >= 0.0 && (r == x || r == -x)
  {
    if x < 0.0 then -x else x
  }

  /** The start of a time period, in milliseconds, for the clock reading
      `now`: `setDate(getDate() - 7)`, `setMonth(getMonth() - 1)`,
      `setMonth(getMonth() - 3)` or `setFullYear(getFullYear() - 1)` on a
      copy of `now`, which keeps the time of day and lets the date roll
      over; a period the switch does not name starts at `now` itself. */
  function PeriodStart(period: string, now: int): (start: int)
    ensures var day := Dates.DayOfTimestamp(now);
            && Dates.DayOfTimestamp(start) == StartDay(period, day, Dates.CivilFromDays(day))
            && start - Dates.DayOfTimestamp(start) * Dates.MsPerDay == now - day * Dates.MsPerDay
    ensures period !in {"lastWeek", "lastMonth", "lastQuarter", "lastYear"} ==> start == now
  {
    var day := Dates.DayOfTimestamp(now);
    var timeOfDay := now - day * Dates.MsPerDay;
    var c := Dates.CivilFromDays(day);
    var startDay := StartDay(period, day, c);
    SameTimeOfDay(startDay, timeOfDay);
    startDay * Dates.MsPerDay + timeOfDay
  }

  /** A time of day added to a midnight stays on that day. */
  lemma SameTimeOfDay(day: int, timeOfDay: int)
    requires 0 <= timeOfDay < Dates.MsPerDay
    ensures Dates.DayOfTimestamp(day * Dates.MsPerDay + timeOfDay) == day
  {
    var d := Dates.DayOfTimestamp(day * Dates.MsPerDay + timeOfDay);
    assert (d - day) * Dates.MsPerDay <= timeOfDay < (d - day + 1) * Dates.MsPerDay;
  }

  /** The day the period starts on, from the day `day` of `now` and its
      civil date `c`: the same date of the month one, three or twelve
      months back, counted from the first of that month so that a date
      past its end rolls over; seven dates back for the last week; `day`
      itself for any other period. */
  function StartDay(period: string, day: int, c: Dates.Civil): (start: int)
    ensures period == "lastWeek" && 1 <= c.month <= 12 ==>
              start == Dates.DaysFromCivil(c.year, c.month, 1) + c.day - 8
    ensures period == "lastMonth" && 2 <= c.month <= 12 ==>
              start == Dates.DaysFromCivil(c.year, c.month - 1, 1) + c.day - 1
    ensures period == "lastMonth" && c.month == 1 ==>
              start == Dates.DaysFromCivil(c.year - 1, 12, 1) + c.day - 1
    ensures period == "lastQuarter" && 4 <= c.month <= 12 ==>
              start == Dates.DaysFromCivil(c.year, c.month - 3, 1) + c.day - 1
    ensures period == "lastQuarter" && 1 <= c.month <= 3 ==>
              start == Dates.DaysFromCivil(c.year - 1, c.month + 9, 1) + c.day - 1
    ensures period == "lastYear" && 1 <= c.month <= 12 ==>
              start == Dates.DaysFromCivil(c.year - 1, c.month, 1) + c.day - 1
    ensures period !in {"lastWeek", "lastMonth", "lastQuarter", "lastYear"} ==> start == day
  {
    match period
    case "lastWeek" => Dates.MakeDay(c.year, c.month - 1, c.day - 7)
    case "lastMonth" => Dates.MakeDay(c.year, c.month - 2, c.day)
    case "lastQuarter" => Dates.MakeDay(c.year, c.month - 4, c.day)
    case "lastYear" => Dates.MakeDay(c.year - 1, c.month - 1, c.day)
    case _ => day
  }

  /** The last week starts exactly seven days before `now`. */
  lemma LastWeekStart(now: int)
    ensures PeriodStart("lastWeek", now) == now - 7 * Dates.MsPerDay
  {
    var day := Dates.DayOfTimestamp(now);
    LastWeekStartDay(day);
    assert PeriodStart("lastWeek", now) == (day - 7) * Dates.MsPerDay + (now - day * Dates.MsPerDay);
    assert (day - 7) * Dates.MsPerDay == day * Dates.MsPerDay - 7 * Dates.MsPerDay;
  }

  /** Seven days back from a date is seven day numbers back. */
  lemma LastWeekStartDay(day: int)
    ensures StartDay("lastWeek", day, Dates.CivilFromDays(day)) == day - 7
  {
    Dates.CivilRoundTrip(day);
    LastWeekOfCivil(day, Dates.CivilFromDays(day));
  }

  /** The same, for any civil date of the day. */
  lemma LastWeekOfCivil(day: int, c: Dates.Civil)
    requires 1 <= c.month <= 12 && Dates.DaysFromCivil(c.year, c.month, c.day) == day
    ensures StartDay("lastWeek", day, c) == day - 7
  {
    WeekBack(c.year, c.month, c.day);
  }

  /** `MakeDay` seven dates back in the same month is seven day numbers back. */
  lemma WeekBack(year: int, month: int, date: int)
    requires 1 <= month <= 12
    ensures Dates.MakeDay(year, month - 1, date - 7) == Dates.DaysFromCivil(year, month, date) - 7
  {
    DayOfMonthShift(year, month, date);
  }

  /** Consecutive dates of a month are consecutive day numbers. */
  lemma DayOfMonthShift(year: int, month: int, date: int)
    requires 1 <= month <= 12
    ensures Dates.DaysFromCivil(year, month, date) == Dates.DaysFromCivil(year, month, 1) + date - 1
  {
  }

  /** The record falls in the chosen time period (`new Date(d.date) >= startDate`). */
  predicate InPeriod(f: FilterState, now: int, d: DailyMetrics)
  {
    f.timePeriod == "all" || Dates.MidnightMs(d.date) >= PeriodStart(f.timePeriod, now)
  }

  /** The record moved at least the display threshold, if one is set. */
  predicate MovesEnough(f: FilterState, d: DailyMetrics)
  {
    f.displayThreshold <= 0.0 || Abs(d.changePercent) >= f.displayThreshold
  }

  /** The record's change has the sign the switches ask for. */
  predicate HasWantedSign(f: FilterState, d: DailyMetrics)
  {
    (!f.showOnlyPositive || d.changePercent > 0.0) && (!f.showOnlyNegative || d.changePercent < 0.0)
  }

  /** `d.volatility && d.volatility >= volatilityThreshold`, when asked for:
      an absent or zero volatility is falsy and never passes. */
  predicate VolatileEnough(f: FilterState, d: DailyMetrics)
  {
    !f.showOnlyHighVolatility
      || VolatilityAtLeast(d, f.volatilityThreshold)
  }

  /** A record the panel reports as matching: every filter lets it through. */
  predicate Admits(f: FilterState, now: int, d: DailyMetrics)
  {
    InPeriod(f, now, d) && MovesEnough(f, d) && HasWantedSign(f, d) && VolatileEnough(f, d)
  }

  /** A defined, non-zero volatility of at least `threshold`. */
  predicate VolatilityAtLeast(d: DailyMetrics, threshold: real)
  {
    d.volatility.Some? && d.volatility.value != 0.0 && d.volatility.value >= threshold
  }

  /** What the filters guarantee about the records they admit: an order-
      preserving subsequence, everything when no filter is active, only big
      enough moves, nothing when both signs are excluded, only defined high
      volatilities. */
  lemma AdmittedRecords(data: seq<DailyMetrics>, f: FilterState, now: int)
    ensures var r := Where(data, (d: DailyMetrics) => Admits(f, now, d));
      && IsSubsequence(r, data)
      && (ActiveFiltersCount(f) == 0 ==> r == data)
      && (f.displayThreshold > 0.0 ==>
            forall i :: 0 <= i < |r| ==> Abs(r[i].changePercent) >= f.displayThreshold)
      && (f.showOnlyPositive && f.showOnlyNegative ==> r == [])
      && (f.showOnlyHighVolatility ==>
            forall i :: 0 <= i < |r| ==> VolatilityAtLeast(r[i], f.volatilityThreshold))
  {
    var admits := (d: DailyMetrics) => Admits(f, now, d);
    WhereIsSubsequence(data, admits);
    if ActiveFiltersCount(f) == 0 {
      WhereAll(data, admits);
    }
    if f.showOnlyPositive && f.showOnlyNegative {
      WhereNone(data, admits);
    }
  }

  /** `getFilteredData`: the filters applied one after another, each only
      when set. The result is the records every filter admits, in their
      original order (see `AdmittedRecords` for what that guarantees). */
  method GetFilteredData(historicalData: seq<DailyMetrics>, filters: FilterState, now: int)
    returns (filteredData: seq<DailyMetrics>)
    ensures filteredData == Where(historicalData, (d: DailyMetrics) => Admits(filters, now, d))
  {
    ghost var p1 := (d: DailyMetrics) => InPeriod(filters, now, d);
    ghost var p2 := (d: DailyMetrics) => InPeriod(filters, now, d) && MovesEnough(filters, d);
    ghost var p3 := (d: DailyMetrics) => p2(d) && (!filters.showOnlyPositive || d.changePercent > 0.0);
    ghost var p4 := (d: DailyMetrics) => p2(d) && HasWantedSign(filters, d);
    ghost var p5 := (d: DailyMetrics) => Admits(filters, now, d);

    filteredData := historicalData;
    if filters.timePeriod != "all" {
      var startDate := PeriodStart(filters.timePeriod, now);
      filteredData := Where(filteredData, (d: DailyMetrics) => Dates.MidnightMs(d.date) >= startDate);
      WhereSame(historicalData, (d: DailyMetrics) => Dates.MidnightMs(d.date) >= startDate, p1);
    } else {
      WhereAll(historicalData, p1);
    }
    assert filteredData == Where(historicalData, p1);

    if filters.displayThreshold > 0.0 {
      var before := filteredData;
      filteredData := Where(filteredData, (d: DailyMetrics) => Abs(d.changePercent) >= filters.displayThreshold);
      WhereWhere(historicalData, p1, (d: DailyMetrics) => Abs(d.changePercent) >= filters.displayThreshold, p2);
    } else {
      WhereSame(historicalData, p1, p2);
    }
    assert filteredData == Where(historicalData, p2);

    if filters.showOnlyPositive {
      filteredData := Where(filteredData, (d: DailyMetrics) => d.changePercent > 0.0);
      WhereWhere(historicalData, p2, (d: DailyMetrics) => d.changePercent > 0.0, p3);
    } else {
      WhereSame(historicalData, p2, p3);
    }
    assert filteredData == Where(historicalData, p3);

    if filters.showOnlyNegative {
      filteredData := Where(filteredData, (d: DailyMetrics) => d.changePercent < 0.0);
      WhereWhere(historicalData, p3, (d: DailyMetrics) => d.changePercent < 0.0, p4);
    } else {
      WhereSame(historicalData, p3, p4);
    }
    assert filteredData == Where(historicalData, p4);

    if filters.showOnlyHighVolatility {
      filteredData := Where(filteredData, (d: DailyMetrics) => d.volatility.Some? && d.volatility.value != 0.0
                                               && d.volatility.value >= filters.volatilityThreshold);
      WhereWhere(historicalData, p4, (d: DailyMetrics) => d.volatility.Some? && d.volatility.value != 0.0
                                          && d.volatility.value >= filters.volatilityThreshold, p5);
    } else {
      WhereSame(historicalData, p4, p5);
    }

  }

  // ---------------------------------------------------------------------------
  // The panel's state
  // ---------------------------------------------------------------------------

  /** The panel together with the two store fields it drives: the market
      data store's instrument and the calendar's view mode. */
  class Panel {
    var instrument: string
    var filters: FilterState
    var viewMode: ViewMode
    var expanded: bool

    /** The effect on `instrument` keeps the filter's copy in step with the store. */
    ghost predicate Valid()
      reads this
    {
      filters.instrument == instrument
    }

    /** A fresh panel: collapsed, with the default filters for the store's instrument. */
    constructor(instrument: string, viewMode: ViewMode)
      ensures Valid()
      ensures this.instrument == instrument && this.viewMode == viewMode
      ensures filters == DefaultFilters(instrument) && !expanded
      ensures ActiveFiltersCount(filters) == 0
    {
      this.instrument := instrument;
      this.filters := DefaultFilters(instrument);
      this.viewMode := viewMode;
      this.expanded := false;
    }

    /** `handleFilterChange`: records the change; an instrument change goes
        to the store at once, and a time period change picks the view mode. */
    method HandleFilterChange(change: FilterChange)
      requires Valid()
      modifies this
      ensures Valid()
      ensures filters == Apply(old(filters), change)
      ensures instrument == (if change.SetInstrument? then change.instrument else old(instrument))
      ensures viewMode == (if change.SetTimePeriod? then ViewModeFor(change.timePeriod) else old(viewMode))
      ensures expanded == old(expanded)
      ensures change.SetInstrument? || change.SetVolatilityThreshold? ==>
                ActiveFiltersCount(filters) == ActiveFiltersCount(old(filters))
    {
      filters := Apply(filters, change);
      match change {
        case SetInstrument(v) =>
          instrument := v;
        case SetTimePeriod(v) =>
          viewMode := ViewModeFor(v);
        case _ =>
      }
    }

    /** `clearAllFilters`: back to the defaults, keeping the instrument, so
        no filter is active any more. */
    method ClearAllFilters()
      requires Valid()
      modifies this
      ensures Valid()
      ensures filters == DefaultFilters(old(instrument))
      ensures instrument == old(instrument) && viewMode == old(viewMode) && expanded == old(expanded)
      ensures ActiveFiltersCount(filters) == 0
    {
      filters := DefaultFilters(instrument);
    }

    /** The expand/collapse button. */
    method ToggleExpanded()
      modifies this
      ensures expanded == !old(expanded)
      ensures filters == old(filters) && instrument == old(instrument) && viewMode == old(viewMode)
    {
      expanded := !expanded;
    }
  }
}
