/** The parts of `CryptoService` in src/services/api/cryptoService.ts that
    compute something: the rate-limit delay kept through the field
    `lastRequestTime`, the error message for a failed request, and
    `transformMarketData`, which groups the points of a market-chart
    response by UTC day. Clock readings are parameters; the HTTP calls are
    not modelled. */
module CryptoService {
  import opened Common
  import opened Market
  import opened PricePoints
  import Text

  // ---------------------------------------------------------------------------
  // Rate limiting
  // ---------------------------------------------------------------------------

  /** `rateLimitDelay`: 1.2 seconds between requests. */
  const RateLimitDelay: int := 1200

  /** How long `handleRateLimit` waits when the previous request went out
      at `last` and this one arrives at `now`: the rest of the 1200 ms, or
      nothing once that much has passed. */
  function Delay(last: int, now: int): (d: int)
    ensures d >= 0
    ensures d == 0 <==> now - last >= RateLimitDelay
    ensures d > 0 ==> now + d == last + RateLimitDelay
  {
    var elapsed := now - last;
    if elapsed < RateLimitDelay then RateLimitDelay - elapsed else 0
  }

  /** A request that waits out its delay leaves at least 1200 ms after the
      previous one. */
  lemma DelaySpacesRequests(last: int, now: int, sent: int)
    requires sent >= now + Delay(last, now)
    ensures sent - last >= RateLimitDelay
  {
  }

  class RateLimiter {
    var lastRequestTime: int

    constructor()
      ensures lastRequestTime == 0
    {
      lastRequestTime := 0;
    }

    /** `handleRateLimit` up to its `await`: the clock reads `now` when the
        request arrives and the wait is computed from `lastRequestTime`;
        nothing is written yet. */
    method Arrive(now: int) returns (delay: int)
      ensures delay == Delay(lastRequestTime, now)
    {
      var timeSinceLastRequest := now - lastRequestTime;
      delay := 0;
      if timeSinceLastRequest < RateLimitDelay {
        delay := RateLimitDelay - timeSinceLastRequest;
      }
    }

    /** `handleRateLimit` after its `await`: the clock reads `sent` and the
        request is stamped with it. */
    method Stamp(sent: int)
      modifies this
      ensures lastRequestTime == sent
    {
      lastRequestTime := sent;
    }

    /** `handleRateLimit` for a request that no other request overlaps: it
        arrives at `now`, waits (`setTimeout` waits at least `delay`) and is
        stamped with `sent`, so it leaves at least 1200 ms after the
        previous one. Overlapping requests give no such guarantee; see
        `OverlappingRequestsLeaveTogether`. */
    method HandleRateLimit(now: int, sent: int) returns (delay: int)
      requires sent >= now + Delay(lastRequestTime, now)
      modifies this
      ensures delay == Delay(old(lastRequestTime), now)
      ensures lastRequestTime == sent
      ensures lastRequestTime - old(lastRequestTime) >= RateLimitDelay
    {
      delay := Arrive(now);
      DelaySpacesRequests(lastRequestTime, now, sent);
      Stamp(sent);
    }
  }

  /** Two requests that both arrive before either is stamped read the same
      `lastRequestTime`; if each waits exactly its delay, they leave at the
      same instant, however far apart they arrived. */
  lemma OverlappingRequestsLeaveTogether(last: int, now1: int, now2: int)
    requires now1 - last < RateLimitDelay && now2 - last < RateLimitDelay
    ensures now1 + Delay(last, now1) == now2 + Delay(last, now2) == last + RateLimitDelay
  {
  }

  /** One interleaving of `handleRateLimit` on a shared limiter: request A
      leaves at 0, B arrives at 100 and C at 200, both before either is
      stamped; B waits 1100 ms and C 1000 ms, and the two leave 0 ms
      apart. */
  method OverlappingRequestsExample() returns (delayB: int, delayC: int, gap: int)
    ensures delayB == 1100 && delayC == 1000
    ensures gap == 0 < RateLimitDelay
  {
    var limiter := new RateLimiter();
    limiter.Stamp(0);
    delayB := limiter.Arrive(100);
    delayC := limiter.Arrive(200);
    limiter.Stamp(100 + delayB);
    var sentB := limiter.lastRequestTime;
    limiter.Stamp(200 + delayC);
    gap := limiter.lastRequestTime - sentB;
  }

  // ---------------------------------------------------------------------------
  // handleApiError
  // ---------------------------------------------------------------------------

  /** The message `handleApiError` throws for a failed request: a fixed
      message when no response came back, and the request's own error
      text behind `Request error: ` when the request could not be set up.
      The statuses are told apart in `ApiErrorMessageCases`. */
  function ApiErrorMessage(f: ApiFailure): (msg: string)
    ensures f.NoResponse? ==> msg == "Network error. Please check your internet connection."
    ensures f.SetupFailed? ==> |msg| >= 15 && msg[..15] == "Request error: " && msg[15..] == f.message
  {
    match f
    case ErrorStatus(status, error) =>
      if status == 429 then "Rate limit exceeded. Please try again later."
      else if status == 404 then "Cryptocurrency not found."
      else if status == 500 then "Server error. Please try again later."
      else "API error: " + Text.NatToString(status) + " - " + ErrorOrUnknown(error)
    case NoResponse => "Network error. Please check your internet connection."
    case SetupFailed(message) => "Request error: " + message
  }

  /** The three statuses with their own message are told apart from each
      other and from every other status, whose message is `API error: `,
      the status's digits, ` - ` and the server's error text, or
      `Unknown error` when it sent none. */
  lemma ApiErrorMessageCases(status: nat, error: Option<string>)
    ensures var msg := ApiErrorMessage(ErrorStatus(status, error));
            var digits := Text.NatToString(status);
            && (status == 429 <==> msg == "Rate limit exceeded. Please try again later.")
            && (status == 404 <==> msg == "Cryptocurrency not found.")
            && (status == 500 <==> msg == "Server error. Please try again later.")
            && (status !in {429, 404, 500} ==>
                  && |msg| >= 11 + |digits|
                  && msg[..11] == "API error: "
                  && msg[11..11 + |digits|] == digits
                  && Text.ParseNat(msg[11..11 + |digits|]) == status
                  && msg[11 + |digits|..] == " - " + ErrorOrUnknown(error))
  {
    if status !in {429, 404, 500} {
      OtherStatusMessage(status, error);
    }
  }

  /** Any other status gets `API error: `, its digits, then ` - ` and the
      server's error text, or `Unknown error` when it sent none. */
  lemma OtherStatusMessage(status: nat, error: Option<string>)
    requires status !in {429, 404, 500}
    ensures var msg := ApiErrorMessage(ErrorStatus(status, error));
            var digits := Text.NatToString(status);
            && msg[0] == 'A'
            && |msg| >= 11 + |digits|
            && msg[..11] == "API error: "
            && msg[11..11 + |digits|] == digits
            && Text.ParseNat(msg[11..11 + |digits|]) == status
            && msg[11 + |digits|..] == " - " + ErrorOrUnknown(error)
  {
    var digits := Text.NatToString(status);
    var tail := " - " + ErrorOrUnknown(error);
    assert ApiErrorMessage(ErrorStatus(status, error)) == "API error: " + digits + tail;
    ConcatParts("API error: ", digits, tail);
    Text.ParseNatToString(status);
  }

  lemma ConcatParts(a: string, b: string, c: string)
    ensures |a + b + c| == |a| + |b| + |c|
    ensures (a + b + c)[..|a|] == a
    ensures (a + b + c)[|a|..|a| + |b|] == b
    ensures (a + b + c)[|a| + |b|..] == c
    ensures forall i :: 0 <= i < |a| ==> (a + b + c)[i] == a[i]
  {
  }

  // ---------------------------------------------------------------------------
  // transformMarketData
  // ---------------------------------------------------------------------------

  /** The lists `transformMarketData` keeps per day. */
  datatype DayLists = DayLists(prices: seq<real>, volumes: seq<real>, timestamps: seq<int>)

  function Timestamps(points: seq<Point>): (ts: seq<int>)
    ensures |ts| == |points|
    ensures forall i :: 0 <= i < |points| ==> ts[i] == points[i].timestamp
  {
    seq(|points|, i requires 0 <= i < |points| => points[i].timestamp)
  }

  /** The price pass on one point: the day gets empty lists if it is new,
      then the price and its timestamp are appended. */
  function WithPrice(m: map<int, DayLists>, p: Point): map<int, DayLists>
  {
    var day := DayOf(p);
    var lists := if day in m then m[day] else DayLists([], [], []);
    m[day := lists.(prices := lists.prices + [p.value], timestamps := lists.timestamps + [p.timestamp])]
  }

  /** The volume pass on one point: appended to a day that has prices,
      dropped otherwise. */
  function WithVolume(m: map<int, DayLists>, p: Point): map<int, DayLists>
  {
    var day := DayOf(p);
    if day in m then m[day := m[day].(volumes := m[day].volumes + [p.value])] else m
  }

  /** The map after the price pass over `prices[..i]`: one entry per day
      seen, holding that day's prices and timestamps in input order. */
  ghost predicate PricedUpTo(prices: seq<Point>, i: nat, m: map<int, DayLists>, days: seq<int>)
  {
    && i <= |prices|
    && KeysInOrder(m, days)
    && (forall day :: day in m <==> day in Days(prices[..i]))
    && (forall day :: day in m ==>
          && m[day].prices == Values(PointsOn(prices[..i], day))
          && m[day].timestamps == Timestamps(PointsOn(prices[..i], day))
          && m[day].volumes == [])
  }

  lemma TimestampsAppend(points: seq<Point>, p: Point)
    ensures Timestamps(points + [p]) == Timestamps(points) + [p.timestamp]
  {
  }

  lemma PriceStep(prices: seq<Point>, i: nat, m: map<int, DayLists>, days: seq<int>)
    requires PricedUpTo(prices, i, m, days) && i < |prices|
    ensures PricedUpTo(prices, i + 1, WithPrice(m, prices[i]), WithDay(m, days, prices[i]))
  {
    var m' := WithPrice(m, prices[i]);
    PriceStepKeys(prices, i, m, days);
    forall day | day in m'
      ensures m'[day].prices == Values(PointsOn(prices[..i + 1], day))
      ensures m'[day].timestamps == Timestamps(PointsOn(prices[..i + 1], day))
      ensures m'[day].volumes == []
    {
      PriceStepDay(prices, i, m, days, day);
    }
  }

  lemma PriceStepKeys(prices: seq<Point>, i: nat, m: map<int, DayLists>, days: seq<int>)
    requires PricedUpTo(prices, i, m, days) && i < |prices|
    ensures KeysInOrder(WithPrice(m, prices[i]), WithDay(m, days, prices[i]))
    ensures forall day :: day in WithPrice(m, prices[i]) <==> day in Days(prices[..i + 1])
  {
    PointsOnStep(prices, i);
  }

  /** One day's lists after the price pass reaches `prices[i]`. */
  lemma PriceStepDay(prices: seq<Point>, i: nat, m: map<int, DayLists>, days: seq<int>, day: int)
    requires PricedUpTo(prices, i, m, days) && i < |prices|
    requires day in WithPrice(m, prices[i])
    ensures WithPrice(m, prices[i])[day].prices == Values(PointsOn(prices[..i + 1], day))
    ensures WithPrice(m, prices[i])[day].timestamps == Timestamps(PointsOn(prices[..i + 1], day))
    ensures WithPrice(m, prices[i])[day].volumes == []
  {
    var p := prices[i];
    PointsOnStep(prices, i);
    var before := PointsOn(prices[..i], day);
    if day == DayOf(p) {
      ValuesAppend(before, p);
      TimestampsAppend(before, p);
      if day !in m {
        PointsOnDays(prices[..i], day);
      }
    } else {
      assert PointsOn(prices[..i + 1], day) == before + [] == before;
    }
  }

  /** The map after the volume pass over `volumes[..j]`, starting from the
      priced map `m0`: only the volume lists have grown, each by the volume
      points of its own day. */
  ghost predicate VolumedUpTo(volumes: seq<Point>, j: nat, m0: map<int, DayLists>, m: map<int, DayLists>)
  {
    && j <= |volumes|
    && m.Keys == m0.Keys
    && (forall day :: day in m ==> m[day].(volumes := []) == m0[day].(volumes := []))
    && (forall day :: day in m ==> m[day].volumes == m0[day].volumes + Values(PointsOn(volumes[..j], day)))
  }

  lemma VolumeStep(volumes: seq<Point>, j: nat, m0: map<int, DayLists>, m: map<int, DayLists>)
    requires VolumedUpTo(volumes, j, m0, m) && j < |volumes|
    ensures VolumedUpTo(volumes, j + 1, m0, WithVolume(m, volumes[j]))
  {
    var m' := WithVolume(m, volumes[j]);
    forall day | day in m'
      ensures m'[day].volumes == m0[day].volumes + Values(PointsOn(volumes[..j + 1], day))
    {
      VolumeStepDay(volumes, j, m0, m, day);
    }
  }

  lemma VolumeStepDay(volumes: seq<Point>, j: nat, m0: map<int, DayLists>, m: map<int, DayLists>, day: int)
    requires VolumedUpTo(volumes, j, m0, m) && j < |volumes| && day in m
    ensures WithVolume(m, volumes[j])[day].volumes == m0[day].volumes + Values(PointsOn(volumes[..j + 1], day))
  {
    var p := volumes[j];
    PointsOnStep(volumes, j);
    var before := PointsOn(volumes[..j], day);
    if day == DayOf(p) {
      ValuesAppend(before, p);
    } else {
      assert PointsOn(volumes[..j + 1], day) == before + [] == before;
    }
  }

  // The `sort()` of the date keys

  function InsertDay(x: int, s: seq<int>): (r: seq<int>)
    ensures multiset(r) == multiset(s) + multiset{x}
  {
    if s == [] || x <= s[0] then [x] + s
    else
      assert s == [s[0]] + s[1..];
      [s[0]] + InsertDay(x, s[1..])
  }

  function SortDays(s: seq<int>): (r: seq<int>)
    ensures multiset(r) == multiset(s)
  {
    if s == [] then []
    else
      assert s == [s[0]] + s[1..];
      InsertDay(s[0], SortDays(s[1..]))
  }

  ghost predicate Ascending(s: seq<int>)
  {
    forall a, b :: 0 <= a < b < |s| ==> s[a] < s[b]
  }

  lemma {:induction false} InsertDayAscending(x: int, s: seq<int>)
    requires Ascending(s) && x !in s
    ensures Ascending(InsertDay(x, s))
  {
    if s != [] && x > s[0] {
      InsertDayAscending(x, s[1..]);
      var r := InsertDay(x, s[1..]);
      forall i | 0 <= i < |r| ensures s[0] < r[i] {
        InsertedDayFrom(x, s, i);
      }
    }
  }

  /** Every day after the first place of the insertion is `x` itself or a
      day of `s[1..]`, and so exceeds `s[0]`. */
  lemma InsertedDayFrom(x: int, s: seq<int>, i: nat)
    requires s != [] && Ascending(s) && x > s[0]
    requires i < |InsertDay(x, s[1..])|
    ensures s[0] < InsertDay(x, s[1..])[i]
  {
    var y := InsertDay(x, s[1..])[i];
    assert y in multiset(InsertDay(x, s[1..]));
    if y != x {
      assert y in multiset(s[1..]);
      var j :| 0 <= j < |s[1..]| && s[1..][j] == y;
      assert s[j + 1] == y;
    }
  }

  /** Distinct days come out of the sort strictly ascending, with the same
      members. */
  lemma {:induction false} SortDaysAscending(s: seq<int>)
    requires Distinct(s)
    ensures Ascending(SortDays(s))
    ensures forall x :: x in SortDays(s) <==> x in s
  {
    var r := SortDays(s);
    forall x ensures x in r <==> x in s {
      assert x in r <==> x in multiset(r);
      assert x in s <==> x in multiset(s);
    }
    if s != [] {
      var t := SortDays(s[1..]);
      SortDaysAscending(s[1..]);
      assert s[0] !in s[1..] by {
        forall j | 0 <= j < |s[1..]| ensures s[1..][j] != s[0] {
          assert s[1..][j] == s[j + 1];
        }
      }
      InsertDayAscending(s[0], t);
    }
  }

  // The records

  /** The record of one day's lists: first and last price as open and
      close, `Math.max`/`Math.min` of the prices as high and low, the sum
      of the volumes (from 0), and no volatility. */
  function ListsRecord(day: int, symbol: string, d: DayLists): DailyMetrics
    requires |d.prices| > 0 && d.prices[0] != 0.0
  {
    var open := d.prices[0];
    var close := d.prices[|d.prices| - 1];
    DailyMetrics(day, symbol, open, MaxOf(d.prices), MinOf(d.prices), close,
      Sum(d.volumes), (close - open) / open * 100.0, None)
  }

  ghost predicate OpensKnown(m: map<int, DayLists>, days: seq<int>)
  {
    forall i :: 0 <= i < |days| ==> days[i] in m && (|m[days[i]].prices| > 0 ==> m[days[i]].prices[0] != 0.0)
  }

  /** `sortedDates.forEach(...)`: a record per date in the given order,
      skipping a date without prices. */
  function MarketRecords(days: seq<int>, symbol: string, m: map<int, DayLists>): seq<DailyMetrics>
    requires OpensKnown(m, days)
  {
    if days == [] then []
    else
      var last := days[|days| - 1];
      assert last in days;
      assert forall day :: day in days[..|days| - 1] ==> day in days;
      MarketRecords(days[..|days| - 1], symbol, m)
        + (if |m[last].prices| == 0 then [] else [ListsRecord(last, symbol, m[last])])
  }

  /** When every day has prices no day is skipped. */
  lemma {:induction false} MarketRecordsLength(days: seq<int>, symbol: string, m: map<int, DayLists>)
    requires OpensKnown(m, days)
    requires forall day :: day in days ==> |m[day].prices| > 0
    ensures |MarketRecords(days, symbol, m)| == |days|
  {
    if days != [] {
      var last := days[|days| - 1];
      assert last in days;
      assert forall day :: day in days[..|days| - 1] ==> day in days;
      MarketRecordsLength(days[..|days| - 1], symbol, m);
    }
  }

  lemma {:induction false} MarketRecordsAt(days: seq<int>, symbol: string, m: map<int, DayLists>, a: nat)
    requires OpensKnown(m, days)
    requires forall day :: day in days ==> |m[day].prices| > 0
    requires a < |days|
    ensures |MarketRecords(days, symbol, m)| == |days|
    ensures MarketRecords(days, symbol, m)[a] == ListsRecord(days[a], symbol, m[days[a]])
  {
    var last := days[|days| - 1];
    assert last in days;
    assert forall day :: day in days[..|days| - 1] ==> day in days;
    MarketRecordsLength(days[..|days| - 1], symbol, m);
    if a < |days| - 1 {
      MarketRecordsAt(days[..|days| - 1], symbol, m, a);
    }
  }

  /** Day `day` of the finished map holds the prices and volumes of that
      day. */
  ghost predicate Finished(prices: seq<Point>, volumes: seq<Point>, m: map<int, DayLists>, day: int)
  {
    && day in m
    && day in Days(prices)
    && m[day].prices == Values(PointsOn(prices, day))
    && m[day].volumes == Values(PointsOn(volumes, day))
  }

  /** A finished day has prices, and its first price is not zero. */
  lemma FinishedOpens(prices: seq<Point>, volumes: seq<Point>, m: map<int, DayLists>, day: int)
    requires OpensNonZero(prices) && Finished(prices, volumes, m, day)
    ensures |m[day].prices| > 0 && m[day].prices[0] != 0.0
  {
    PointsOnDays(prices, day);
    var pts := PointsOn(prices, day);
    var i :| 0 <= i < |prices| && DayOf(prices[i]) == day;
    assert pts[0].value != 0.0;
    assert m[day].prices[0] == pts[0].value;
  }

  lemma ListsRecordIsDayRecord(symbol: string, prices: seq<Point>, volumes: seq<Point>, m: map<int, DayLists>, day: int)
    requires OpensNonZero(prices) && Finished(prices, volumes, m, day)
    ensures |m[day].prices| > 0 && m[day].prices[0] != 0.0
    ensures ListsRecord(day, symbol, m[day]) == DayRecord(symbol, prices, volumes, day)
  {
    FinishedOpens(prices, volumes, m, day);
    ListsOfDayRecord(symbol, prices, volumes, m[day], day);
  }

  lemma ListsOfDayRecord(symbol: string, prices: seq<Point>, volumes: seq<Point>, d: DayLists, day: int)
    requires OpensNonZero(prices) && day in Days(prices)
    requires d.prices == Values(PointsOn(prices, day)) && d.volumes == Values(PointsOn(volumes, day))
    requires |d.prices| > 0 && d.prices[0] != 0.0
    ensures ListsRecord(day, symbol, d) == DayRecord(symbol, prices, volumes, day)
  {
  }

  /** After both passes every day seen is finished. */
  lemma PassesFinish(prices: seq<Point>, volumes: seq<Point>, priced: map<int, DayLists>,
                     m: map<int, DayLists>, keys: seq<int>)
    requires OpensNonZero(prices)
    requires PricedUpTo(prices, |prices|, priced, keys)
    requires VolumedUpTo(volumes, |volumes|, priced, m)
    ensures forall day :: day in keys ==>
              Finished(prices, volumes, m, day) && |m[day].prices| > 0 && m[day].prices[0] != 0.0
  {
    forall day | day in keys
      ensures Finished(prices, volumes, m, day) && |m[day].prices| > 0 && m[day].prices[0] != 0.0
    {
      PassesFinishDay(prices, volumes, priced, m, keys, day);
    }
  }

  lemma PassesFinishDay(prices: seq<Point>, volumes: seq<Point>, priced: map<int, DayLists>,
                        m: map<int, DayLists>, keys: seq<int>, day: int)
    requires OpensNonZero(prices)
    requires PricedUpTo(prices, |prices|, priced, keys)
    requires VolumedUpTo(volumes, |volumes|, priced, m)
    requires day in keys
    ensures Finished(prices, volumes, m, day) && |m[day].prices| > 0 && m[day].prices[0] != 0.0
  {
    assert prices[..|prices|] == prices;
    assert volumes[..|volumes|] == volumes;
    assert m[day].(volumes := []) == priced[day].(volumes := []);
    assert m[day].prices == priced[day].prices;
    FinishedOpens(prices, volumes, m, day);
  }

  /** The record at position `a` is the record of day `days[a]`. */
  lemma MarketRecordIsDayRecord(symbol: string, prices: seq<Point>, volumes: seq<Point>,
                                m: map<int, DayLists>, days: seq<int>, a: nat)
    requires OpensNonZero(prices) && OpensKnown(m, days)
    requires forall day :: day in days ==> |m[day].prices| > 0 && Finished(prices, volumes, m, day)
    requires a < |days|
    ensures |MarketRecords(days, symbol, m)| == |days|
    ensures MarketRecords(days, symbol, m)[a].date == days[a]
    ensures IsDayRecord(symbol, prices, volumes, MarketRecords(days, symbol, m)[a])
  {
    MarketRecordsAt(days, symbol, m, a);
    ListsRecordIsDayRecord(symbol, prices, volumes, m, days[a]);
  }

  /** Every record is the record of its day. */
  lemma MarketRecordsAreDayRecords(symbol: string, prices: seq<Point>, volumes: seq<Point>,
                                   m: map<int, DayLists>, days: seq<int>)
    requires OpensNonZero(prices) && OpensKnown(m, days)
    requires forall day :: day in days ==> |m[day].prices| > 0 && Finished(prices, volumes, m, day)
    ensures forall r :: r in MarketRecords(days, symbol, m) ==> IsDayRecord(symbol, prices, volumes, r)
  {
    var r := MarketRecords(days, symbol, m);
    forall x | x in r ensures IsDayRecord(symbol, prices, volumes, x) {
      var a :| 0 <= a < |r| && r[a] == x;
      MarketRecordsLength(days, symbol, m);
      MarketRecordIsDayRecord(symbol, prices, volumes, m, days, a);
    }
  }

  /** Over strictly ascending days the records' dates are the days, in the
      same strictly ascending order. */
  lemma MarketRecordsDates(symbol: string, m: map<int, DayLists>, days: seq<int>)
    requires OpensKnown(m, days) && Ascending(days)
    requires forall day :: day in days ==> |m[day].prices| > 0
    ensures DatesOf(MarketRecords(days, symbol, m)) == set day | day in days
    ensures StrictlyByDate(MarketRecords(days, symbol, m))
  {
    var r := MarketRecords(days, symbol, m);
    MarketRecordsLength(days, symbol, m);
    forall a | 0 <= a < |r| ensures r[a].date == days[a] {
      MarketRecordsAt(days, symbol, m, a);
    }
    forall day | day in days ensures day in DatesOf(r) {
      var a :| 0 <= a < |days| && days[a] == day;
      assert r[a] in r;
    }
  }

  /** The records built from both passes over the sorted dates are the
      daily records of the points, already in date order. */
  lemma RecordsOfPasses(symbol: string, prices: seq<Point>, volumes: seq<Point>,
                        priced: map<int, DayLists>, m: map<int, DayLists>, keys: seq<int>)
    requires OpensNonZero(prices)
    requires PricedUpTo(prices, |prices|, priced, keys)
    requires VolumedUpTo(volumes, |volumes|, priced, m)
    ensures OpensKnown(m, SortDays(keys))
    ensures DailyRecordsOf(MarketRecords(SortDays(keys), symbol, m), symbol, prices, volumes)
    ensures SortedByDate(MarketRecords(SortDays(keys), symbol, m))
  {
    var sortedDates := SortDays(keys);
    SortedDatesFinished(prices, volumes, priced, m, keys);
    MarketRecordsAreDayRecords(symbol, prices, volumes, m, sortedDates);
    MarketRecordsDates(symbol, m, sortedDates);
  }

  /** The sorted dates are the days of the price points, ascending, and
      each of them is finished. */
  lemma SortedDatesFinished(prices: seq<Point>, volumes: seq<Point>,
                            priced: map<int, DayLists>, m: map<int, DayLists>, keys: seq<int>)
    requires OpensNonZero(prices)
    requires PricedUpTo(prices, |prices|, priced, keys)
    requires VolumedUpTo(volumes, |volumes|, priced, m)
    ensures Ascending(SortDays(keys))
    ensures (set day | day in SortDays(keys)) == Days(prices)
    ensures OpensKnown(m, SortDays(keys))
    ensures forall day :: day in SortDays(keys) ==> |m[day].prices| > 0 && Finished(prices, volumes, m, day)
  {
    PassesFinish(prices, volumes, priced, m, keys);
    SortDaysAscending(keys);
    assert prices[..|prices|] == prices;
  }

  /** `prices.forEach(...)`: the first pass. */
  method GroupPrices(prices: seq<Point>) returns (dailyData: map<int, DayLists>, keys: seq<int>)
    ensures PricedUpTo(prices, |prices|, dailyData, keys)
  {
    dailyData := map[];
    keys := [];
    for i := 0 to |prices|
      invariant PricedUpTo(prices, i, dailyData, keys)
    {
      PriceStep(prices, i, dailyData, keys);
      dailyData, keys := WithPrice(dailyData, prices[i]), WithDay(dailyData, keys, prices[i]);
    }
  }

  /** `total_volumes.forEach(...)`: the second pass. */
  method AddVolumes(totalVolumes: seq<Point>, priced: map<int, DayLists>) returns (dailyData: map<int, DayLists>)
    requires forall day :: day in priced ==> priced[day].volumes == []
    ensures VolumedUpTo(totalVolumes, |totalVolumes|, priced, dailyData)
  {
    dailyData := priced;
    assert forall day :: PointsOn(totalVolumes[..0], day) == [];
    for j := 0 to |totalVolumes|
      invariant VolumedUpTo(totalVolumes, j, priced, dailyData)
    {
      VolumeStep(totalVolumes, j, priced, dailyData);
      dailyData := WithVolume(dailyData, totalVolumes[j]);
    }
  }

  /** `sortedDates.forEach(...)`: pushes the record of every date that has
      prices. */
  method BuildRecords(sortedDates: seq<int>, symbol: string, dailyData: map<int, DayLists>)
    returns (result: seq<DailyMetrics>)
    requires OpensKnown(dailyData, sortedDates)
    ensures result == MarketRecords(sortedDates, symbol, dailyData)
  {
    result := [];
    for k := 0 to |sortedDates|
      invariant result == MarketRecords(sortedDates[..k], symbol, dailyData)
    {
      assert sortedDates[..k + 1][..k] == sortedDates[..k];
      var dayData := dailyData[sortedDates[k]];
      if |dayData.prices| > 0 {
        var open := dayData.prices[0];
        var close := dayData.prices[|dayData.prices| - 1];
        result := result + [DailyMetrics(sortedDates[k], symbol, open, MaxOf(dayData.prices),
          MinOf(dayData.prices), close, Sum(dayData.volumes), (close - open) / open * 100.0, None)];
      }
    }
    assert sortedDates[..|sortedDates|] == sortedDates;
  }

  /** `transformMarketData`: no prices is an error; otherwise one record
      per UTC day that has a price, in ascending date order, each with the
      day's first and last price as open and close, the extremes of its
      prices as high and low, and the sum of its volume points as volume. */
  method TransformMarketData(prices: seq<Point>, totalVolumes: seq<Point>, symbol: string)
    returns (r: Result<seq<DailyMetrics>>)
    requires OpensNonZero(prices)
    ensures |prices| == 0 <==> r.Err?
    ensures r.Err? ==> r.message == "No price data received from API"
    ensures r.Ok? ==> DailyRecordsOf(r.value, symbol, prices, totalVolumes)
  {
    if |prices| == 0 {
      return Err("No price data received from API");
    }
    var dailyData, keys := GroupPrices(prices);
    ghost var priced := dailyData;
    dailyData := AddVolumes(totalVolumes, dailyData);
    var sortedDates := SortDays(keys);
    RecordsOfPasses(symbol, prices, totalVolumes, priced, dailyData, keys);
    var result := BuildRecords(sortedDates, symbol, dailyData);
    SortByDateOfSorted(result);
    return Ok(SortByDate(result));
  }
}
