/** The CoinGecko client of src/api/coingecko.ts: which instruments it
    serves and under which coin id, how it builds a market-chart range
    request, how it reports failures, and how it folds the returned
    `[timestamp, value]` points into one record per UTC day. The HTTP call
    itself is not modelled: its outcome is the parameter `response`. */
module CoinGecko {
  import opened Common
  import opened Market
  import opened PricePoints
  import Text

  /** `instrumentToCoingeckoId`. */
  const InstrumentIds: map<string, string> := map[
    "BTC-USDT" := "bitcoin",
    "ETH-USDT" := "ethereum",
    "BNB-USDT" := "binancecoin",
    "SOL-USDT" := "solana",
    "ADA-USDT" := "cardano",
    "XRP-USDT" := "ripple",
    "DOT-USDT" := "polkadot",
    "AVAX-USDT" := "avalanche-2",
    "DOGE-USDT" := "dogecoin",
    "MATIC-USDT" := "matic-network"
  ]

  // ---------------------------------------------------------------------------
  // Quote currency and request
  // ---------------------------------------------------------------------------

  /** `getQuoteCurrency`: the part after the one `-`, lower-cased, with
      `usdt` priced as `usd`; any other number of `-` is an error. */
  function QuoteCurrency(instrument: string): (r: Result<string>)
    ensures r.Err? <==> Text.Count(instrument, '-') != 1
    ensures r.Err? ==> r.message == "Invalid instrument format: " + instrument + "."
  {
    Text.SplitLength(instrument, '-');
    var parts := Text.Split(instrument, '-');
    if |parts| != 2 then Err("Invalid instrument format: " + instrument + ".")
    else
      var quote := Text.Lower(parts[1]);
      Ok(if quote == "usdt" then "usd" else quote)
  }

  /** For `base-quote` the quote currency is `quote` lower-cased, with
      `usdt` read as `usd`. */
  lemma QuoteOfPair(base: string, quote: string)
    requires '-' !in base && '-' !in quote
    ensures QuoteCurrency(base + "-" + quote)
            == Ok(if Text.Lower(quote) == "usdt" then "usd" else Text.Lower(quote))
  {
    Text.SplitPrefix(base, quote, '-');
    Text.SplitNoSeparator(quote, '-');
    assert base + "-" + quote == base + ['-'] + quote;
  }

  /** Every `XXX-USDT` pair is quoted in `usd`. */
  lemma UsdtPairQuotedInUsd(base: string)
    requires '-' !in base
    ensures QuoteCurrency(base + "-USDT") == Ok("usd")
  {
    assert base + "-USDT" == base + "-" + "USDT";
    QuoteOfPair(base, "USDT");
    assert Text.Lower("USDT") == "usdt";
  }

  /** Every supported instrument has a well-formed name quoted in `usd`. */
  lemma SupportedInstrumentsQuotedInUsd(instrument: string)
    requires instrument in InstrumentIds
    ensures QuoteCurrency(instrument) == Ok("usd")
  {
    if instrument in {"BTC-USDT", "ETH-USDT", "BNB-USDT", "SOL-USDT", "ADA-USDT"} {
      FirstFiveQuotedInUsd(instrument);
    } else {
      assert instrument in {"XRP-USDT", "DOT-USDT", "AVAX-USDT", "DOGE-USDT", "MATIC-USDT"};
      LastFiveQuotedInUsd(instrument);
    }
  }

  lemma FirstFiveQuotedInUsd(instrument: string)
    requires instrument in {"BTC-USDT", "ETH-USDT", "BNB-USDT", "SOL-USDT", "ADA-USDT"}
    ensures QuoteCurrency(instrument) == Ok("usd")
  {
    match instrument
    case "BTC-USDT" => UsdtPairQuotedInUsd("BTC"); assert "BTC" + "-USDT" == instrument;
    case "ETH-USDT" => UsdtPairQuotedInUsd("ETH"); assert "ETH" + "-USDT" == instrument;
    case "BNB-USDT" => UsdtPairQuotedInUsd("BNB"); assert "BNB" + "-USDT" == instrument;
    case "SOL-USDT" => UsdtPairQuotedInUsd("SOL"); assert "SOL" + "-USDT" == instrument;
    case "ADA-USDT" => UsdtPairQuotedInUsd("ADA"); assert "ADA" + "-USDT" == instrument;
  }

  lemma LastFiveQuotedInUsd(instrument: string)
    requires instrument in {"XRP-USDT", "DOT-USDT", "AVAX-USDT", "DOGE-USDT", "MATIC-USDT"}
    ensures QuoteCurrency(instrument) == Ok("usd")
  {
    match instrument
    case "XRP-USDT" => UsdtPairQuotedInUsd("XRP"); assert "XRP" + "-USDT" == instrument;
    case "DOT-USDT" => UsdtPairQuotedInUsd("DOT"); assert "DOT" + "-USDT" == instrument;
    case "AVAX-USDT" => UsdtPairQuotedInUsd("AVAX"); assert "AVAX" + "-USDT" == instrument;
    case "DOGE-USDT" => UsdtPairQuotedInUsd("DOGE"); assert "DOGE" + "-USDT" == instrument;
    case "MATIC-USDT" => UsdtPairQuotedInUsd("MATIC"); assert "MATIC" + "-USDT" == instrument;
  }

  /** The parameters of `GET /coins/{id}/market_chart/range`; `from` and
      `to` are in seconds. */
  datatype RangeRequest = RangeRequest(endpoint: string, vsCurrency: string, from: int, to: int)

  /** `Math.floor(ms / 1000)`: Dafny's division by a positive divisor
      rounds down, as `Math.floor` does. */
  function Seconds(ms: int): (s: int)
    ensures s * 1000 <= ms < s * 1000 + 1000
  {
    ms / 1000
  }

  /** The names an object literal answers for without declaring them: the
      members every object inherits from `Object.prototype`. Looking one up
      in `instrumentToCoingeckoId` gives a function or an object, which is
      truthy, so such a name passes the "unsupported" test. */
  const InheritedNames: set<string> := {
    "constructor", "__proto__", "toString", "toLocaleString", "valueOf",
    "hasOwnProperty", "isPrototypeOf", "propertyIsEnumerable",
    "__defineGetter__", "__defineSetter__", "__lookupGetter__", "__lookupSetter__"
  }

  /** An inherited name has no `-`, so `getQuoteCurrency` rejects it. */
  lemma InheritedNamesMalformed(name: string)
    requires name in InheritedNames
    ensures name !in InstrumentIds
    ensures QuoteCurrency(name) == Err("Invalid instrument format: " + name + ".")
  {
    NoDashInInherited(name);
    Text.CountAbsent(name, '-');
    if name in InstrumentIds {
      SupportedInstrumentsQuotedInUsd(name);
    }
  }

  /** No declared instrument is an inherited name. */
  lemma DeclaredNotInherited(instrument: string)
    requires instrument in InstrumentIds
    ensures instrument !in InheritedNames
  {
    if instrument in InheritedNames {
      InheritedNamesMalformed(instrument);
    }
  }

  lemma NoDashInInherited(name: string)
    requires name in InheritedNames
    ensures '-' !in name
  {
    match name
    case "constructor" =>
    case "__proto__" =>
    case "toString" =>
    case "toLocaleString" =>
    case "valueOf" =>
    case "hasOwnProperty" =>
    case "isPrototypeOf" =>
    case "propertyIsEnumerable" =>
    case "__defineGetter__" =>
    case "__defineSetter__" =>
    case "__lookupGetter__" =>
    case "__lookupSetter__" =>
  }

  /** The request `fetchCoinData` sends for an instrument and a window in
      milliseconds, or the error it throws before sending it: a name the
      table does not answer for is unsupported, and an inherited name gets
      past that test only to fail `getQuoteCurrency`. */
  function RangeRequestFor(instrument: string, startMs: int, endMs: int): (r: Result<RangeRequest>)
    ensures r.Err? <==> instrument !in InstrumentIds
    ensures r.Err? && instrument !in InheritedNames ==>
              r.message == "Unsupported instrument: " + instrument
    ensures r.Err? && instrument in InheritedNames ==>
              r.message == "Invalid instrument format: " + instrument + "."
    ensures r.Ok? ==> r.value.vsCurrency == "usd"
                      && r.value.endpoint == "/coins/" + InstrumentIds[instrument] + "/market_chart/range"
                      && r.value.from * 1000 <= startMs < r.value.from * 1000 + 1000
                      && r.value.to * 1000 <= endMs < r.value.to * 1000 + 1000
  {
    if instrument !in InstrumentIds && instrument !in InheritedNames then
      Err("Unsupported instrument: " + instrument)
    else
      KnownNameQuote(instrument);
      match QuoteCurrency(instrument)
      case Err(message) => Err(message)
      case Ok(quote) =>
        Ok(RangeRequest("/coins/" + InstrumentIds[instrument] + "/market_chart/range",
                        quote, Seconds(startMs), Seconds(endMs)))
  }

  /** A name that passes the lookup is quoted in `usd` when the table
      declares it and malformed when it is inherited. */
  lemma KnownNameQuote(instrument: string)
    requires instrument in InstrumentIds || instrument in InheritedNames
    ensures instrument in InstrumentIds ==> QuoteCurrency(instrument) == Ok("usd")
    ensures instrument in InheritedNames ==>
              QuoteCurrency(instrument) == Err("Invalid instrument format: " + instrument + ".")
  {
    if instrument in InheritedNames {
      InheritedNamesMalformed(instrument);
    } else {
      SupportedInstrumentsQuotedInUsd(instrument);
    }
  }

  /** The message `fetchCoinData` rethrows an axios failure with. */
  function FailureMessage(f: ApiFailure): (msg: string)
    ensures f.ErrorStatus? ==>
              msg == "CoinGecko API error: " + Text.NatToString(f.status) + " - " + ErrorOrUnknown(f.error)
    ensures f.NoResponse? ==> msg == "No response received from CoinGecko API."
    ensures f.SetupFailed? ==> msg == "Error setting up request: " + f.message
  {
    match f
    case ErrorStatus(status, error) =>
      "CoinGecko API error: " + Text.NatToString(status) + " - " + ErrorOrUnknown(error)
    case NoResponse => "No response received from CoinGecko API."
    case SetupFailed(message) => "Error setting up request: " + message
  }

  /** The status an error-status message reports can be read back from it:
      the digits right after the prefix spell the status. */
  lemma FailureMessageNamesStatus(status: nat, error: Option<string>)
    ensures var msg := FailureMessage(ErrorStatus(status, error));
            var digits := Text.NatToString(status);
            var n := |"CoinGecko API error: "|;
            |msg| >= n + |digits|
            && msg[n..n + |digits|] == digits
            && Text.ParseNat(msg[n..n + |digits|]) == status
  {
    var digits := Text.NatToString(status);
    var msg := FailureMessage(ErrorStatus(status, error));
    var n := |"CoinGecko API error: "|;
    assert msg == "CoinGecko API error: " + digits + (" - " + ErrorOrUnknown(error));
    assert msg[n..n + |digits|] == digits;
    Text.ParseNatToString(status);
  }

  // ---------------------------------------------------------------------------
  // transformCoinGeckoData
  // ---------------------------------------------------------------------------

  /** The running record of one day while the points are folded in;
      `volume` is absent until a volume point of the day arrives. */
  datatype DayData = DayData(
    date: int,
    symbol: string,
    open: real,
    high: real,
    low: real,
    close: real,
    prices: seq<real>,
    volume: Option<real>)

  /** `dayData.volume || 0`. */
  function VolumeOrZero(v: Option<real>): real
  {
    if v.Some? then v.value else 0.0
  }

  /** The price pass on one point: a new day starts with the price as its
      open, high, low and close; a known day keeps its open, raises its
      high (`Math.max`), lowers its low (`Math.min`) and takes the price as
      its close. */
  function WithPrice(m: map<int, DayData>, symbol: string, p: Point): map<int, DayData>
  {
    var day := DayOf(p);
    if day !in m then
      m[day := DayData(day, symbol, p.value, p.value, p.value, p.value, [p.value], None)]
    else
      var d := m[day];
      m[day := d.(high := if p.value > d.high then p.value else d.high,
                  low := if p.value < d.low then p.value else d.low,
                  close := p.value,
                  prices := d.prices + [p.value])]
  }

  /** The volume pass on one point: it adds to the volume of a day that has
      prices and is dropped otherwise. */
  function WithVolume(m: map<int, DayData>, p: Point): map<int, DayData>
  {
    var day := DayOf(p);
    if day in m then m[day := m[day].(volume := Some(VolumeOrZero(m[day].volume) + p.value))]
    else m
  }

  /** `d` is the running record of day `day` over the price values `vals`. */
  ghost predicate Tracks(d: DayData, day: int, symbol: string, vals: seq<real>)
  {
    && |vals| > 0
    && d.date == day
    && d.symbol == symbol
    && d.prices == vals
    && d.open == vals[0]
    && d.high == MaxOf(vals)
    && d.low == MinOf(vals)
    && d.close == vals[|vals| - 1]
  }

  /** The map after the price pass over `prices[..i]`. */
  ghost predicate PricedUpTo(prices: seq<Point>, i: nat, symbol: string, m: map<int, DayData>, days: seq<int>)
  {
    && i <= |prices|
    && KeysInOrder(m, days)
    && (forall day :: day in m <==> day in Days(prices[..i]))
    && (forall day :: day in m ==>
          Tracks(m[day], day, symbol, Values(PointsOn(prices[..i], day))) && m[day].volume.None?)
  }

  lemma PriceStepKeys(prices: seq<Point>, i: nat, symbol: string, m: map<int, DayData>, days: seq<int>)
    requires PricedUpTo(prices, i, symbol, m, days) && i < |prices|
    ensures KeysInOrder(WithPrice(m, symbol, prices[i]), WithDay(m, days, prices[i]))
    ensures forall day :: day in WithPrice(m, symbol, prices[i]) <==> day in Days(prices[..i + 1])
  {
    PointsOnStep(prices, i);
  }

  lemma PriceStepTracks(prices: seq<Point>, i: nat, symbol: string, m: map<int, DayData>, days: seq<int>)
    requires PricedUpTo(prices, i, symbol, m, days) && i < |prices|
    ensures var m' := WithPrice(m, symbol, prices[i]);
            forall day :: day in m' ==>
              Tracks(m'[day], day, symbol, Values(PointsOn(prices[..i + 1], day))) && m'[day].volume.None?
  {
    var m' := WithPrice(m, symbol, prices[i]);
    forall day | day in m'
      ensures Tracks(m'[day], day, symbol, Values(PointsOn(prices[..i + 1], day))) && m'[day].volume.None?
    {
      if day == DayOf(prices[i]) {
        PriceStepTracksOwnDay(prices, i, symbol, m, days);
      } else {
        PriceStepTracksOtherDay(prices, i, symbol, m, days, day);
      }
    }
  }

  /** The day of `prices[i]` now tracks its prices including `prices[i]`. */
  lemma PriceStepTracksOwnDay(prices: seq<Point>, i: nat, symbol: string, m: map<int, DayData>, days: seq<int>)
    requires PricedUpTo(prices, i, symbol, m, days) && i < |prices|
    ensures var day := DayOf(prices[i]);
            var m' := WithPrice(m, symbol, prices[i]);
            Tracks(m'[day], day, symbol, Values(PointsOn(prices[..i + 1], day))) && m'[day].volume.None?
  {
    var p := prices[i];
    var day := DayOf(p);
    PointsOnStep(prices, i);
    var before := PointsOn(prices[..i], day);
    ValuesAppend(before, p);
    if day in m {
      MaxOfAppend(Values(before), p.value);
      MinOfAppend(Values(before), p.value);
    } else {
      PointsOnDays(prices[..i], day);
      assert Values(before + [p]) == [p.value];
    }
  }

  /** Every other day is untouched, and `prices[i]` is not among its points. */
  lemma PriceStepTracksOtherDay(prices: seq<Point>, i: nat, symbol: string, m: map<int, DayData>, days: seq<int>,
                                day: int)
    requires PricedUpTo(prices, i, symbol, m, days) && i < |prices|
    requires day in WithPrice(m, symbol, prices[i]) && day != DayOf(prices[i])
    ensures var m' := WithPrice(m, symbol, prices[i]);
            Tracks(m'[day], day, symbol, Values(PointsOn(prices[..i + 1], day))) && m'[day].volume.None?
  {
    PointsOnStep(prices, i);
    assert PointsOn(prices[..i + 1], day) == PointsOn(prices[..i], day) + [];
  }

  /** `prices.forEach(...)`: the first pass. */
  method FoldPrices(prices: seq<Point>, symbol: string) returns (m: map<int, DayData>, days: seq<int>)
    ensures PricedUpTo(prices, |prices|, symbol, m, days)
  {
    m := map[];
    days := [];
    for i := 0 to |prices|
      invariant PricedUpTo(prices, i, symbol, m, days)
    {
      PriceStepKeys(prices, i, symbol, m, days);
      PriceStepTracks(prices, i, symbol, m, days);
      m, days := WithPrice(m, symbol, prices[i]), WithDay(m, days, prices[i]);
    }
  }

  /** The map after the volume pass over `volumes[..j]`, starting from the
      priced map `m0`: only the volumes have changed, and each day's volume
      is the sum of its volume points so far. */
  ghost predicate VolumedUpTo(volumes: seq<Point>, j: nat, m0: map<int, DayData>, m: map<int, DayData>)
  {
    && j <= |volumes|
    && m.Keys == m0.Keys
    && (forall day :: day in m ==> m[day].(volume := None) == m0[day].(volume := None))
    && (forall day :: day in m ==> VolumeOrZero(m[day].volume) == Sum(Values(PointsOn(volumes[..j], day))))
  }

  lemma VolumeStepDay(volumes: seq<Point>, j: nat, v: Option<real>, day: int)
    requires j < |volumes|
    requires VolumeOrZero(v) == Sum(Values(PointsOn(volumes[..j], day)))
    ensures Sum(Values(PointsOn(volumes[..j + 1], day)))
            == if DayOf(volumes[j]) == day then VolumeOrZero(v) + volumes[j].value else VolumeOrZero(v)
  {
    var p := volumes[j];
    var before := PointsOn(volumes[..j], day);
    PointsOnStep(volumes, j);
    if day == DayOf(p) {
      ValuesAppend(before, p);
      SumAppend(Values(before), [p.value]);
      SumSingle(p.value);
    } else {
      assert PointsOn(volumes[..j + 1], day) == before + [] == before;
    }
  }

  lemma VolumeStep(volumes: seq<Point>, j: nat, m0: map<int, DayData>, m: map<int, DayData>)
    requires VolumedUpTo(volumes, j, m0, m) && j < |volumes|
    ensures VolumedUpTo(volumes, j + 1, m0, WithVolume(m, volumes[j]))
  {
    var m' := WithVolume(m, volumes[j]);
    forall day | day in m'
      ensures VolumeOrZero(m'[day].volume) == Sum(Values(PointsOn(volumes[..j + 1], day)))
    {
      VolumeStepDay(volumes, j, m[day].volume, day);
    }
  }

  /** `total_volumes.forEach(...)`: the second pass. */
  method FoldVolumes(volumes: seq<Point>, m0: map<int, DayData>) returns (m: map<int, DayData>)
    requires forall day :: day in m0 ==> m0[day].volume.None?
    ensures VolumedUpTo(volumes, |volumes|, m0, m)
  {
    m := m0;
    assert forall day :: PointsOn(volumes[..0], day) == [];
    for j := 0 to |volumes|
      invariant VolumedUpTo(volumes, j, m0, m)
    {
      VolumeStep(volumes, j, m0, m);
      m := WithVolume(m, volumes[j]);
    }
  }

  /** The record a finished day becomes: `((close / open) - 1) * 100` as
      its change, the volume or 0, no volatility. */
  function ToMetrics(d: DayData): (r: DailyMetrics)
    requires d.open != 0.0
    ensures r.date == d.date && r.symbol == d.symbol
    ensures r.open == d.open && r.high == d.high && r.low == d.low && r.close == d.close
    ensures r.volume == VolumeOrZero(d.volume)
    ensures r.changePercent == ChangePercent(d.open, d.close)
    ensures r.volatility.None?
  {
    ChangePercentAsRatio(d.open, d.close);
    DailyMetrics(d.date, d.symbol, d.open, d.high, d.low, d.close,
      VolumeOrZero(d.volume), (d.close / d.open - 1.0) * 100.0, None)
  }

  /** `Array.from(dataByDay.values()).map(...)`: the records in the order
      their days were first seen. */
  function Records(days: seq<int>, m: map<int, DayData>): (r: seq<DailyMetrics>)
    requires forall day :: day in days ==> day in m && m[day].open != 0.0
    ensures |r| == |days|
    ensures forall a :: 0 <= a < |days| ==> var day := days[a]; r[a] == ToMetrics(m[day])
  {
    if days == [] then []
    else
      var last := days[|days| - 1];
      assert last in days;
      Records(days[..|days| - 1], m) + [ToMetrics(m[last])]
  }

  /** Day `day` of the finished map holds what the prices and volumes of
      that day say. */
  ghost predicate Finished(symbol: string, prices: seq<Point>, volumes: seq<Point>, m: map<int, DayData>, day: int)
  {
    && day in m
    && day in Days(prices)
    && Tracks(m[day], day, symbol, Values(PointsOn(prices, day)))
    && VolumeOrZero(m[day].volume) == Sum(Values(PointsOn(volumes, day)))
  }

  /** A finished day becomes the record `DayRecord` describes. */
  lemma ToMetricsIsDayRecord(symbol: string, prices: seq<Point>, volumes: seq<Point>, m: map<int, DayData>, day: int)
    requires OpensNonZero(prices) && Finished(symbol, prices, volumes, m, day)
    ensures m[day].open != 0.0
    ensures ToMetrics(m[day]) == DayRecord(symbol, prices, volumes, day)
  {
    PointsOnDays(prices, day);
    var pts := PointsOn(prices, day);
    var i :| 0 <= i < |prices| && DayOf(prices[i]) == day;
    assert pts[0].value != 0.0;
    ChangePercentAsRatio(m[day].open, m[day].close);
  }

  /** The record at position `a` is the record of day `days[a]`. */
  lemma RecordIsDayRecord(symbol: string, prices: seq<Point>, volumes: seq<Point>,
                          m: map<int, DayData>, days: seq<int>, a: nat)
    requires OpensNonZero(prices)
    requires forall day :: day in days ==> day in m && m[day].open != 0.0
    requires forall day :: day in days ==> Finished(symbol, prices, volumes, m, day)
    requires a < |days|
    ensures Records(days, m)[a].date == days[a]
    ensures IsDayRecord(symbol, prices, volumes, Records(days, m)[a])
  {
    ToMetricsIsDayRecord(symbol, prices, volumes, m, days[a]);
  }

  /** Every record is the record of its day, the records' dates are the
      days, and no date occurs twice. */
  lemma RecordsAreDayRecords(symbol: string, prices: seq<Point>, volumes: seq<Point>,
                             m: map<int, DayData>, days: seq<int>)
    requires OpensNonZero(prices) && Distinct(days)
    requires forall day :: day in days ==> day in m && m[day].open != 0.0
    requires forall day :: day in days ==> Finished(symbol, prices, volumes, m, day)
    ensures forall r :: r in Records(days, m) ==> IsDayRecord(symbol, prices, volumes, r)
    ensures DatesOf(Records(days, m)) == set day | day in days
    ensures DistinctDates(Records(days, m))
  {
    RecordsAreOwnDays(symbol, prices, volumes, m, days);
    RecordDatesAreDays(symbol, prices, volumes, m, days);
  }

  lemma RecordsAreOwnDays(symbol: string, prices: seq<Point>, volumes: seq<Point>,
                          m: map<int, DayData>, days: seq<int>)
    requires OpensNonZero(prices)
    requires forall day :: day in days ==> day in m && m[day].open != 0.0
    requires forall day :: day in days ==> Finished(symbol, prices, volumes, m, day)
    ensures forall r :: r in Records(days, m) ==> IsDayRecord(symbol, prices, volumes, r)
  {
    var r := Records(days, m);
    forall x | x in r ensures IsDayRecord(symbol, prices, volumes, x) {
      var a :| 0 <= a < |r| && r[a] == x;
      RecordIsDayRecord(symbol, prices, volumes, m, days, a);
    }
  }

  lemma RecordDatesAreDays(symbol: string, prices: seq<Point>, volumes: seq<Point>,
                           m: map<int, DayData>, days: seq<int>)
    requires OpensNonZero(prices) && Distinct(days)
    requires forall day :: day in days ==> day in m && m[day].open != 0.0
    requires forall day :: day in days ==> Finished(symbol, prices, volumes, m, day)
    ensures DatesOf(Records(days, m)) == set day | day in days
    ensures DistinctDates(Records(days, m))
  {
    var r := Records(days, m);
    forall a | 0 <= a < |r| ensures r[a].date == days[a] {
      RecordIsDayRecord(symbol, prices, volumes, m, days, a);
    }
    forall day | day in days ensures day in DatesOf(r) {
      var a :| 0 <= a < |days| && days[a] == day;
      assert r[a] in r;
    }
  }

  /** `transformCoinGeckoData`: one record per UTC day that has a price, in
      ascending date order, each with the day's first and last price as
      open and close, the extremes of its prices as high and low, and the
      sum of its volume points as volume. */
  method TransformCoinGeckoData(instrument: string, prices: seq<Point>, volumes: seq<Point>)
    returns (result: seq<DailyMetrics>)
    requires OpensNonZero(prices)
    ensures DailyRecordsOf(result, instrument, prices, volumes)
  {
    var priced, days := FoldPrices(prices, instrument);
    var dataByDay := FoldVolumes(volumes, priced);
    assert prices[..|prices|] == prices;
    assert volumes[..|volumes|] == volumes;
    forall day | day in days
      ensures Finished(instrument, prices, volumes, dataByDay, day) && dataByDay[day].open != 0.0
    {
      assert dataByDay[day].(volume := None) == priced[day].(volume := None);
      ToMetricsIsDayRecord(instrument, prices, volumes, dataByDay, day);
    }
    RecordsAreDayRecords(instrument, prices, volumes, dataByDay, days);
    var records := Records(days, dataByDay);
    SortDistinctDates(records);
    result := SortByDate(records);
  }

  // ---------------------------------------------------------------------------
  // fetchCoinData
  // ---------------------------------------------------------------------------

  /** What the market-chart request came back with. */
  datatype Response =
    | Chart(prices: seq<Point>, totalVolumes: seq<Point>)
    | Failed(failure: ApiFailure)

  /** `fetchCoinData` after the request: an unsupported instrument, or an
      inherited name with its invalid format, fails before any request, a
      failed request fails with its message, an
      empty price list fails, and otherwise the points become daily
      records. */
  method FetchCoinData(instrument: string, startMs: int, endMs: int, response: Response)
    returns (request: Result<RangeRequest>, r: Result<seq<DailyMetrics>>)
    requires response.Chart? ==> OpensNonZero(response.prices)
    ensures request == RangeRequestFor(instrument, startMs, endMs)
    ensures instrument !in InstrumentIds && instrument !in InheritedNames ==>
              r == Err("Unsupported instrument: " + instrument)
    ensures instrument in InheritedNames ==> r == Err("Invalid instrument format: " + instrument + ".")
    ensures instrument in InstrumentIds && response.Failed? ==> r == Err(FailureMessage(response.failure))
    ensures instrument in InstrumentIds && response.Chart? && |response.prices| == 0 ==>
              r == Err("No price data returned from API")
    ensures instrument in InstrumentIds && response.Chart? && |response.prices| > 0 ==>
              r.Ok? && DailyRecordsOf(r.value, instrument, response.prices, response.totalVolumes)
  {
    request := RangeRequestFor(instrument, startMs, endMs);
    if request.Err? {
      r := Err(request.message);
      return;
    }
    DeclaredNotInherited(instrument);
    match response
    case Failed(failure) =>
      r := Err(FailureMessage(failure));
    case Chart(prices, totalVolumes) =>
      if |prices| == 0 {
        r := Err("No price data returned from API");
      } else {
        var records := TransformCoinGeckoData(instrument, prices, totalVolumes);
        r := Ok(records);
      }
  }
}
