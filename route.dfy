/**
 * The route callback `update_graphs` of dash_app.py: validates the form,
 * builds the ordered city list, asks the weather client for each city's
 * forecast, stops at the first city whose answer is an error shape or
 * empty, and otherwise assembles a shared date axis and per-city series.
 *
 * The provider gives the answers to each request, keyed by the request's
 * position within one callback run and the city name it is made for; the
 * Plotly figures are represented by the data fed to them.
 */
module Route {
  import opened Wrappers
  import opened Strings
  import opened Sorting
  import opened WeatherClient

  /** What the provider answers for one city: the name search and the 5-day forecast for its key. */
  datatype CityResponses = CityResponses(lookup: LookupResponse, forecast: ForecastResponse)

  /**
   * The provider's answers for the `i`-th request of one callback run, made
   * for the given city name. A city named twice is asked twice and may get
   * different answers.
   */
  type Provider = (nat, string) -> CityResponses

  /** The alert the callback shows; `NoAlert` is the empty text. */
  datatype Alert =
    | NoAlert
    | MissingEndpoints
    | CityLookupFailed(city: string, status: int, message: string)
    | CityFetchFailed(city: string, status: int)
    | CityNoData(city: string)

  /** The four dictionaries of per-city series, keyed by city name. */
  datatype Series = Series(
    tempAvg: map<string, seq<real>>,
    windSpeed: map<string, seq<real>>,
    humidity: map<string, seq<real>>,
    rainProb: map<string, seq<int>>)

  /** The figures: left as they are, or drawn over a date axis with one trace per city. */
  datatype Charts = NoUpdate | Charts(dates: seq<string>, cities: seq<string>, series: Series)

  /** The callback's outputs: the figures, the alert text and whether the alert is open. */
  datatype CallbackOutput = CallbackOutput(charts: Charts, alert: Alert, alertOpen: bool)

  /** Python truthiness of `n_clicks`: `None` and `0` mean no click. */
  predicate Clicked(n: Option<int>) {
    n.Some? && n.value != 0
  }

  /** Python truthiness of a text field: `None` and `""` are empty. */
  predicate Filled(s: Option<string>) {
    s.Some? && s.value != ""
  }

  /** A city as it is looked up: stripped and capitalized. */
  function CityName(s: string): (r: string)
    ensures |r| == |Strip(s)|
  {
    Capitalize(Strip(s))
  }

  /** A city name carries no white space at either end, and is empty only for a blank field. */
  lemma CityNameTrimmed(s: string)
    ensures CityName(s) == [] <==> AllSpace(s)
    ensures CityName(s) != [] ==> Trimmed(CityName(s))
  {
    StripFacts(s);
    if Strip(s) != [] {
      CapitalizedStripIsTrimmed(s);
    }
  }

  /** One comma-separated piece: dropped if blank after stripping, else its city name. */
  function KeepSegment(seg: string): seq<string> {
    if Strip(seg) == "" then [] else [CityName(seg)]
  }

  /**
   * The intermediate cities from the pieces of the comma-separated field,
   * in input order; none is empty or has white space around it.
   */
  function CleanSegments(segs: seq<string>): (r: seq<string>)
    ensures |r| <= |segs|
  {
    if segs == [] then [] else KeepSegment(segs[0]) + CleanSegments(segs[1..])
  }

  /** A non-empty name with no white space at either end. */
  predicate Trimmed(n: string) {
    |n| > 0 && !IsSpace(n[0]) && !IsSpace(n[|n| - 1])
  }

  /** Every kept piece is a non-empty name without white space at its ends. */
  lemma {:induction false} CleanSegmentsTrimmed(segs: seq<string>)
    ensures forall n | n in CleanSegments(segs) :: Trimmed(n)
  {
    if segs != [] {
      CleanSegmentsTrimmed(segs[1..]);
      CityNameTrimmed(segs[0]);
      assert CleanSegments(segs) == KeepSegment(segs[0]) + CleanSegments(segs[1..]);
    }
  }

  /** Cleaning works piece by piece, so the kept pieces keep their order. */
  lemma {:induction false} CleanSegmentsAppend(a: seq<string>, b: seq<string>)
    ensures CleanSegments(a + b) == CleanSegments(a) + CleanSegments(b)
  {
    if a == [] {
      assert a + b == b;
    } else {
      var ab := a + b;
      assert ab[0] == a[0] && ab[1..] == a[1..] + b;
      CleanSegmentsAppend(a[1..], b);
      calc {
        CleanSegments(ab);
        KeepSegment(a[0]) + CleanSegments(a[1..] + b);
        KeepSegment(a[0]) + (CleanSegments(a[1..]) + CleanSegments(b));
      }
    }
  }

  function IntermediateCities(field: Option<string>): seq<string> {
    if Filled(field) then CleanSegments(Split(field.value)) else []
  }

  /** The city list the callback builds from the three text fields, for any inputs. */
  function CityList(start: Option<string>, intermediates: Option<string>, end: Option<string>): seq<string> {
    (if Filled(start) then [CityName(start.value)] else [])
    + IntermediateCities(intermediates)
    + (if Filled(end) then [CityName(end.value)] else [])
  }

  /** Once both ends are given: start first, end last, the cleaned intermediates between. */
  lemma CityListShape(start: Option<string>, intermediates: Option<string>, end: Option<string>)
    requires Filled(start) && Filled(end)
    ensures var r := CityList(start, intermediates, end);
            |r| >= 2 && r[0] == CityName(start.value) && r[|r| - 1] == CityName(end.value)
            && r[1..|r| - 1] == IntermediateCities(intermediates)
  {
  }

  /** The `intermediates` list comprehension, written as the loop it stands for. */
  method CleanIntermediates(segs: seq<string>) returns (kept: seq<string>)
    ensures kept == CleanSegments(segs)
  {
    kept := [];
    for i := 0 to |segs|
      invariant kept == CleanSegments(segs[..i])
    {
      assert segs[..i + 1] == segs[..i] + [segs[i]];
      CleanSegmentsAppend(segs[..i], [segs[i]]);
      if Strip(segs[i]) != "" {
        kept := kept + [CityName(segs[i])];
      }
    }
    assert segs[..|segs|] == segs;
  }

  /** The `cities.append` / `cities.extend` steps: start, then the comma-separated intermediates, then end. */
  method BuildCities(start: Option<string>, intermediates: Option<string>, end: Option<string>)
    returns (cities: seq<string>)
    ensures cities == CityList(start, intermediates, end)
  {
    cities := [];
    if Filled(start) {
      cities := cities + [CityName(start.value)];
    }
    if Filled(intermediates) {
      var kept := CleanIntermediates(Split(intermediates.value));
      cities := cities + kept;
    }
    if Filled(end) {
      cities := cities + [CityName(end.value)];
    }
  }

  /** What the client returns for the `i`-th city of the route, `city`, asked through the provider. */
  function CityForecast(p: Provider, i: nat, city: string, days: int): ForecastOutcome {
    ForecastWeatherData(p(i, city).lookup, p(i, city).forecast, days)
  }

  /** The shapes that abort the route: the lookup tuple, a status code, or an empty list. */
  predicate Fails(o: ForecastOutcome) {
    !o.Forecasts? || o.entries == []
  }

  /** The position of the first city whose forecast fails, or the number of cities if none does. */
  function FirstFailure(p: Provider, cities: seq<string>, days: int): (k: nat)
    ensures k <= |cities|
    ensures forall j | 0 <= j < k :: !Fails(CityForecast(p, j, cities[j], days))
    ensures k < |cities| ==> Fails(CityForecast(p, k, cities[k], days))
  {
    if cities == [] then 0
    else
      var n := |cities| - 1;
      var k := FirstFailure(p, cities[..n], days);
      if k < n then k
      else if Fails(CityForecast(p, n, cities[n], days)) then n
      else |cities|
  }

  /** A position before which nothing fails and at which the forecast fails is the first failure. */
  lemma FirstFailureAt(p: Provider, cities: seq<string>, days: int, i: int)
    requires 0 <= i <= |cities|
    requires forall j | 0 <= j < i :: !Fails(CityForecast(p, j, cities[j], days))
    requires i < |cities| ==> Fails(CityForecast(p, i, cities[i], days))
    ensures FirstFailure(p, cities, days) == i
  {
  }

  /**
   * The message for the failing city, chosen by the shape of its result:
   * the lookup tuple, the status code, or that there is no data.
   */
  function FailureAlert(city: string, o: ForecastOutcome): (a: Alert)
    requires Fails(o)
    ensures !a.NoAlert? && !a.MissingEndpoints? && a.city == city
    ensures a.CityLookupFailed? <==> o.ForecastLookupFailed?
    ensures a.CityFetchFailed? <==> o.ForecastFailed?
    ensures a.CityLookupFailed? ==> a.status == o.status && a.message == o.message
    ensures a.CityFetchFailed? ==> a.status == o.status
  {
    match o
    case ForecastLookupFailed(status, message) => CityLookupFailed(city, status, message)
    case ForecastFailed(status) => CityFetchFailed(city, status)
    case Forecasts(_) => CityNoData(city)
  }

  function DatesOf(entries: seq<ForecastEntry>): set<string> {
    set e | e in entries :: e.date
  }

  /** Every date in the forecasts of the given cities. */
  function AllDates(p: Provider, cities: seq<string>, days: int): set<string> {
    if cities == [] then {}
    else
      var n := |cities| - 1;
      var o := CityForecast(p, n, cities[n], days);
      AllDates(p, cities[..n], days) + (if o.Forecasts? then DatesOf(o.entries) else {})
  }

  /** Average temperature per day, `(temp_min + temp_max) / 2`. */
  function TempAvgSeries(entries: seq<ForecastEntry>): (r: seq<real>)
    ensures |r| == |entries|
    ensures forall i | 0 <= i < |r| :: 2.0 * r[i] == entries[i].tempMin + entries[i].tempMax
  {
    seq(|entries|, i requires 0 <= i < |entries| => (entries[i].tempMin + entries[i].tempMax) / 2.0)
  }

  /** The average lies between the day's minimum and maximum. */
  lemma TempAvgBetween(entries: seq<ForecastEntry>, i: int)
    requires 0 <= i < |entries| && entries[i].tempMin <= entries[i].tempMax
    ensures entries[i].tempMin <= TempAvgSeries(entries)[i] <= entries[i].tempMax
  {
  }

  function WindSeries(entries: seq<ForecastEntry>): (r: seq<real>)
    ensures |r| == |entries| && forall i | 0 <= i < |r| :: r[i] == entries[i].windSpeed
  {
    seq(|entries|, i requires 0 <= i < |entries| => entries[i].windSpeed)
  }

  function HumiditySeries(entries: seq<ForecastEntry>): (r: seq<real>)
    ensures |r| == |entries| && forall i | 0 <= i < |r| :: r[i] == entries[i].humidity
  {
    seq(|entries|, i requires 0 <= i < |entries| => entries[i].humidity)
  }

  function RainSeries(entries: seq<ForecastEntry>): (r: seq<int>)
    ensures |r| == |entries| && forall i | 0 <= i < |r| :: r[i] == entries[i].precipitationProb
  {
    seq(|entries|, i requires 0 <= i < |entries| => entries[i].precipitationProb)
  }

  /** No later position of the route holds the same city as position `j`. */
  ghost predicate LastOccurrence(cities: seq<string>, j: int)
    requires 0 <= j < |cities|
  {
    forall k | j < k < |cities| :: cities[k] != cities[j]
  }

  /** The four series stored for `city` are built from the answer to the `j`-th request. */
  ghost predicate SeriesAt(s: Series, p: Provider, j: nat, city: string, days: int) {
    city in s.tempAvg && city in s.windSpeed && city in s.humidity && city in s.rainProb
    && CityForecast(p, j, city, days).Forecasts?
    && var e := CityForecast(p, j, city, days).entries;
       s.tempAvg[city] == TempAvgSeries(e) && s.windSpeed[city] == WindSeries(e)
       && s.humidity[city] == HumiditySeries(e) && s.rainProb[city] == RainSeries(e)
  }

  /**
   * The series hold exactly the given cities, each built from the answer
   * to that city's last request: a city named twice keeps the later series.
   */
  ghost predicate SeriesHold(s: Series, p: Provider, cities: seq<string>, days: int) {
    s.tempAvg.Keys == Elements(cities) && s.windSpeed.Keys == Elements(cities)
    && s.humidity.Keys == Elements(cities) && s.rainProb.Keys == Elements(cities)
    && forall j | 0 <= j < |cities| && LastOccurrence(cities, j) :: SeriesAt(s, p, j, cities[j], days)
  }

  /** The four `..._data[city] = [...]` assignments: the city's series replace whatever the dictionaries held for it. */
  function AddSeries(s: Series, city: string, entries: seq<ForecastEntry>): Series {
    Series(
      s.tempAvg[city := TempAvgSeries(entries)],
      s.windSpeed[city := WindSeries(entries)],
      s.humidity[city := HumiditySeries(entries)],
      s.rainProb[city := RainSeries(entries)])
  }

  lemma AllDatesStep(p: Provider, cities: seq<string>, i: int, days: int)
    requires 0 <= i < |cities| && CityForecast(p, i, cities[i], days).Forecasts?
    ensures AllDates(p, cities[..i + 1], days)
            == AllDates(p, cities[..i], days) + DatesOf(CityForecast(p, i, cities[i], days).entries)
  {
    PrefixStep(cities, i);
  }

  /** Adding a city whose forecast succeeded gives it the new series and keeps every other city's. */
  lemma SeriesStep(s: Series, p: Provider, cities: seq<string>, i: int, days: int)
    requires 0 <= i < |cities| && CityForecast(p, i, cities[i], days).Forecasts?
    requires SeriesHold(s, p, cities[..i], days)
    ensures SeriesHold(AddSeries(s, cities[i], CityForecast(p, i, cities[i], days).entries), p, cities[..i + 1], days)
  {
    PrefixStep(cities, i);
    var c := cities[i];
    var e := CityForecast(p, i, c, days).entries;
    var t := AddSeries(s, c, e);
    var before, after := cities[..i], cities[..i + 1];
    assert Elements(after) == Elements(before) + {c};
    assert t.tempAvg.Keys == s.tempAvg.Keys + {c};
    assert t.windSpeed.Keys == s.windSpeed.Keys + {c};
    assert t.humidity.Keys == s.humidity.Keys + {c};
    assert t.rainProb.Keys == s.rainProb.Keys + {c};
    forall j | 0 <= j < |after| && LastOccurrence(after, j)
      ensures SeriesAt(t, p, j, after[j], days)
    {
      if j < i {
        assert after[i] != after[j];
        assert after[j] == before[j];
        assert LastOccurrence(before, j) by {
          forall k | j < k < |before| ensures before[k] != before[j] {
            assert after[k] != after[j];
          }
        }
        SeriesAtOther(s, p, j, before[j], days, c, e);
      }
    }
  }

  /** Storing the series of another city leaves a city's series as they were. */
  lemma SeriesAtOther(s: Series, p: Provider, j: nat, city: string, days: int, other: string, e: seq<ForecastEntry>)
    requires SeriesAt(s, p, j, city, days) && city != other
    ensures SeriesAt(AddSeries(s, other, e), p, j, city, days)
  {
  }

  /** Adds each entry's date that is not yet on the axis, in entry order. */
  method MergeDates(dates: seq<string>, entries: seq<ForecastEntry>) returns (merged: seq<string>)
    requires Distinct(dates)
    ensures Distinct(merged)
    ensures Elements(merged) == Elements(dates) + DatesOf(entries)
    ensures |merged| >= |dates| && merged[..|dates|] == dates
  {
    merged := dates;
    for k := 0 to |entries|
      invariant Distinct(merged)
      invariant Elements(merged) == Elements(dates) + DatesOf(entries[..k])
      invariant |merged| >= |dates| && merged[..|dates|] == dates
    {
      var date := entries[k].date;
      assert entries[..k + 1] == entries[..k] + [entries[k]];
      assert DatesOf(entries[..k + 1]) == DatesOf(entries[..k]) + {date};
      if date !in merged {
        AppendFresh(merged, date);
        merged := merged + [date];
      }
    }
    assert entries[..|entries|] == entries;
  }

  lemma PrefixStep<T>(s: seq<T>, i: int)
    requires 0 <= i < |s|
    ensures s[..i] + [s[i]] == s[..i + 1] && s[..i + 1][..i] == s[..i]
    ensures s[..i + 1][i] == s[i] && |s[..i + 1]| == i + 1
  {
  }

  lemma PrefixAll<T>(s: seq<T>)
    ensures s[..|s|] == s
  {
  }

  /** Merges one city's dates into the axis and re-sorts it, as the `dates.append` loop and `sorted(dates)` do. */
  method MergeAndSort(dates: seq<string>, entries: seq<ForecastEntry>) returns (axis: seq<string>)
    requires Sorted(dates) && Distinct(dates)
    ensures Sorted(axis) && Distinct(axis)
    ensures Elements(axis) == Elements(dates) + DatesOf(entries)
  {
    var merged := MergeDates(dates, entries);
    SortKeepsElements(merged);
    axis := Sort(merged);
  }

  /**
   * The `for city in cities` loop of the callback over an already built
   * city list: the first failing city stops it with that city's alert, and
   * only the cities up to it are searched for.
   */
  method CollectForecasts(api: Weather, provider: Provider, cities: seq<string>, days: int)
    returns (out: CallbackOutput)
    modifies api
    ensures api.cachedData == old(api.cachedData)
    ensures var k := FirstFailure(provider, cities, days);
            if k < |cities| then
              out == CallbackOutput(NoUpdate, FailureAlert(cities[k], CityForecast(provider, k, cities[k], days)), true)
              && api.asked == old(api.asked) + cities[..k + 1]
              && api.locKey == Some(LocKeyByCity(provider(k, cities[k]).lookup))
            else
              out.alert == NoAlert && !out.alertOpen && out.charts.Charts? && out.charts.cities == cities
              && Sorted(out.charts.dates) && Distinct(out.charts.dates)
              && Elements(out.charts.dates) == AllDates(provider, cities, days)
              && SeriesHold(out.charts.series, provider, cities, days)
              && api.asked == old(api.asked) + cities
              && (cities == [] ==> api.locKey == old(api.locKey))
              && (cities != [] ==> api.locKey == Some(LocKeyByCity(provider(|cities| - 1, cities[|cities| - 1]).lookup)))
  {
    var dates: seq<string> := [];
    var series := Series(map[], map[], map[], map[]);
    var i := 0;
    while i < |cities|
      invariant 0 <= i <= |cities|
      invariant api.asked == old(api.asked) + cities[..i]
      invariant Collected(dates, series, provider, cities, i, days)
      invariant api.cachedData == old(api.cachedData)
      invariant i == 0 ==> api.locKey == old(api.locKey)
      invariant i > 0 ==> api.locKey == Some(LocKeyByCity(provider(i - 1, cities[i - 1]).lookup))
    {
      var city := cities[i];
      var forecast := api.GetForecastWeatherData(city, provider(i, city).lookup, provider(i, city).forecast, days);
      AppendStep(old(api.asked), cities, i);
      assert forecast == CityForecast(provider, i, cities[i], days);
      if Fails(forecast) {
        FirstFailureAt(provider, cities, days, i);
        return CallbackOutput(NoUpdate, FailureAlert(city, forecast), true);
      }
      dates, series := AddCity(dates, series, provider, cities, i, days, forecast.entries);
      i := i + 1;
    }
    PrefixAll(cities);
    FirstFailureAt(provider, cities, days, |cities|);
    out := CallbackOutput(Charts(dates, cities, series), NoAlert, false);
  }

  /** What the loop has built once the first `i` cities have answered with forecasts. */
  ghost predicate Collected(dates: seq<string>, series: Series, p: Provider, cities: seq<string>, i: int, days: int)
    requires 0 <= i <= |cities|
  {
    (forall j | 0 <= j < i :: !Fails(CityForecast(p, j, cities[j], days)))
    && Sorted(dates) && Distinct(dates)
    && Elements(dates) == AllDates(p, cities[..i], days)
    && SeriesHold(series, p, cities[..i], days)
  }

  /** One successful pass of the loop body: the city's dates join the axis and its series are stored. */
  method AddCity(
    dates: seq<string>, series: Series, p: Provider, cities: seq<string>, i: int, days: int,
    entries: seq<ForecastEntry>)
    returns (dates': seq<string>, series': Series)
    requires 0 <= i < |cities| && Collected(dates, series, p, cities, i, days)
    requires CityForecast(p, i, cities[i], days) == Forecasts(entries) && entries != []
    ensures Collected(dates', series', p, cities, i + 1, days)
    ensures series' == AddSeries(series, cities[i], entries)
  {
    PrefixStep(cities, i);
    AllDatesStep(p, cities, i, days);
    SeriesStep(series, p, cities, i, days);
    dates' := MergeAndSort(dates, entries);
    series' := AddSeries(series, cities[i], entries);
  }

  /** Searching for one more city of the route extends the record of searches by it. */
  lemma AppendStep<T>(a: seq<T>, s: seq<T>, i: int)
    requires 0 <= i < |s|
    ensures a + s[..i] + [s[i]] == a + s[..i + 1]
  {
    assert s[..i] + [s[i]] == s[..i + 1];
  }

  /**
   * The callback `update_graphs`; `api` is the module-level client. The
   * cities searched for during the call are those `api.asked` gains.
   */
  method UpdateGraphs(
    api: Weather, provider: Provider, nClicks: Option<int>, startCity: Option<string>,
    intermediateCities: Option<string>, endCity: Option<string>, forecastDays: int)
    returns (out: CallbackOutput)
    modifies api
    ensures out.alertOpen <==> out.alert != NoAlert
    ensures api.cachedData == old(api.cachedData)
    ensures !Clicked(nClicks) ==>
              out == CallbackOutput(NoUpdate, NoAlert, false)
              && api.asked == old(api.asked) && api.locKey == old(api.locKey)
    ensures Clicked(nClicks) && !(Filled(startCity) && Filled(endCity)) ==>
              out == CallbackOutput(NoUpdate, MissingEndpoints, true)
              && api.asked == old(api.asked) && api.locKey == old(api.locKey)
    ensures Clicked(nClicks) && Filled(startCity) && Filled(endCity) ==>
              var cities := CityList(startCity, intermediateCities, endCity);
              var k := FirstFailure(provider, cities, forecastDays);
              |cities| >= 2 &&
              if k < |cities| then
                out == CallbackOutput(NoUpdate, FailureAlert(cities[k], CityForecast(provider, k, cities[k], forecastDays)), true)
                && api.asked == old(api.asked) + cities[..k + 1]
                && api.locKey == Some(LocKeyByCity(provider(k, cities[k]).lookup))
              else
                out.alert == NoAlert && out.charts.Charts? && out.charts.cities == cities
                && Sorted(out.charts.dates) && Distinct(out.charts.dates)
                && Elements(out.charts.dates) == AllDates(provider, cities, forecastDays)
                && SeriesHold(out.charts.series, provider, cities, forecastDays)
                && api.asked == old(api.asked) + cities
                && api.locKey == Some(LocKeyByCity(provider(|cities| - 1, cities[|cities| - 1]).lookup))
  {
    if !Clicked(nClicks) {
      return CallbackOutput(NoUpdate, NoAlert, false);
    }
    if !Filled(startCity) || !Filled(endCity) {
      return CallbackOutput(NoUpdate, MissingEndpoints, true);
    }
    var cities := BuildCities(startCity, intermediateCities, endCity);
    CityListShape(startCity, intermediateCities, endCity);
    // The `if not cities` check after the list is built cannot fire: `cities` holds at least the start and the end.
    out := CollectForecasts(api, provider, cities, forecastDays);
  }
}
