/**
 * The weather client of api_req.py: how the provider's answers (status
 * code plus the JSON fields the client reads) become a location key, a
 * current-conditions snapshot or a list of forecast days, and what the
 * client object remembers afterwards.
 *
 * Responses are inputs; URLs, the API key in them, the HTTP calls and
 * the logging are not modelled.
 */
module WeatherClient {
  import opened Wrappers
  import opened Strings

  const StatusOk := 200

  /** The message paired with the status code when a city name cannot be resolved (spelling as in the client). */
  const CityLookupMessage := "Ошибка при обратботке названия города"

  /** Prefixes of the classification text for bad and good weather. */
  const BadPrefix := "Погода плохая, "
  const GoodPrefix := "Погода хорошая, "

  /** Answer to the city search: the status and the `Key` of every match, in provider order. */
  datatype LookupResponse = LookupResponse(status: int, keys: seq<string>)

  /** A location key, or the `(status, message)` pair returned when the search fails. */
  datatype LocKey = Key(key: string) | LookupFailed(status: int, message: string)

  /** The fields read from the first current-conditions record. */
  datatype Conditions = Conditions(
    temperature: real,
    relativeHumidity: int,
    windSpeed: real,
    weatherText: string,
    hasPrecipitation: bool)

  datatype CurrentResponse = CurrentResponse(status: int, first: Conditions)

  /** The 1-day forecast: its status and the day and night `RainProbability` of its first day. */
  datatype OneDayResponse = OneDayResponse(status: int, dayRainProbability: int, nightRainProbability: int)

  /** The dictionary `cached_data` holds after a successful current-conditions call. */
  datatype Snapshot = Snapshot(temp: real, humidity: int, windSpeed: real, rainProb: real, weatherType: string)

  /** `get_weather_data` returns a snapshot or the raw status code of the call that failed. */
  datatype CurrentOutcome = Current(snapshot: Snapshot) | CurrentFailed(status: int)

  /** The fields read from the `Day` or `Night` part of one forecast day. */
  datatype DayPart = DayPart(rainProbability: int, windSpeed: real, longPhrase: string, humidityAverage: int)

  datatype DailyForecast = DailyForecast(date: string, tempMin: real, tempMax: real, day: DayPart, night: DayPart)

  datatype ForecastResponse = ForecastResponse(status: int, dailyForecasts: seq<DailyForecast>)

  /** One entry of the list `get_forecast_weather_data` returns. */
  datatype ForecastEntry = ForecastEntry(
    date: string,
    tempMin: real,
    tempMax: real,
    precipitationProb: int,
    windSpeed: real,
    humidity: real,
    weatherText: string)

  /**
   * The three shapes `get_forecast_weather_data` returns: the lookup
   * tuple, the raw status code of the forecast call, or the list.
   */
  datatype ForecastOutcome =
    | ForecastLookupFailed(status: int, message: string)
    | ForecastFailed(status: int)
    | Forecasts(entries: seq<ForecastEntry>)

  /** `get_loc_key_by_city`: the first match's key when the search succeeds with at least one match. */
  function LocKeyByCity(resp: LookupResponse): (r: LocKey)
    ensures r.Key? <==> resp.status == StatusOk && resp.keys != []
    ensures r.Key? ==> r.key == resp.keys[0]
    ensures r.LookupFailed? ==> r.status == resp.status && r.message == CityLookupMessage
  {
    if resp.status == StatusOk && resp.keys != [] then Key(resp.keys[0])
    else LookupFailed(resp.status, CityLookupMessage)
  }

  /**
   * Chance of rain over day and night, `d + n - d*n/100`: the union of two
   * independent events, so its complement is the product of the complements.
   */
  function CombinedRainProbability(d: int, n: int): (r: real)
    ensures 100.0 - r == ((100 - d) * (100 - n)) as real / 100.0
  {
    (d + n) as real - (n * d) as real / 100.0
  }

  lemma {:induction false} CombinedRainProbabilityBounds(d: int, n: int)
    requires 0 <= d <= 100 && 0 <= n <= 100
    ensures var r := CombinedRainProbability(d, n);
            0.0 <= r <= 100.0 && r >= d as real && r >= n as real
    ensures CombinedRainProbability(d, n) == CombinedRainProbability(n, d)
  {
    var r := CombinedRainProbability(d, n);
    // The two complements are non-negative, and so is the product of either chance with the other's complement.
    assert (100 - d) * (100 - n) >= 0 by { MulNonNegative(100 - d, 100 - n); }
    assert r - d as real == (n * (100 - d)) as real / 100.0;
    assert r - n as real == (d * (100 - n)) as real / 100.0;
    MulNonNegative(n, 100 - d);
    MulNonNegative(d, 100 - n);
  }

  lemma MulNonNegative(a: int, b: int)
    requires a >= 0 && b >= 0
    ensures a * b >= 0
  {
  }

  /**
   * The bad-weather rule. Its last disjunct, `temp < 15 and wind > 40`,
   * adds nothing: `wind > 40` already means `wind > 35`.
   */
  function IsBad(temp: real, wind: real, rain: real): (bad: bool)
    ensures bad <==> temp < 5.0 || temp > 30.0 || wind > 35.0 || rain > 70.0
  {
    temp < 5.0 || temp > 30.0 || wind > 35.0 || rain > 70.0 || (temp < 15.0 && wind > 40.0)
  }

  /** The classification text: the verdict followed by the lower-cased condition text. */
  function WeatherType(bad: bool, text: string): string {
    (if bad then BadPrefix else GoodPrefix) + Lower(text)
  }

  /**
   * The text starts with the bad-weather prefix exactly when the weather is
   * bad, and with the good-weather prefix otherwise.
   */
  lemma WeatherTypeTellsVerdict(bad: bool, text: string)
    ensures var w := WeatherType(bad, text);
            (|w| >= |BadPrefix| && w[..|BadPrefix|] == BadPrefix) <==> bad
    ensures var w := WeatherType(bad, text);
            !bad ==> |w| >= |GoodPrefix| && w[..|GoodPrefix|] == GoodPrefix
  {
    var w := WeatherType(bad, text);
    if !bad {
      assert w[..|GoodPrefix|] == GoodPrefix;
      assert w[7] == GoodPrefix[7] != BadPrefix[7];
    } else {
      assert w[..|BadPrefix|] == BadPrefix;
    }
  }

  /**
   * What `get_weather_data` returns for the given current-conditions and
   * 1-day-forecast answers: the 1-day forecast is consulted only when no
   * precipitation is reported, and a failed call yields its status code.
   */
  function WeatherData(current: CurrentResponse, daily: OneDayResponse): (r: CurrentOutcome)
    ensures current.status != StatusOk ==> r == CurrentFailed(current.status)
    ensures current.status == StatusOk && current.first.hasPrecipitation ==>
              r.Current? && r.snapshot.rainProb == 100.0
    ensures current.status == StatusOk && !current.first.hasPrecipitation ==>
              (r.CurrentFailed? <==> daily.status != StatusOk) &&
              (r.CurrentFailed? ==> r.status == daily.status) &&
              (r.Current? ==>
                 r.snapshot.rainProb == CombinedRainProbability(daily.dayRainProbability, daily.nightRainProbability))
    ensures r.Current? ==>
              var c := current.first;
              r.snapshot.temp == c.temperature && r.snapshot.humidity == c.relativeHumidity &&
              r.snapshot.windSpeed == c.windSpeed &&
              r.snapshot.weatherType ==
                WeatherType(IsBad(c.temperature, c.windSpeed, r.snapshot.rainProb), c.weatherText)
  {
    if current.status != StatusOk then CurrentFailed(current.status)
    else
      var c := current.first;
      var rain :=
        if c.hasPrecipitation then Some(100.0)
        else if daily.status == StatusOk
        then Some(CombinedRainProbability(daily.dayRainProbability, daily.nightRainProbability))
        else None;
      match rain
      case None => CurrentFailed(daily.status)
      case Some(p) =>
        Current(Snapshot(c.temperature, c.relativeHumidity, c.windSpeed, p,
                         WeatherType(IsBad(c.temperature, c.windSpeed, p), c.weatherText)))
  }

  /** With precipitation reported, the 1-day forecast's answer makes no difference. */
  lemma PrecipitationIgnoresForecast(current: CurrentResponse, daily1: OneDayResponse, daily2: OneDayResponse)
    requires current.status == StatusOk && current.first.hasPrecipitation
    ensures WeatherData(current, daily1) == WeatherData(current, daily2)
  {
  }

  /** With precipitation reported, the weather is always classified bad. */
  lemma {:induction false} PrecipitationIsBad(current: CurrentResponse, daily: OneDayResponse)
    requires current.status == StatusOk && current.first.hasPrecipitation
    ensures var r := WeatherData(current, daily);
            r.Current? && |r.snapshot.weatherType| >= |BadPrefix| &&
            r.snapshot.weatherType[..|BadPrefix|] == BadPrefix
  {
    var r := WeatherData(current, daily);
    WeatherTypeTellsVerdict(true, current.first.weatherText);
  }

  /** For percentages in range, a snapshot's rain probability is a percentage too. */
  lemma {:induction false} SnapshotRainInRange(current: CurrentResponse, daily: OneDayResponse)
    requires 0 <= daily.dayRainProbability <= 100 && 0 <= daily.nightRainProbability <= 100
    ensures var r := WeatherData(current, daily);
            r.Current? ==> 0.0 <= r.snapshot.rainProb <= 100.0
  {
    CombinedRainProbabilityBounds(daily.dayRainProbability, daily.nightRainProbability);
  }

  /**
   * One forecast day as the client reports it: the date cut to its first
   * ten characters, the Day part's rain chance, wind and phrase, and the
   * mean of the day and night average humidity.
   */
  function ToEntry(d: DailyForecast): (e: ForecastEntry)
    ensures e.date == Take(d.date, 10) && |e.date| == if |d.date| < 10 then |d.date| else 10
    ensures e.tempMin == d.tempMin && e.tempMax == d.tempMax
    ensures e.precipitationProb == d.day.rainProbability && e.windSpeed == d.day.windSpeed
    ensures e.weatherText == d.day.longPhrase
    ensures 2.0 * e.humidity == (d.day.humidityAverage + d.night.humidityAverage) as real
  {
    ForecastEntry(
      Take(d.date, 10), d.tempMin, d.tempMax, d.day.rainProbability, d.day.windSpeed,
      (d.day.humidityAverage + d.night.humidityAverage) as real / 2.0, d.day.longPhrase)
  }

  /** The forecast humidity lies between the day and the night averages. */
  lemma EntryHumidityBetween(d: DailyForecast)
    ensures var h := ToEntry(d).humidity;
            var lo := if d.day.humidityAverage < d.night.humidityAverage then d.day.humidityAverage else d.night.humidityAverage;
            var hi := if d.day.humidityAverage < d.night.humidityAverage then d.night.humidityAverage else d.day.humidityAverage;
            lo as real <= h <= hi as real
  {
  }

  /**
   * What `get_forecast_weather_data` returns: the lookup tuple, the status
   * of a failed forecast call, or the first `days` provider days (a Python
   * slice: negative `days` drops days from the end) mapped one to one.
   */
  function ForecastWeatherData(lookup: LookupResponse, resp: ForecastResponse, days: int): (r: ForecastOutcome)
    ensures LocKeyByCity(lookup).LookupFailed? ==>
              r == ForecastLookupFailed(lookup.status, CityLookupMessage)
    ensures LocKeyByCity(lookup).Key? && resp.status != StatusOk ==> r == ForecastFailed(resp.status)
    ensures LocKeyByCity(lookup).Key? && resp.status == StatusOk ==>
              r.Forecasts? &&
              |r.entries| == SliceEnd(|resp.dailyForecasts|, days) &&
              (days >= 0 ==> |r.entries| == if days < |resp.dailyForecasts| then days else |resp.dailyForecasts|) &&
              forall i | 0 <= i < |r.entries| :: r.entries[i] == ToEntry(resp.dailyForecasts[i])
  {
    match LocKeyByCity(lookup)
    case LookupFailed(status, message) => ForecastLookupFailed(status, message)
    case Key(_) =>
      if resp.status != StatusOk then ForecastFailed(resp.status)
      else
        var kept := Take(resp.dailyForecasts, days);
        Forecasts(seq(|kept|, i requires 0 <= i < |kept| => ToEntry(kept[i])))
  }

  /**
   * The client object. Both fields start as `None` and every call
   * overwrites `loc_key`; `cached_data` is overwritten only by a
   * successful current-conditions call. The ghost field `asked` lists the
   * city names the client has searched the provider for, oldest first.
   */
  class Weather {
    const apiKey: string
    var locKey: Option<LocKey>
    var cachedData: Option<Snapshot>
    ghost var asked: seq<string>

    constructor (apiKey: string)
      ensures this.apiKey == apiKey && locKey == None && cachedData == None && asked == []
    {
      this.apiKey := apiKey;
      locKey := None;
      cachedData := None;
      asked := [];
    }

    /**
     * `get_weather_data`. The lookup result is stored whatever it is; the
     * current-conditions answer is read whether or not the lookup succeeded.
     */
    method GetWeatherData(city: string, lookup: LookupResponse, current: CurrentResponse, daily: OneDayResponse)
      returns (r: CurrentOutcome)
      modifies this
      ensures r == WeatherData(current, daily)
      ensures locKey == Some(LocKeyByCity(lookup))
      ensures cachedData == if r.Current? then Some(r.snapshot) else old(cachedData)
      ensures asked == old(asked) + [city]
    {
      asked := asked + [city];
      locKey := Some(LocKeyByCity(lookup));
      if current.status != StatusOk {
        return CurrentFailed(current.status);
      }
      var c := current.first;
      var rainProb: real;
      if !c.hasPrecipitation {
        if daily.status == StatusOk {
          rainProb := CombinedRainProbability(daily.dayRainProbability, daily.nightRainProbability);
        } else {
          return CurrentFailed(daily.status);
        }
      } else {
        rainProb := 100.0;
      }
      var weatherType := WeatherType(IsBad(c.temperature, c.windSpeed, rainProb), c.weatherText);
      var snapshot := Snapshot(c.temperature, c.relativeHumidity, c.windSpeed, rainProb, weatherType);
      cachedData := Some(snapshot);
      r := Current(snapshot);
    }

    /** `get_forecast_weather_data`: builds the entry list day by day. */
    method GetForecastWeatherData(city: string, lookup: LookupResponse, resp: ForecastResponse, days: int)
      returns (r: ForecastOutcome)
      modifies this
      ensures r == ForecastWeatherData(lookup, resp, days)
      ensures locKey == Some(LocKeyByCity(lookup))
      ensures cachedData == old(cachedData)
      ensures asked == old(asked) + [city]
    {
      asked := asked + [city];
      var key := LocKeyByCity(lookup);
      locKey := Some(key);
      if key.LookupFailed? {
        return ForecastLookupFailed(key.status, key.message);
      }
      if resp.status != StatusOk {
        return ForecastFailed(resp.status);
      }
      var kept := Take(resp.dailyForecasts, days);
      var forecasts: seq<ForecastEntry> := [];
      for i := 0 to |kept|
        invariant |forecasts| == i
        invariant forall j | 0 <= j < i :: forecasts[j] == ToEntry(kept[j])
      {
        var day := kept[i];
        var humidity := (day.day.humidityAverage + day.night.humidityAverage) as real / 2.0;
        forecasts := forecasts + [ForecastEntry(
          Take(day.date, 10), day.tempMin, day.tempMax, day.day.rainProbability,
          day.day.windSpeed, humidity, day.day.longPhrase)];
      }
      r := Forecasts(forecasts);
    }
  }
}
