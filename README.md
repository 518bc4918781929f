# Weather route forecast: a Dafny model

The repository is a small web application. A user enters a start city, an
end city, optional intermediate cities separated by commas, and a number of
forecast days. The application asks the AccuWeather API for each city's
location key and its 5-day forecast. It then draws four charts over a
shared date axis: average temperature, wind speed, humidity and rain
probability. The weather client also fetches current conditions, and it
classifies the weather as good or bad.

This project models the rules inside that glue:

- `wrappers.dfy`: the `Option` type. It stands for Python's `None`-or-value.
- `strings.dfy`: the Python string operations the rules use:
  - `strip`, with the `str.isspace` character set;
  - `lower` and `capitalize`, covering ASCII and basic Cyrillic;
  - `split(",")` and `",".join`;
  - the prefix slice `s[:k]`, including a negative `k`.
- `sorting.dfy`: Python's `sorted` on strings. The order is code-point
  lexicographic, and the result is a sorted permutation.
- `weather_client.dfy`: the `Weather` client of `api_req.py`. Its
  `loc_key` and `cached_data` fields are fields of a class. The methods
  that overwrite them are specified by pure functions over the provider's
  answers. Each answer is a status code plus the JSON fields the client
  reads.
- `route.dfy`: the Dash callback `update_graphs` of `dash_app.py`. It
  covers:
  - the form validation;
  - the city list;
  - the per-city loop that stops at the first failing city;
  - the date axis, kept duplicate-free and sorted;
  - the four per-city series dictionaries.

  The provider is a function from the position of a request within one
  callback run, and the city name it is made for, to the lookup and 5-day
  forecast answers. A city named twice is therefore asked twice, and it may
  get different answers. The client's ghost field `asked` lists every city
  name it has searched for, in order. Only `GetWeatherData` and
  `GetForecastWeatherData` extend it, so the route's contracts on `asked`
  say which cities the callback made requests for.

## Model

Some functions that model source lines have no row of their own:
- `Strings.TrimStart`, `Strings.TrimEnd` and `Strings.Strip` are specified by `TrimStartFacts`, `TrimEndFacts` and `StripFacts`.
- `Route.Clicked` and `Route.Filled` (Python truthiness of the click count and the text fields) are specified by the clauses of `UpdateGraphs`.
- `Route.KeepSegment` and `Route.CityList` are specified by `CleanSegmentsTrimmed`, `CleanSegmentsAppend`, `CityListShape` and `BuildCities`.
- `Route.Fails` is specified by `FirstFailure` and `FailureAlert`.
- `Route.AddSeries` is specified by `SeriesStep` and `SeriesAtOther`.

| member | source | states |
|---|---|---|
| WeatherClient.LocKeyByCity | api_req.py:26-34 | the key is returned exactly when the status is 200 and the match list is non-empty, and it is the first match's key; otherwise the result is the pair of the status and the fixed message, including for 200 with no match |
| WeatherClient.CombinedRainProbability | api_req.py:59-61 | `d + n - d*n/100` is the union of two independent chances: 100 minus it equals the product of the two complements divided by 100 |
| WeatherClient.CombinedRainProbabilityBounds | api_req.py:59-61 | for day and night chances in [0,100], the combined chance is in [0,100], is at least each of the two, and is symmetric in them |
| WeatherClient.IsBad | api_req.py:69 | the weather is bad iff temp < 5, temp > 30, wind > 35 or rain > 70; the disjunct `temp < 15 and wind > 40` is redundant and is shown to change nothing |
| WeatherClient.WeatherTypeTellsVerdict | api_req.py:69-72 | the classification text starts with the bad-weather prefix iff the weather is bad, and with the good-weather prefix when it is good |
| WeatherClient.WeatherData | api_req.py:36-82 | a non-200 current-conditions answer gives its status code; with precipitation reported the rain chance is 100; otherwise a non-200 1-day answer gives that status code, and a 200 one gives the combined chance; on success the snapshot holds the reported temperature, humidity and wind, and the verdict text for them |
| WeatherClient.PrecipitationIgnoresForecast | api_req.py:54-66 | when precipitation is reported, the 1-day forecast answer has no effect on the result |
| WeatherClient.PrecipitationIsBad | api_req.py:65-72 | when precipitation is reported, the call succeeds and the classification is always bad |
| WeatherClient.SnapshotRainInRange | api_req.py:54-66 | for percentages in range, a snapshot's rain probability lies in [0,100] |
| WeatherClient.ToEntry | api_req.py:102-122 | an entry's date is the first 10 characters of the timestamp (or all of it when shorter); min and max come from the day; the rain chance, wind and phrase come from the Day part; twice the humidity is the sum of the day and night averages |
| WeatherClient.EntryHumidityBetween | api_req.py:110-112 | the entry humidity lies between the day and night averages |
| WeatherClient.ForecastWeatherData | api_req.py:84-125 | a failed lookup passes its tuple back unchanged; a non-200 forecast answer gives its status code; otherwise there are as many entries as the slice `[:days]` keeps (min(days, len) for non-negative days), in provider order, entry i mapped from day i |
| WeatherClient.Weather.constructor | api_req.py:9-12 | the key is stored, both `loc_key` and `cached_data` start empty, and no city has been searched for yet |
| WeatherClient.Weather.GetWeatherData | api_req.py:36-82 | returns `WeatherData` of the answers; `loc_key` always becomes the lookup outcome; `cached_data` becomes the returned snapshot on success and is unchanged on every failure; the city is recorded as searched for |
| WeatherClient.Weather.GetForecastWeatherData | api_req.py:84-125 | the loop returns `ForecastWeatherData` of the answers; `loc_key` becomes the lookup outcome, including a failed one; `cached_data` is unchanged; the city is recorded as searched for |
| Strings.TrimStartFacts | dash_app.py:104 | `lstrip` keeps a suffix, removes only white space, and what it keeps does not start with white space |
| Strings.TrimEndFacts | dash_app.py:104 | `rstrip` keeps a prefix, removes only white space, and what it keeps does not end with white space |
| Strings.StripFacts | dash_app.py:104 | `strip` gives a contiguous piece of the input with only white space around it; the piece has no white space at either end, and is empty iff the input is all white space |
| Strings.Lower | api_req.py:70-72 | `lower` keeps the length and lower-cases each character |
| Strings.Capitalize | dash_app.py:104 | `capitalize` keeps the length, upper-cases the first character and lower-cases the rest |
| Strings.CaseKeepsSpace | dash_app.py:104 | case mapping neither creates nor removes white space |
| Strings.CapitalizedStripIsTrimmed | dash_app.py:104 | a capitalized, stripped, non-blank name has no white space at either end |
| Strings.Split | dash_app.py:106 | `split(",")` gives at least one piece, and no piece contains a comma |
| Strings.JoinSplit | dash_app.py:106 | joining the pieces with commas gives back the field |
| Strings.SplitJoin | dash_app.py:106 | splitting comma-free pieces joined with commas gives back the pieces |
| Strings.SplitNoComma | dash_app.py:106 | a field without a comma splits into itself alone |
| Strings.SplitPrefix | dash_app.py:106 | a comma-free piece followed by a comma splits off as the first piece |
| Strings.SliceEnd | api_req.py:101-102 | the end index of `s[:k]`: min(k, n) for k >= 0, and max(n + k, 0) for negative k |
| Strings.Take | api_req.py:101-102 | `s[:k]` is the prefix of `s` with that end index |
| Sorting.LexLeTotal | dash_app.py:136 | any two strings are comparable |
| Sorting.LexLeAntisymmetric | dash_app.py:136 | strings that are each at most the other are equal |
| Sorting.LexLeTransitive | dash_app.py:136 | the string order is transitive |
| Sorting.Insert | dash_app.py:136 | inserting into a sorted list gives a sorted list with one more copy of the value |
| Sorting.Sort | dash_app.py:136 | `sorted` gives a sorted permutation of its input |
| Sorting.SortKeepsElements | dash_app.py:136 | sorting keeps the set of values and keeps a duplicate-free list duplicate-free |
| Sorting.StrictlyAscending | dash_app.py:130-136 | a sorted list without duplicates is strictly ascending |
| Sorting.AppendFresh | dash_app.py:132-133 | appending a value not yet in a duplicate-free list keeps it duplicate-free and adds exactly that value |
| Route.CityName | dash_app.py:104 | a city name is as long as the stripped field |
| Route.CityNameTrimmed | dash_app.py:104 | a city name is empty iff the field is all white space, and otherwise has no white space at either end |
| Route.CleanSegments | dash_app.py:106 | cleaning never adds pieces |
| Route.CleanSegmentsTrimmed | dash_app.py:106 | every kept intermediate city is non-empty and has no white space at either end |
| Route.CleanSegmentsAppend | dash_app.py:106 | cleaning works piece by piece, so the kept pieces keep their input order |
| Route.CityListShape | dash_app.py:102-109 | once both ends are given, the list has at least two cities: the start first, the end last, and the cleaned intermediates in between |
| Route.CleanIntermediates | dash_app.py:106-107 | the comprehension, written as its loop, gives the cleaned pieces |
| Route.BuildCities | dash_app.py:102-109 | the appends and the extend build exactly the city list |
| Route.FirstFailure | dash_app.py:121-128 | the position of the first request whose forecast is a tuple, an int or an empty list; every earlier request succeeds |
| Route.FirstFailureAt | dash_app.py:121-128 | a position before which nothing fails, and at which the forecast fails, is the first failure |
| Route.FailureAlert | dash_app.py:123-128 | the alert names the failing city; for a tuple it carries the tuple's status and message, for an int it carries that status code, and otherwise it reports no data |
| Route.TempAvgSeries | dash_app.py:139 | one value per forecast day, and twice it is min plus max |
| Route.TempAvgBetween | dash_app.py:139 | the average lies between the day's minimum and maximum |
| Route.WindSeries | dash_app.py:140 | one value per forecast day: that day's wind speed |
| Route.HumiditySeries | dash_app.py:141 | one value per forecast day: that day's humidity |
| Route.RainSeries | dash_app.py:142 | one value per forecast day: that day's rain probability |
| Route.AllDatesStep | dash_app.py:130-133 | the dates of one more city are the earlier dates plus that city's dates |
| Route.SeriesStep | dash_app.py:139-142 | storing a city's four series covers exactly one more city; that city's series come from the newest request, and every other city keeps its series |
| Route.SeriesAtOther | dash_app.py:139-142 | storing one city's series leaves every other city's series unchanged |
| Route.MergeDates | dash_app.py:130-133 | the merged axis is duplicate-free, holds the old dates plus the new ones, and keeps the old dates in place at its front |
| Route.MergeAndSort | dash_app.py:130-136 | after a city, the axis is sorted and duplicate-free, and holds the old dates plus that city's dates |
| Route.AddCity | dash_app.py:130-142 | after a city whose forecast has entries, the axis is sorted, duplicate-free and holds every date of the cities so far, and the series hold those cities, the added city's taken from this answer |
| Route.CollectForecasts | dash_app.py:121-142 | at the first failing request, it returns that city's alert, the client has searched for exactly the cities up to and including it, and `loc_key` is that search's outcome; with no failure, the client has searched for every city of the list in order, the axis is sorted and duplicate-free and holds every forecast date, and each city's four series come from the answer to its last request |
| Route.UpdateGraphs | dash_app.py:92-142 | no click updates nothing, hides the alert and searches for no city; a missing start or end city opens the validation alert and searches for no city; otherwise the result is `CollectForecasts` over the city list; the alert is open iff there is an alert text |

## Left out

- HTTP calls, URLs, the API key inside them, `logging` and `print`. Each answer is an input value.
- `get_loc_key_by_coords`. It returns the `Key` of the answer on 200 and the bare status code otherwise, and the route never calls it.
- `get_weather_data` puts an error-shaped `loc_key` into the next URL unchecked. What the provider answers to that URL is provider behaviour. The model takes the current-conditions answer as given whatever the lookup gave.
- A missing `RelativeHumidity` in a forecast day. The code subscripts the default `0`, so it raises `TypeError`; it does not average with 0. Per-part humidity is therefore a required field, and the error is not modelled.
- Empty current-conditions, 1-day or forecast lists indexed at `[0]`, which raise `IndexError`. The current and 1-day answers are modelled by their first record.
- Python floats. They are modelled as exact reals with no rounding.
- Case mapping beyond ASCII and basic Cyrillic. Other characters keep their case. Titlecase digraphs are not covered.
- The alert texts. They are modelled as the `Alert` datatype: which message, and the city, status and lookup message it carries. They are not rendered f-strings.
- The check at dash_app.py:111-112. By then the validation guarantees at least the start and the end city, so it cannot fire (see `CityListShape`).
- Building the Plotly figures and traces, the layout, and all of app.py. These are UI and server wiring.
- The default `days=1` of `get_forecast_weather_data`. The callback always passes `days`, so `ForecastWeatherData` and `GetForecastWeatherData` take it explicitly.
- A missing JSON field raises `KeyError`, and a 200 body that is not JSON makes `r.json()` raise. The record types give every field the client reads, so neither failure can be represented.

