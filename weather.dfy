/** WeatherTool.gs.js: the wttr.in forecast request and the current, daily and
    astronomy lines built from its JSON reply. */
module Weather {
  import opened Wrappers
  import opened Text

  const DefaultForecastUrl: string := "https://wttr.in"
  /** Days with a forecast line, and days with an astronomy line. */
  const ForecastDays: nat := 3
  const AstronomyDays: nat := 2
  /** `hourly[4]` is the 12:00 entry. */
  const MiddayIndex: nat := 4

  /** One `hourly` entry: the `weatherDesc[0].value` when present, and
      `parseInt(chanceofrain || 0, 10)`, which is `None` where it gives NaN (a missing
      chance reads as 0). */
  datatype Hour = Hour(desc: Option<string>, chanceOfRain: Option<int>)

  datatype Astro = Astro(sunrise: string, sunset: string)

  /** One `weather` entry; the temperatures and the date are kept as the text the
      API sends. `astronomy` is `astronomy[0]`, if any. */
  datatype Day = Day(date: string, maxTempC: string, minTempC: string, hourly: seq<Hour>,
                     astronomy: Option<Astro>)

  /** `current_condition[0]`. */
  datatype Current = Current(tempC: string, desc: Option<string>, windKmph: string, humidity: string)

  /** The reply: missing `current_condition[0]` is `None`, a missing `weather` list
      is empty. */
  datatype Forecast = Forecast(current: Option<Current>, weather: seq<Day>)

  /** The object `fetch` returns; `rawJson` is the parsed reply itself. */
  datatype WeatherResult = WeatherResult(success: bool, data: Option<string>, astronomy: Option<string>,
                                         rawJson: Option<Forecast>, error: Option<string>)

  function Failed(error: string): WeatherResult {
    WeatherResult(false, None, None, None, Some(error))
  }

  /** The request URL, with the coordinates as JavaScript renders them. */
  function RequestUrl(forecastUrl: string, latText: string, lonText: string): string {
    forecastUrl + "/" + latText + "," + lonText + "?format=j1"
  }

  function DescOrUnknown(desc: Option<string>): string {
    if desc.Some? then desc.value else "Unknown"
  }

  /** The line for the current conditions. */
  function NowLine(c: Current): string {
    "NOW: " + c.tempC + "°C, " + DescOrUnknown(c.desc) + ", Wind " + c.windKmph + "km/h, Humidity "
    + c.humidity + "%"
  }

  /** Today, Tomorrow, then the day's own date. */
  function DayLabel(i: nat, day: Day): string {
    if i == 0 then "Today" else if i == 1 then "Tomorrow" else day.date
  }

  /** The description of a day: that of the 12:00 entry, else of the first entry, or
      "Clear" when there are no entries. */
  function DayDescription(hourly: seq<Hour>): string {
    if |hourly| == 0 then "Clear"
    else DescOrUnknown((if |hourly| > MiddayIndex then hourly[MiddayIndex] else hourly[0]).desc)
  }

  /** The largest chance of rain over the entries, starting from 0. */
  function MaxRain(hourly: seq<Hour>): int {
    if hourly == [] then 0
    else
      var m := MaxRain(hourly[..|hourly| - 1]);
      var c := hourly[|hourly| - 1].chanceOfRain;
      if c.Some? && c.value > m then c.value else m
  }

  /** The day's rain figure is at least 0 and at least every entry's chance, and it
      is one of those chances unless it is 0. */
  lemma {:induction false} MaxRainIsMaximum(hourly: seq<Hour>)
    ensures MaxRain(hourly) >= 0
    ensures forall h :: 0 <= h < |hourly| && hourly[h].chanceOfRain.Some? ==>
      hourly[h].chanceOfRain.value <= MaxRain(hourly)
    ensures MaxRain(hourly) == 0 || exists h :: 0 <= h < |hourly| && hourly[h].chanceOfRain == Some(MaxRain(hourly))
  {
    if hourly != [] {
      var init := hourly[..|hourly| - 1];
      MaxRainIsMaximum(init);
      forall h | 0 <= h < |init| ensures hourly[h] == init[h] {
      }
    }
  }

  function DayLine(i: nat, day: Day): string {
    DayLabel(i, day) + ": " + day.minTempC + "°-" + day.maxTempC + "°C, " + DayDescription(day.hourly) + ", "
    + IntToString(MaxRain(day.hourly)) + "% rain"
  }

  function AstronomyLine(i: nat, astro: Astro): string {
    (if i == 0 then "Today" else "Tomorrow") + ": Sunrise " + astro.sunrise + ", Sunset " + astro.sunset
  }

  function Min(a: int, b: int): int {
    if a < b then a else b
  }

  /** The day lines for the first `n` days. */
  function DayLines(days: seq<Day>, n: nat): (lines: seq<string>)
    requires n <= |days|
    ensures |lines| == n
    ensures forall i :: 0 <= i < n ==> lines[i] == DayLine(i, days[i])
  {
    if n == 0 then []
    else
      var prev := DayLines(days, n - 1);
      var line := DayLine(n - 1, days[n - 1]);
      assert forall i :: 0 <= i < n - 1 ==> (prev + [line])[i] == prev[i];
      prev + [line]
  }

  /** The astronomy lines for those of the first `n` days (no more than two) that
      have astronomy data. */
  function AstronomyLines(days: seq<Day>, n: nat): (lines: seq<string>)
    requires n <= |days| && n <= AstronomyDays
    ensures |lines| <= n
  {
    if n == 0 then []
    else
      var last := days[n - 1].astronomy;
      AstronomyLines(days, n - 1) + (if last.Some? then [AstronomyLine(n - 1, last.value)] else [])
  }

  /** The lines of `data`: the current conditions, if any, then the first three
      days. */
  function ForecastLines(json: Forecast): seq<string> {
    (if json.current.Some? then [NowLine(json.current.value)] else [])
    + DayLines(json.weather, Min(ForecastDays, |json.weather|))
  }

  /** The lines of `astronomy`, when it was asked for. */
  function RequestedAstronomy(json: Forecast, includeAstronomy: bool): seq<string> {
    if includeAstronomy then AstronomyLines(json.weather, Min(AstronomyDays, |json.weather|)) else []
  }

  /** At most four lines of data, the days labelled Today, Tomorrow and then by
      date; at most two astronomy lines, and none unless asked for. */
  lemma LineBounds(json: Forecast, includeAstronomy: bool)
    ensures |ForecastLines(json)| <= 4
    ensures |RequestedAstronomy(json, includeAstronomy)| <= 2
    ensures !includeAstronomy ==> RequestedAstronomy(json, includeAstronomy) == []
    ensures var off := if json.current.Some? then 1 else 0;
      forall i :: 0 <= i < Min(ForecastDays, |json.weather|) ==>
        ForecastLines(json)[off + i] == DayLine(i, json.weather[i])
  {
  }

  /** Astronomy for a day beyond the second never appears: changing the third day
      leaves the astronomy lines as they were. */
  lemma AstronomyFirstTwoDays(json: Forecast, includeAstronomy: bool, d: Day)
    requires |json.weather| >= 3
    ensures var other := json.(weather := json.weather[2 := d]);
      RequestedAstronomy(other, includeAstronomy) == RequestedAstronomy(json, includeAstronomy)
  {
    var other := json.(weather := json.weather[2 := d]);
    if includeAstronomy {
      assert AstronomyLines(other.weather, 2) == AstronomyLines(json.weather, 2) by {
        assert other.weather[0] == json.weather[0] && other.weather[1] == json.weather[1];
        assert AstronomyLines(other.weather, 1) == AstronomyLines(json.weather, 1);
      }
    }
  }

  /** The rain figure of one day, computed by a loop over its entries. */
  method DayRain(hourly: seq<Hour>) returns (maxRainChance: int)
    ensures maxRainChance == MaxRain(hourly)
  {
    maxRainChance := 0;
    for h := 0 to |hourly|
      invariant maxRainChance == MaxRain(hourly[..h])
    {
      var rainChance := hourly[h].chanceOfRain;
      assert hourly[..h + 1][..h] == hourly[..h];
      if rainChance.Some? && rainChance.value > maxRainChance {
        maxRainChance := rainChance.value;
      }
    }
    assert hourly[..|hourly|] == hourly;
  }

  /** The loop over the first three days: a line per day, and an astronomy line for
      each of the first two days that has astronomy data, when asked for. */
  method BuildDayLines(weather: seq<Day>, includeAstronomy: bool)
    returns (weatherLines: seq<string>, astronomyLines: seq<string>)
    ensures weatherLines == DayLines(weather, Min(ForecastDays, |weather|))
    ensures astronomyLines == if includeAstronomy then AstronomyLines(weather, Min(AstronomyDays, |weather|)) else []
  {
    weatherLines := [];
    astronomyLines := [];
    var days := Min(ForecastDays, |weather|);
    for i := 0 to days
      invariant weatherLines == DayLines(weather, i)
      invariant astronomyLines == if includeAstronomy then AstronomyLines(weather, Min(i, AstronomyDays)) else []
    {
      var day := weather[i];
      var dayName := if i == 0 then "Today" else if i == 1 then "Tomorrow" else day.date;
      var weatherDesc := DayDescription(day.hourly);
      var maxRainChance := DayRain(day.hourly);
      var line := dayName + ": " + day.minTempC + "°-" + day.maxTempC + "°C, " + weatherDesc + ", "
                  + IntToString(maxRainChance) + "% rain";
      assert line == DayLine(i, day);
      weatherLines := weatherLines + [line];
      if includeAstronomy && i < 2 && day.astronomy.Some? {
        var dayLabel := if i == 0 then "Today" else "Tomorrow";
        var astroLine := dayLabel + ": Sunrise " + day.astronomy.value.sunrise + ", Sunset " + day.astronomy.value.sunset;
        assert astroLine == AstronomyLine(i, day.astronomy.value);
        astronomyLines := astronomyLines + [astroLine];
      }
    }
  }

  /** `fetch(lat, lon, logId, includeAstronomy)` once the request is answered: a
      thrown exception or an unparsable body gives `EXCEPTION:`, a code other than
      200 gives `HTTP_<code>`, and otherwise the current conditions and the day lines
      make the data. */
  method FetchWeather(reply: Reply<Forecast>, includeAstronomy: bool) returns (result: WeatherResult)
    ensures reply.Threw? ==> result == Failed("EXCEPTION:" + reply.message)
    ensures reply.Replied? && reply.code != 200 ==> result == Failed("HTTP_" + IntToString(reply.code))
    ensures reply.Replied? && reply.code == 200 && reply.body.Malformed? ==>
      result == Failed("EXCEPTION:" + reply.body.message)
    ensures reply.Replied? && reply.code == 200 && reply.body.Parsed? ==>
      var json := reply.body.value;
      var astronomy := RequestedAstronomy(json, includeAstronomy);
      result == WeatherResult(true, Some(Join(ForecastLines(json), "\n")),
                              if astronomy == [] then None else Some(Join(astronomy, "\n")),
                              Some(json), None)
  {
    match reply
    case Threw(message) =>
      return Failed("EXCEPTION:" + message);
    case Replied(code, body) =>
      if code != 200 {
        return Failed("HTTP_" + IntToString(code));
      }
      match body
      case Malformed(message) =>
        return Failed("EXCEPTION:" + message);
      case Parsed(json) =>
        var weatherLines: seq<string> := [];
        if json.current.Some? {
          weatherLines := weatherLines + [NowLine(json.current.value)];
        }
        var dayLines, astronomyLines := BuildDayLines(json.weather, includeAstronomy);
        weatherLines := weatherLines + dayLines;
        assert weatherLines == ForecastLines(json);
        return WeatherResult(true, Some(Join(weatherLines, "\n")),
                             if |astronomyLines| > 0 then Some(Join(astronomyLines, "\n")) else None,
                             Some(json), None);
  }
}
