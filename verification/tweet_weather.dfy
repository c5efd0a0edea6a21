/** tweetWeather.js: putting the forecast and an extra together into one
    status of at most 280 UTF-16 code units. */
module TweetWeather {
  import opened Wrappers
  import opened JsText
  import Util
  import Weather

  /** The longest status the bot will hand to Twitter. */
  const MaxStatusLength := 280

  /** The extra appended to the forecast: a pick from the late pool when the
      bot missed an update, `getExtra` otherwise. */
  function ExtraText(data: Weather.Payload, isLate: bool, content: Weather.Content, draws: Weather.Draws): (r: Result<string>)
    requires draws.Valid()
    ensures isLate ==> (r.Success? <==> |content.jokes.late| > 0) && (r.Success? ==> r.value in content.jokes.late)
    ensures !isLate ==> r == Weather.Extra(data, content, draws)
  {
    if isLate then Util.PickRandom(content.jokes.late, draws.roll)
    else Weather.Extra(data, content, draws)
  }

  /** `getStatusMessage(parsedWeatherData, isLate)`: the forecast followed by
      the extra, or `undefined` (`None`) when either throws or the result
      is longer than 280 code units; the `catch` logs and swallows the error. */
  function StatusMessage(data: Weather.Payload, isLate: bool, content: Weather.Content, draws: Weather.Draws): (r: Option<string>)
    requires draws.Valid()
    ensures r.Some? ==> Utf16Length(r.value) <= MaxStatusLength
  {
    match Weather.Forecast(data, content.symbols, draws.header)
    case Failure(_) => None
    case Success(forecast) =>
      match ExtraText(data, isLate, content, draws)
      case Failure(_) => None
      case Success(extra) =>
        var message := forecast + extra;
        if Utf16Length(message) > MaxStatusLength then None else Some(message)
  }

  /** A status is produced exactly when the forecast and the extra both
      succeed and their lengths add up to at most 280; it is then the
      forecast immediately followed by the extra. */
  lemma StatusMessageIff(data: Weather.Payload, isLate: bool, content: Weather.Content, draws: Weather.Draws, m: string)
    requires draws.Valid()
    ensures StatusMessage(data, isLate, content, draws) == Some(m) <==>
              exists f, e :: Weather.Forecast(data, content.symbols, draws.header) == Success(f) &&
                             ExtraText(data, isLate, content, draws) == Success(e) &&
                             m == f + e && Utf16Length(f) + Utf16Length(e) <= MaxStatusLength
  {
    var forecast := Weather.Forecast(data, content.symbols, draws.header);
    var extra := ExtraText(data, isLate, content, draws);
    if forecast.Success? && extra.Success? {
      Utf16LengthConcat(forecast.value, extra.value);
    }
  }

  /** A forecast that throws leaves no status, whatever the extra would be. */
  lemma ForecastFailureSilences(data: Weather.Payload, isLate: bool, content: Weather.Content, draws: Weather.Draws)
    requires draws.Valid() && Weather.Forecast(data, content.symbols, draws.header).Failure?
    ensures StatusMessage(data, isLate, content, draws) == None
  {
  }

  /** A late status draws nothing after the late joke: the draws of
      `getExtra`, the icon definitions and the celestial texts play no part,
      and the joke comes from the late pool. */
  lemma LateStatusIgnoresExtra(data: Weather.Payload, content: Weather.Content, d1: Weather.Draws, d2: Weather.Draws,
                               icons: seq<Weather.IconDefinition>, celestial: Weather.CelestialTexts)
    requires d1.Valid() && d2.Valid() && d1.header == d2.header && d1.roll == d2.roll
    ensures StatusMessage(data, true, content, d1) ==
              StatusMessage(data, true, content.(icons := icons, celestial := celestial), d2)
    ensures StatusMessage(data, true, content, d1).Some? ==>
              exists f, joke :: joke in content.jokes.late && StatusMessage(data, true, content, d1) == Some(f + joke)
  {
  }

  /** Weather data with at least three slots that all format, and a
      non-empty general joke pool, give a status whenever the texts are
      short enough. */
  lemma StatusOnGoodData(list: seq<Weather.Slot>, content: Weather.Content, draws: Weather.Draws)
    requires draws.Valid() && |list| >= 3 && |content.jokes.general| > 0
    requires Weather.AllFormat(Weather.FirstThree(list), content.symbols)
    ensures Weather.Forecast(Weather.WeatherData(list), content.symbols, draws.header).Success?
    ensures Weather.Extra(Weather.WeatherData(list), content, draws).Success?
    ensures var data := Weather.WeatherData(list);
            StatusMessage(data, false, content, draws).Some? <==>
              Utf16Length(Weather.Forecast(data, content.symbols, draws.header).value) +
              Utf16Length(Weather.Extra(data, content, draws).value) <= MaxStatusLength
  {
    var data := Weather.WeatherData(list);
    Weather.ForecastLayout(data, content.symbols, draws.header);
    Weather.ExtraSucceedsOnFullData(list, content, draws);
    Utf16LengthConcat(Weather.Forecast(data, content.symbols, draws.header).value, Weather.Extra(data, content, draws).value);
  }
}
