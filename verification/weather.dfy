/** weather.js: turning an OpenWeatherMap five-day forecast into the text of
    a status. The default forecast, the extra statistics, the Beaufort
    trivia, the wind-direction arrows, jokes, tutorials and the choice among
    them. Every `Math.random()` draw is a parameter. */
module Weather {
  import opened Wrappers
  import opened JsText
  import Util

  // ---------------------------------------------------------------------
  // Data
  // ---------------------------------------------------------------------

  /** A rain or snow volume for three hours (`rain['3h']`) and how JavaScript
      prints it. */
  datatype Amount = Amount(value: real, text: string)

  /** `wind.speed.toPrecision(2)`, the string, and the number that string
      denotes (what a comparison such as `windSpeed < .5` coerces it to). */
  datatype WindSpeed = WindSpeed(text: string, value: real)

  /** One three-hour entry of the forecast's `list`. `rain` and `snow` are
      `None` when the entry has no such object or the object has no `3h`
      member. Pressure, humidity and cloudiness are kept as the text their
      template interpolation prints. */
  datatype Slot = Slot(
    dtTxt: string,
    tempMin: real,
    tempMax: real,
    conditionIds: seq<int>,
    windDeg: real,
    windSpeed: WindSpeed,
    rain: Option<Amount>,
    snow: Option<Amount>,
    groundPressure: string,
    humidity: string,
    cloudiness: string)

  /** The parsed response: an object with its `list` of slots, or a
      primitive value (a number, a string, a boolean) that is not an object. */
  datatype Payload = NotAnObject | WeatherData(list: seq<Slot>)

  datatype IconDefinition = IconDefinition(icon: string, conditions: string)

  /** The joke pools of jokes.json. */
  datatype JokePools = JokePools(general: seq<string>, hot: seq<string>, late: seq<string>, error: seq<string>)

  /** What celestial.js returns for the day/night, lunar-phase and
      season-progress messages. */
  datatype CelestialTexts = CelestialTexts(dayNight: string, lunarPhase: string, seasonProgress: string)

  /** The static tables: condition id to symbol (statusCodeMap.json), the
      joke pools, the icon definitions, and the celestial messages. */
  datatype Content = Content(
    symbols: map<int, string>,
    jokes: JokePools,
    icons: seq<IconDefinition>,
    celestial: CelestialTexts)

  /** The `Math.random()` draws of one status message, in the order the code
      makes them: the forecast header, then the extra's roll (for a late
      status, the pick from the late pool), then the draw inside the chosen
      extra, then the draw of the fallback statistic. */
  datatype Draws = Draws(header: real, roll: real, sub: real, fallback: real) {
    predicate Valid() {
      Util.IsDraw(header) && Util.IsDraw(roll) && Util.IsDraw(sub) && Util.IsDraw(fallback)
    }
  }

  /** `list.slice(0, 3)`. */
  function FirstThree(list: seq<Slot>): (s: seq<Slot>)
    ensures |s| == if |list| < 3 then |list| else 3
    ensures s <= list
  {
    if |list| < 3 then list else list[..3]
  }

  /** The local hour of a slot: `getCST(parseInt(dt_txt.substr(11, 2)))`. */
  function SlotHour(s: Slot): string {
    Util.GetCST(ParseInt(Substr(s.dtTxt, 11, 2)))
  }

  // ---------------------------------------------------------------------
  // constructor: the request URL
  // ---------------------------------------------------------------------

  /** An own property of the configured `location` object. */
  datatype Param = Param(name: string, value: string)

  /** The `locationParams` the constructor accumulates: every
      `name=value`, one after the other, with no separator between them. */
  function LocationParams(location: seq<Param>): string {
    if location == [] then []
    else
      var p := location[|location| - 1];
      LocationParams(location[..|location| - 1]) + p.name + "=" + p.value
  }

  const ForecastEndpoint := "https://api.openweathermap.org/data/2.5/forecast?"

  /** The constructor's URL: its `for...in` loop appends each own
      property, then the units and the API key follow. */
  method RequestUrl(location: seq<Param>, key: string) returns (url: string)
    ensures url == ForecastEndpoint + LocationParams(location) + "&units=metric&APPID=" + key
  {
    var locationParams := "";
    for i := 0 to |location|
      invariant locationParams == LocationParams(location[..i])
    {
      assert location[..i + 1][..i] == location[..i];
      locationParams := locationParams + location[i].name + "=" + location[i].value;
    }
    assert location[..|location|] == location;
    url := ForecastEndpoint + locationParams + "&units=metric&APPID=" + key;
  }

  /** No `&` is put between the location parameters: the joined text holds
      an `&` only when a name or a value does. */
  lemma {:induction false} LocationParamsHaveNoSeparator(location: seq<Param>)
    ensures '&' in LocationParams(location) <==>
              exists i :: 0 <= i < |location| && ('&' in location[i].name || '&' in location[i].value)
  {
    if location != [] {
      var init, p := location[..|location| - 1], location[|location| - 1];
      LocationParamsHaveNoSeparator(init);
      var s := LocationParams(init) + p.name + "=" + p.value;
      assert s == LocationParams(init) + p.name + ("=" + p.value);
      assert '&' in s <==> '&' in LocationParams(init) || '&' in p.name || '&' in p.value;
      if '&' in LocationParams(init) {
        var i :| 0 <= i < |init| && ('&' in init[i].name || '&' in init[i].value);
        assert location[i] == init[i];
      }
      if exists i :: 0 <= i < |location| && ('&' in location[i].name || '&' in location[i].value) {
        var i :| 0 <= i < |location| && ('&' in location[i].name || '&' in location[i].value);
        if i < |init| {
          assert init[i] == location[i];
        }
      }
    }
  }

  // ---------------------------------------------------------------------
  // getBeaufort
  // ---------------------------------------------------------------------

  /** The upper limits, in m/s, of Beaufort forces 0 to 11. */
  const BeaufortLimits: seq<real> := [0.5, 1.6, 3.4, 5.6, 8.0, 10.8, 13.9, 17.2, 20.8, 24.5, 28.5, 32.7]

  function BeaufortDescription(b: nat): string {
    if b == 0 then "\"calm\""
    else if b == 1 then "\"light air\""
    else if b == 2 then "a \"light breeze\""
    else if b == 3 then "a \"gentle breeze\""
    else if b == 4 then "a \"moderate breeze\""
    else if b == 5 then "a \"fresh breeze\""
    else if b == 6 then "a \"strong breeze\""
    else if b == 7 then "a \"near gale\""
    else if b == 8 then "a \"gale\""
    else if b == 9 then "a \"strong gale\""
    else if b == 10 then "a storm"
    else if b == 11 then "a \"violent storm\""
    else "a \"hurricane force\""
  }

  function BeaufortFact(b: nat): string {
    if b == 0 then "Smoke rises vertically."
    else if b == 1 then "Wind direction is shown by smoke drift but not by wind vanes."
    else if b == 2 then "Wind is felt on the face and leaves rustle."
    else if b == 3 then "Leaves and small twigs are moved. Light flags are extended."
    else if b == 4 then "Dust and loose paper are raised. Small branches are moved."
    else if b == 5 then "Small trees are swayed. Crested wavelets form on inland waters."
    else if b == 6 then "Large branches are moved. Umbrellas are used with difficulty."
    else if b == 7 then "Whole trees are moved. There is resistance when walking against the wind."
    else if b == 8 then "Twigs are broken off trees. The wind impedes progress."
    else if b == 9 then "Slight structural damage is caused (chimney pots and slates removed)."
    else if b == 10 then "Trees are uprooted. There is considerable structural damage."
    else if b == 11 then "A very rarely experienced event accompanied by widespread damage."
    else "Causes devastation."
  }

  /** The band of `getBeaufort`'s chain of strict `<` tests: the force `b`
      is the one whose limits enclose the speed. */
  function BeaufortForce(speed: real): (b: nat)
    ensures b <= 12
    ensures b > 0 ==> BeaufortLimits[b - 1] <= speed
    ensures b < 12 ==> speed < BeaufortLimits[b]
  {
    if speed < 0.5 then 0
    else if speed < 1.6 then 1
    else if speed < 3.4 then 2
    else if speed < 5.6 then 3
    else if speed < 8.0 then 4
    else if speed < 10.8 then 5
    else if speed < 13.9 then 6
    else if speed < 17.2 then 7
    else if speed < 20.8 then 8
    else if speed < 24.5 then 9
    else if speed < 28.5 then 10
    else if speed < 32.7 then 11
    else 12
  }

  /** Exactly one band holds a given speed. */
  lemma BeaufortBandUnique(speed: real, b: nat)
    requires b <= 12
    requires b > 0 ==> BeaufortLimits[b - 1] <= speed
    requires b < 12 ==> speed < BeaufortLimits[b]
    ensures b == BeaufortForce(speed)
  {
    var f := BeaufortForce(speed);
    if b < f {
      LimitsIncrease(b, f - 1);
    } else if f < b {
      LimitsIncrease(f, b - 1);
    }
  }

  lemma LimitsIncrease(i: nat, j: nat)
    requires i <= j < 12
    ensures BeaufortLimits[i] <= BeaufortLimits[j]
  {
  }

  /** A stronger wind never gets a lower force. */
  lemma BeaufortMonotone(s1: real, s2: real)
    requires s1 <= s2
    ensures BeaufortForce(s1) <= BeaufortForce(s2)
  {
    var b1, b2 := BeaufortForce(s1), BeaufortForce(s2);
    if b2 < b1 {
      LimitsIncrease(b2, b1 - 1);
    }
  }

  /** `getBeaufort(windSpeed)`: the speed as given, its description and its fact. */
  function Beaufort(speed: WindSpeed): string {
    var b := BeaufortForce(speed.value);
    "A " + speed.text + "m/s wind is " + BeaufortDescription(b) + " on the beaufort scale. " + BeaufortFact(b)
  }

  /** A speed in the band of force `b` is reported with that band's
      description and fact, after the speed text as given. */
  lemma BeaufortText(speed: WindSpeed, b: nat)
    requires b <= 12
    requires b > 0 ==> BeaufortLimits[b - 1] <= speed.value
    requires b < 12 ==> speed.value < BeaufortLimits[b]
    ensures Beaufort(speed) ==
              "A " + speed.text + "m/s wind is " + BeaufortDescription(b) + " on the beaufort scale. " + BeaufortFact(b)
  {
    BeaufortBandUnique(speed.value, b);
  }

  // ---------------------------------------------------------------------
  // getWindDirectionAsCardinal
  // ---------------------------------------------------------------------

  /** The arrows for `Math.round(azimuth / 45)` = 0..7; each arrow points
      the way the wind blows. */
  const CardinalGlyphs: seq<string> := [
    "\U{2B07}\U{FE0F}", "\U{2199}\U{FE0F}", "\U{2B05}\U{FE0F}", "\U{2196}\U{FE0F}",
    "\U{2B06}\U{FE0F}", "\U{2197}\U{FE0F}", "\U{27A1}\U{FE0F}", "\U{2198}\U{FE0F}"]

  /** `getWindDirectionAsCardinal(azimuth)`: the `switch` has cases 0 to 7
      and no default, so any other rounded value returns `undefined`
      (`None`), including 8 for azimuths from 337.5 up to 360. */
  function WindDirectionAsCardinal(azimuth: real): (r: Option<string>)
    ensures r.Some? <==> -22.5 <= azimuth < 337.5
    ensures r.Some? ==> r.value in CardinalGlyphs
  {
    var k := Round(azimuth / 45.0);
    if 0 <= k < 8 then Some(CardinalGlyphs[k]) else None
  }

  /** Each arrow covers 45 degrees centred on a multiple of 45. */
  lemma CardinalSector(azimuth: real, k: nat)
    requires k < 8
    requires (k as real) * 45.0 - 22.5 <= azimuth < (k as real) * 45.0 + 22.5
    ensures WindDirectionAsCardinal(azimuth) == Some(CardinalGlyphs[k])
  {
    assert k as real - 0.5 <= azimuth / 45.0 < k as real + 0.5;
  }

  /** North, east, south and west winds, and the sector the switch misses. */
  lemma CardinalPoints()
    ensures WindDirectionAsCardinal(0.0) == Some("\U{2B07}\U{FE0F}")
    ensures WindDirectionAsCardinal(90.0) == Some("\U{2B05}\U{FE0F}")
    ensures WindDirectionAsCardinal(180.0) == Some("\U{2B06}\U{FE0F}")
    ensures WindDirectionAsCardinal(270.0) == Some("\U{27A1}\U{FE0F}")
    ensures WindDirectionAsCardinal(337.5) == None && WindDirectionAsCardinal(359.0) == None
  {
    CardinalSector(0.0, 0);
    CardinalSector(90.0, 2);
    CardinalSector(180.0, 4);
    CardinalSector(270.0, 6);
  }

  // ---------------------------------------------------------------------
  // getForecast
  // ---------------------------------------------------------------------

  /** The `conditions` object built for one slot, as `validateNotNull`
      walks it. */
  function ConditionsObject(symbol: string, max: int, min: int, time: string, direction: Option<string>, speed: string): Util.JsValue {
    Util.Obj([
      Util.Member("symbol", Util.Str(symbol)),
      Util.Member("temp", Util.Obj([Util.Member("max", Util.Num(max as real)), Util.Member("min", Util.Num(min as real))])),
      Util.Member("time", Util.Str(time)),
      Util.Member("wind", Util.Obj([
        Util.Member("direction", if direction.Some? then Util.Str(direction.value) else Util.Undefined),
        Util.Member("speed", Util.Str(speed))]))])
  }

  /** `getForecast` calls `validateNotNull(conditions)` with no path, so the
      path prints as "undefined". */
  const DirectionUndefined := Util.UndefinedMessage("undefined.wind", "direction")

  /** Only the wind direction of a `conditions` object can be `undefined`. */
  lemma ConditionsValidation(symbol: string, max: int, min: int, time: string, direction: Option<string>, speed: string)
    ensures Util.ValidateNotNull(ConditionsObject(symbol, max, min, time, direction, speed), "undefined")
            == if direction.Some? then Pass else Fail(DirectionUndefined)
  {
    var v := ConditionsObject(symbol, max, min, time, direction, speed);
    var temp, wind := v.members[1].value, v.members[3].value;
    var tempPath, windPath := Util.ChildPath("undefined", "temp"), Util.ChildPath("undefined", "wind");
    assert windPath == "undefined.wind";
    assert Util.ValidateFrom(temp, 2, tempPath) == Pass;
    assert Util.ValidateFrom(temp, 1, tempPath) == Pass;
    assert Util.ValidateFrom(temp, 0, tempPath) == Pass;
    assert Util.ValidateFrom(wind, 2, windPath) == Pass;
    assert Util.ValidateFrom(wind, 1, windPath) == Pass;
    assert Util.ValidateFrom(v, 4, "undefined") == Pass;
    if direction.Some? {
      assert Util.ValidateFrom(wind, 0, windPath) == Pass;
      assert Util.ValidateFrom(v, 3, "undefined") == Pass;
    } else {
      assert Util.UndefinedMessage(windPath, "direction") == DirectionUndefined;
      assert Util.ValidateFrom(wind, 0, windPath) == Fail(DirectionUndefined);
      assert Util.ValidateFrom(v, 3, "undefined") == Fail(DirectionUndefined);
    }
    assert Util.ValidateFrom(v, 2, "undefined") == Util.ValidateFrom(v, 3, "undefined");
    assert Util.ValidateFrom(v, 1, "undefined") == Util.ValidateFrom(v, 3, "undefined");
  }

  const MissingWeatherError := PropertyReadError("undefined", "id")
  const UnknownConditionError := PropertyReadError("undefined", "symbol")

  predicate KnownCondition(slot: Slot, symbols: map<int, string>) {
    |slot.conditionIds| > 0 && slot.conditionIds[0] in symbols
  }

  /** A slot whose line can be written: its condition is known and its
      azimuth rounds to one of the eight arrows. */
  predicate Formats(slot: Slot, symbols: map<int, string>) {
    KnownCondition(slot, symbols) && -22.5 <= slot.windDeg < 337.5
  }

  /** The `conditions` object `getForecast` builds for a slot whose
      condition is known, as `validateNotNull` walks it. */
  function ConditionsValue(slot: Slot, symbols: map<int, string>): Util.JsValue
    requires KnownCondition(slot, symbols)
  {
    ConditionsObject(symbols[slot.conditionIds[0]], Round(slot.tempMax), Round(slot.tempMin), SlotHour(slot),
                     WindDirectionAsCardinal(slot.windDeg), slot.windSpeed.text)
  }

  /** A `conditions` object that `validateNotNull` has let through: every
      member is defined, the direction included. */
  datatype Conditions = Conditions(symbol: string, max: int, min: int, time: string, direction: string, speed: string)

  /** The body of the `for...of` loop up to `validateNotNull(conditions)`:
      the conditions of a slot, or what is thrown on the way to them. A
      missing direction is what `validateNotNull` rejects (see
      `SlotConditionsValidate`). */
  function SlotConditions(slot: Slot, symbols: map<int, string>): (r: Result<Conditions>)
    ensures r.Success? <==> Formats(slot, symbols)
  {
    if |slot.conditionIds| == 0 then Failure(MissingWeatherError)
    else if slot.conditionIds[0] !in symbols then Failure(UnknownConditionError)
    else
      match WindDirectionAsCardinal(slot.windDeg)
      case None => Failure(DirectionUndefined)
      case Some(direction) =>
        Success(Conditions(symbols[slot.conditionIds[0]], Round(slot.tempMax), Round(slot.tempMin), SlotHour(slot),
                           direction, slot.windSpeed.text))
  }

  /** The line of one slot: `HH:00:{symbol}, [{min},{max}]°C, 💨 {speed} m/s {direction}`. */
  function ConditionsLine(c: Conditions): string {
    c.time + ":00:" + c.symbol + ", [" + IntToString(c.min) + "," + IntToString(c.max) + "]\U{B0}C, \U{1F4A8} "
    + c.speed + " m/s " + c.direction
  }

  /** A line starts with the local hour, ":00:" and the symbol, and ends
      with the wind speed in m/s and the direction arrow. */
  lemma ConditionsLineLayout(c: Conditions)
    ensures c.time + ":00:" + c.symbol + ", [" <= ConditionsLine(c)
    ensures var line, tail := ConditionsLine(c), " m/s " + c.direction;
            |tail| <= |line| && line[|line| - |tail|..] == tail
  {
    var head := c.time + ":00:" + c.symbol + ", [";
    var mid := IntToString(c.min) + "," + IntToString(c.max) + "]\U{B0}C, \U{1F4A8} " + c.speed;
    var tail := " m/s " + c.direction;
    assert ConditionsLine(c) == head + (mid + tail);
    assert ConditionsLine(c) == (head + mid) + tail;
  }

  /** For a slot with a known condition, building its conditions throws
      exactly what `validateNotNull(conditions)` throws; otherwise they are
      the object that was validated. */
  lemma SlotConditionsValidate(slot: Slot, symbols: map<int, string>)
    requires KnownCondition(slot, symbols)
    ensures SlotConditions(slot, symbols).Failure? <==> Util.ValidateNotNull(ConditionsValue(slot, symbols), "undefined").Fail?
    ensures SlotConditions(slot, symbols).Failure? ==>
              SlotConditions(slot, symbols).error == Util.ValidateNotNull(ConditionsValue(slot, symbols), "undefined").error
    ensures SlotConditions(slot, symbols).Success? ==>
              var c := SlotConditions(slot, symbols).value;
              ConditionsValue(slot, symbols) == ConditionsObject(c.symbol, c.max, c.min, c.time, Some(c.direction), c.speed)
  {
    ConditionsValidation(symbols[slot.conditionIds[0]], Round(slot.tempMax), Round(slot.tempMin), SlotHour(slot),
                         WindDirectionAsCardinal(slot.windDeg), slot.windSpeed.text);
  }

  /** A known condition id with an azimuth of 337.5 or more throws the
      direction error (an azimuth below -22.5 would too). */
  lemma SlotConditionsOutcome(slot: Slot, symbols: map<int, string>)
    ensures KnownCondition(slot, symbols) && slot.windDeg >= 337.5 ==>
              SlotConditions(slot, symbols) == Failure(DirectionUndefined)
  {
  }

  /** `"\n" + line` for each slot in order, stopping at the first slot that throws. */
  function ForecastLines(slots: seq<Slot>, symbols: map<int, string>): Result<string> {
    if slots == [] then Success("")
    else
      match ForecastLines(slots[..|slots| - 1], symbols)
      case Failure(e) => Failure(e)
      case Success(body) =>
        match SlotConditions(slots[|slots| - 1], symbols)
        case Failure(e) => Failure(e)
        case Success(c) => Success(body + "\n" + ConditionsLine(c))
  }

  const FourcastOdds := 0.000228310502

  /** "Forecast", or "Fourcast" when the draw is not above 0.000228310502. */
  function Header(draw: real): (r: string)
    ensures r == "Forecast" || r == "Fourcast"
    ensures r == "Forecast" <==> draw > FourcastOdds
  {
    if draw > FourcastOdds then "Forecast" else "Fourcast"
  }

  const ListTypeError := PropertyReadError("undefined", "slice")

  /** What `getForecast` returns or throws: the header, a line for each of
      the first three slots, and a blank line. */
  function Forecast(data: Payload, symbols: map<int, string>, draw: real): Result<string> {
    match data
    case NotAnObject => Failure(ListTypeError)
    case WeatherData(list) =>
      match ForecastLines(FirstThree(list), symbols)
      case Failure(e) => Failure(e)
      case Success(body) => Success(Header(draw) + body + "\n\n")
  }

  lemma {:induction false} ForecastLinesFailurePersists(slots: seq<Slot>, symbols: map<int, string>, i: nat)
    requires i <= |slots| && ForecastLines(slots[..i], symbols).Failure?
    ensures ForecastLines(slots, symbols) == ForecastLines(slots[..i], symbols)
    decreases |slots| - i
  {
    if i < |slots| {
      assert slots[..i + 1][..i] == slots[..i];
      ForecastLinesFailurePersists(slots, symbols, i + 1);
    } else {
      assert slots[..i] == slots;
    }
  }

  lemma ForecastLinesStep(slots: seq<Slot>, symbols: map<int, string>, i: nat)
    requires i < |slots| && ForecastLines(slots[..i], symbols).Success? && SlotConditions(slots[i], symbols).Success?
    ensures ForecastLines(slots[..i + 1], symbols) ==
              Success(ForecastLines(slots[..i], symbols).value + ("\n" + ConditionsLine(SlotConditions(slots[i], symbols).value)))
  {
    assert slots[..i + 1][..i] == slots[..i];
    AppendAssoc(ForecastLines(slots[..i], symbols).value, "\n", ConditionsLine(SlotConditions(slots[i], symbols).value));
  }

  /** `getForecast`: for each of the first three slots the loop builds and
      validates the conditions, then appends a newline and the slot's
      line; the closing blank line follows. */
  method GetForecast(data: Payload, symbols: map<int, string>, draw: real) returns (r: Result<string>)
    ensures r == Forecast(data, symbols, draw)
  {
    if data.NotAnObject? {
      return Failure(ListTypeError);
    }
    var forecastData := FirstThree(data.list);
    var header := Header(draw);
    var defaultForecast := header;
    for i := 0 to |forecastData|
      invariant ForecastLines(forecastData[..i], symbols).Success?
      invariant defaultForecast == header + ForecastLines(forecastData[..i], symbols).value
    {
      var conditions := SlotConditions(forecastData[i], symbols);
      if conditions.Failure? {
        assert forecastData[..i + 1][..i] == forecastData[..i];
        ForecastLinesFailurePersists(forecastData, symbols, i + 1);
        return Failure(conditions.error);
      }
      var line := ConditionsLine(conditions.value);
      var body := ForecastLines(forecastData[..i], symbols).value;
      ForecastLinesStep(forecastData, symbols, i);
      AppendAssoc(header, body, "\n");
      AppendAssoc(header + body, "\n", line);
      AppendAssoc(header, body, "\n" + line);
      defaultForecast := defaultForecast + "\n";
      defaultForecast := defaultForecast + line;
    }
    assert forecastData[..|forecastData|] == forecastData;
    defaultForecast := defaultForecast + "\n\n";
    r := Success(defaultForecast);
  }

  /** Every slot's conditions are built. */
  predicate AllFormat(slots: seq<Slot>, symbols: map<int, string>) {
    forall i :: 0 <= i < |slots| ==> Formats(slots[i], symbols)
  }

  /** `f` applied to each element of `s`, in order. */
  function Map<A, B>(f: A --> B, s: seq<A>): (r: seq<B>)
    requires forall i :: 0 <= i < |s| ==> f.requires(s[i])
    ensures |r| == |s|
  {
    if s == [] then [] else Map(f, s[..|s| - 1]) + [f(s[|s| - 1])]
  }

  lemma {:induction false} MapAt<A, B>(f: A --> B, s: seq<A>, i: nat)
    requires forall i :: 0 <= i < |s| ==> f.requires(s[i])
    requires i < |s|
    ensures Map(f, s)[i] == f(s[i])
  {
    var init := s[..|s| - 1];
    if i < |init| {
      assert init[i] == s[i];
      MapAt(f, init, i);
    }
  }

  lemma MapSnoc<A, B>(f: A --> B, s: seq<A>, x: A)
    requires forall i :: 0 <= i < |s| ==> f.requires(s[i])
    requires f.requires(x)
    ensures Map(f, s + [x]) == Map(f, s) + [f(x)]
  {
    assert (s + [x])[..|s|] == s;
  }

  /** The conditions of slots that all format, in order. */
  function AllConditions(slots: seq<Slot>, symbols: map<int, string>): (cs: seq<Conditions>)
    requires AllFormat(slots, symbols)
    ensures |cs| == |slots|
  {
    Map(slot requires Formats(slot, symbols) => SlotConditions(slot, symbols).value, slots)
  }

  /** Entry `i` of the conditions of slots that all format is the
      conditions of slot `i`. */
  lemma AllConditionsAt(slots: seq<Slot>, symbols: map<int, string>, i: nat)
    requires AllFormat(slots, symbols) && i < |slots|
    ensures AllConditions(slots, symbols)[i] == SlotConditions(slots[i], symbols).value
  {
    MapAt(slot requires Formats(slot, symbols) => SlotConditions(slot, symbols).value, slots, i);
  }

  /** The lines of slots that all format, in order. */
  function FormattedLines(slots: seq<Slot>, symbols: map<int, string>): (lines: seq<string>)
    requires AllFormat(slots, symbols)
    ensures |lines| == |slots|
  {
    Map(ConditionsLine, AllConditions(slots, symbols))
  }

  /** Line `i` of slots that all format is the line of slot `i`. */
  lemma FormattedLinesAt(slots: seq<Slot>, symbols: map<int, string>, i: nat)
    requires AllFormat(slots, symbols) && i < |slots|
    ensures FormattedLines(slots, symbols)[i] == ConditionsLine(SlotConditions(slots[i], symbols).value)
  {
    AllConditionsAt(slots, symbols, i);
    MapAt(ConditionsLine, AllConditions(slots, symbols), i);
  }

  /** All slots format exactly when all but the last do and the last does. */
  lemma AllFormatStep(slots: seq<Slot>, symbols: map<int, string>)
    requires slots != []
    ensures AllFormat(slots, symbols) <==>
              AllFormat(slots[..|slots| - 1], symbols) && Formats(slots[|slots| - 1], symbols)
  {
    var init := slots[..|slots| - 1];
    assert forall k :: 0 <= k < |init| ==> init[k] == slots[k];
    if AllFormat(init, symbols) && Formats(slots[|slots| - 1], symbols) {
      forall k | 0 <= k < |slots|
        ensures Formats(slots[k], symbols)
      {
        if k < |init| {
          assert slots[k] == init[k];
        }
      }
    }
  }

  /** The lines of slots that all format: those of all but the last, then
      the last one's. */
  lemma FormattedLinesStep(slots: seq<Slot>, symbols: map<int, string>)
    requires slots != [] && AllFormat(slots, symbols)
    ensures AllFormat(slots[..|slots| - 1], symbols)
    ensures FormattedLines(slots, symbols) ==
              FormattedLines(slots[..|slots| - 1], symbols) + [ConditionsLine(SlotConditions(slots[|slots| - 1], symbols).value)]
  {
    var init, last := slots[..|slots| - 1], slots[|slots| - 1];
    AllFormatStep(slots, symbols);
    MapSnoc(ConditionsLine, AllConditions(init, symbols), SlotConditions(last, symbols).value);
  }

  /** The forecast body succeeds exactly when every slot formats, and is
      then those lines, each after a newline. */
  lemma {:induction false} ForecastLinesMeaning(slots: seq<Slot>, symbols: map<int, string>)
    ensures ForecastLines(slots, symbols).Success? <==> AllFormat(slots, symbols)
    ensures AllFormat(slots, symbols) ==>
              ForecastLines(slots, symbols).value == PrefixJoin(FormattedLines(slots, symbols))
  {
    if slots != [] {
      var init, last := slots[..|slots| - 1], slots[|slots| - 1];
      ForecastLinesMeaning(init, symbols);
      if AllFormat(slots, symbols) {
        FormattedLinesStep(slots, symbols);
        var lines := FormattedLines(slots, symbols);
        assert lines[..|lines| - 1] == FormattedLines(init, symbols);
      }
      AllFormatStep(slots, symbols);
    }
  }

  /** When the forecast body throws, it throws what the first slot that
      does not format throws. */
  lemma {:induction false} ForecastLinesFirstFailure(slots: seq<Slot>, symbols: map<int, string>)
    requires ForecastLines(slots, symbols).Failure?
    ensures exists i :: 0 <= i < |slots| && AllFormat(slots[..i], symbols) &&
                        SlotConditions(slots[i], symbols) == Failure(ForecastLines(slots, symbols).error)
  {
    var init := slots[..|slots| - 1];
    if ForecastLines(init, symbols).Failure? {
      ForecastLinesFirstFailure(init, symbols);
      var i :| 0 <= i < |init| && AllFormat(init[..i], symbols) &&
               SlotConditions(init[i], symbols) == Failure(ForecastLines(init, symbols).error);
      assert init[..i] == slots[..i];
    } else {
      ForecastLinesMeaning(init, symbols);
      assert slots[..|slots| - 1] == init;
    }
  }

  /** `getForecast` returns "Forecast" or "Fourcast", one line per slot for
      the first min(3, n) slots, and a blank line; it throws exactly when
      one of those slots does not format (or the data is no object). */
  lemma ForecastLayout(data: Payload, symbols: map<int, string>, draw: real)
    ensures Forecast(data, symbols, draw).Success? <==>
              data.WeatherData? && AllFormat(FirstThree(data.list), symbols)
    ensures Forecast(data, symbols, draw).Success? ==>
              Forecast(data, symbols, draw).value ==
                Header(draw) + PrefixJoin(FormattedLines(FirstThree(data.list), symbols)) + "\n\n"
  {
    if data.WeatherData? {
      ForecastLinesMeaning(FirstThree(data.list), symbols);
    }
  }

  /** A wind from 337.5 degrees or more in one of the first three slots,
      all of whose condition ids are known, aborts the forecast. */
  lemma NorthWindAbortsForecast(list: seq<Slot>, symbols: map<int, string>, draw: real, k: nat)
    requires k < |list| && k < 3 && list[k].windDeg >= 337.5
    requires KnownCondition(list[k], symbols)
    ensures Forecast(WeatherData(list), symbols, draw).Failure?
  {
    assert FirstThree(list)[k] == list[k];
    ForecastLayout(WeatherData(list), symbols, draw);
  }

  // ---------------------------------------------------------------------
  // getExtraStat
  // ---------------------------------------------------------------------

  /** A JavaScript truthiness test on `rain['3h']` or `snow['3h']`. */
  predicate Truthy(a: Option<Amount>) {
    a.Some? && a.value.value != 0.0
  }

  predicate HasPrecipitation(s: Slot) {
    Truthy(s.rain) || Truthy(s.snow)
  }

  /** `precipitationStats.reduce((acc, elem) => acc || elem.rain || elem.snow, 0)`
      taken as a condition. */
  function AnyPrecipitation(slots: seq<Slot>): (b: bool)
    ensures b <==> exists i :: 0 <= i < |slots| && HasPrecipitation(slots[i])
  {
    if slots == [] then false
    else
      var init := slots[..|slots| - 1];
      assert forall i :: 0 <= i < |init| ==> init[i] == slots[i];
      AnyPrecipitation(init) || HasPrecipitation(slots[|slots| - 1])
  }

  /** The precipitation line of a slot: empty when neither rain nor snow is
      truthy, otherwise the time, the rain part, the snow part (or a full
      stop) and a newline. */
  function PrecipitationLine(s: Slot): (line: string)
    ensures line == [] <==> !HasPrecipitation(s)
    ensures line != [] ==> line[|line| - 1] == '\n'
  {
    if HasPrecipitation(s) then
      SlotHour(s) + ":00:"
      + (if Truthy(s.rain) then s.rain.value.text + "mm/h rain" else "")
      + (if Truthy(s.snow) then ", " + s.snow.value.text + "mm/h snow." else ".")
      + "\n"
    else ""
  }

  const PrecipitationTitle := "Expected Precipitation:"
  const PStatTypeError := PropertyReadError("undefined", "rain")

  /** The first `n` turns of the `for (i = 0; i < 3; i++)` loop: a turn past
      the end of the slots reads `rain` of `undefined` and throws. */
  function PrecipitationLoop(slots: seq<Slot>, n: nat): (r: Result<string>)
    requires n <= 3
    ensures r.Failure? <==> n > |slots|
    ensures r.Failure? ==> r.error == PStatTypeError
  {
    if n == 0 then Success("")
    else
      match PrecipitationLoop(slots, n - 1)
      case Failure(e) => Failure(e)
      case Success(text) =>
        if n - 1 < |slots| then Success(text + PrecipitationLine(slots[n - 1]))
        else Failure(PStatTypeError)
  }

  function PrecipitationReport(slots: seq<Slot>): Result<string> {
    match PrecipitationLoop(slots, 3)
    case Failure(e) => Failure(e)
    case Success(text) => Success(DropLast(PrecipitationTitle + "\n" + text))
  }

  const FallbackStats: seq<string> := ["pressure", "humidity", "cloudiness"]

  function StatTitle(stat: string): string
    requires stat in FallbackStats
  {
    if stat == "pressure" then "Expected Pressure:"
    else if stat == "humidity" then "Expected Humidity:"
    else "Expected Cloud Coverage:"
  }

  function StatLine(stat: string, s: Slot): string
    requires stat in FallbackStats
  {
    SlotHour(s) + ":00: "
    + (if stat == "pressure" then s.groundPressure + "hPa"
       else if stat == "humidity" then s.humidity + "%"
       else s.cloudiness + "%")
  }

  /** One line per slot, in order. */
  function StatLines(stat: string, slots: seq<Slot>): (lines: seq<string>)
    requires stat in FallbackStats
    ensures |lines| == |slots|
    ensures forall i :: 0 <= i < |slots| ==> lines[i] == StatLine(stat, slots[i])
  {
    if slots == [] then []
    else StatLines(stat, slots[..|slots| - 1]) + [StatLine(stat, slots[|slots| - 1])]
  }

  /** The `switch (stat)`: a title, a line ending in a newline per slot, the
      last newline dropped; any other name throws. */
  function StatReport(stat: string, slots: seq<Slot>): Result<string> {
    if stat in FallbackStats then Success(DropLast(StatTitle(stat) + "\n" + SuffixJoin(StatLines(stat, slots))))
    else Failure("Could not get extra stat \"" + stat + "\"")
  }

  /** `getExtraStat(stat, forecastData)`: the precipitation report when
      precipitation is asked for and some slot has it, a statistic drawn from
      `FallbackStats` when it is asked for and none has it, the named
      statistic otherwise. */
  function ExtraStat(stat: string, slots: seq<Slot>, fallbackDraw: real): Result<string>
    requires Util.IsDraw(fallbackDraw)
  {
    if stat == "precipitation" && AnyPrecipitation(slots) then PrecipitationReport(slots)
    else
      var chosen := if stat == "precipitation" then Util.PickRandom(FallbackStats, fallbackDraw).value else stat;
      StatReport(chosen, slots)
  }

  lemma StatLinesStep(stat: string, slots: seq<Slot>, i: nat)
    requires stat in FallbackStats && i < |slots|
    ensures SuffixJoin(StatLines(stat, slots[..i + 1])) == SuffixJoin(StatLines(stat, slots[..i])) + (StatLine(stat, slots[i]) + "\n")
  {
    var lines := StatLines(stat, slots[..i + 1]);
    assert slots[..i + 1][..i] == slots[..i];
    assert lines[..|lines| - 1] == StatLines(stat, slots[..i]);
    AppendAssoc(SuffixJoin(StatLines(stat, slots[..i])), StatLine(stat, slots[i]), "\n");
  }

  /** The three `forEach` loops of the `switch`, sharing one body. */
  method BuildStatReport(stat: string, forecastData: seq<Slot>) returns (r: Result<string>)
    ensures r == StatReport(stat, forecastData)
  {
    if stat !in FallbackStats {
      return Failure("Could not get extra stat \"" + stat + "\"");
    }
    var title := StatTitle(stat) + "\n";
    var report := title;
    for i := 0 to |forecastData|
      invariant report == title + SuffixJoin(StatLines(stat, forecastData[..i]))
    {
      var line := StatLine(stat, forecastData[i]);
      var joined := SuffixJoin(StatLines(stat, forecastData[..i]));
      StatLinesStep(stat, forecastData, i);
      AppendAssoc(title, joined, line + "\n");
      report := report + (line + "\n");
    }
    assert forecastData[..|forecastData|] == forecastData;
    r := Success(DropLast(report));
  }

  /** `getExtraStat`, with its precipitation loop and the loops of the switch. */
  method BuildExtraStat(stat: string, forecastData: seq<Slot>, fallbackDraw: real) returns (r: Result<string>)
    requires Util.IsDraw(fallbackDraw)
    ensures r == ExtraStat(stat, forecastData, fallbackDraw)
  {
    var chosen := stat;
    if stat == "precipitation" {
      if AnyPrecipitation(forecastData) {
        var title := PrecipitationTitle + "\n";
        var precipitation := title;
        for i := 0 to 3
          invariant PrecipitationLoop(forecastData, i).Success?
          invariant precipitation == title + PrecipitationLoop(forecastData, i).value
        {
          if i >= |forecastData| {
            return Failure(PStatTypeError);
          }
          AppendAssoc(title, PrecipitationLoop(forecastData, i).value, PrecipitationLine(forecastData[i]));
          precipitation := precipitation + PrecipitationLine(forecastData[i]);
        }
        return Success(DropLast(precipitation));
      }
      chosen := Util.PickRandom(FallbackStats, fallbackDraw).value;
    }
    r := BuildStatReport(chosen, forecastData);
  }

  /** A statistic report is its title followed by one line per slot, each
      after a newline, with no trailing newline. */
  lemma StatReportLayout(stat: string, slots: seq<Slot>)
    requires stat in FallbackStats
    ensures StatReport(stat, slots) == Success(StatTitle(stat) + PrefixJoin(StatLines(stat, slots)))
  {
    SuffixJoinThenDropLast(StatTitle(stat), StatLines(stat, slots));
  }

  /** `getExtraStat` throws exactly for an unknown statistic name, or for
      precipitation with fewer than three slots when one of them has some. */
  lemma ExtraStatThrowsIff(stat: string, slots: seq<Slot>, fallbackDraw: real)
    requires Util.IsDraw(fallbackDraw)
    ensures ExtraStat(stat, slots, fallbackDraw).Failure? <==>
              (stat != "precipitation" && stat !in FallbackStats) ||
              (stat == "precipitation" && AnyPrecipitation(slots) && |slots| < 3)
  {
  }

  /** Without rain or snow, asking for precipitation yields the pressure,
      humidity or cloudiness report instead. */
  lemma PrecipitationFallback(slots: seq<Slot>, fallbackDraw: real)
    requires Util.IsDraw(fallbackDraw) && !AnyPrecipitation(slots)
    ensures ExtraStat("precipitation", slots, fallbackDraw).Success?
    ensures ExtraStat("precipitation", slots, fallbackDraw) in
              {StatReport("pressure", slots), StatReport("humidity", slots), StatReport("cloudiness", slots)}
  {
    var chosen := Util.PickRandom(FallbackStats, fallbackDraw).value;
    assert chosen in FallbackStats;
  }

  /** With three slots and some precipitation, the report is the title and
      the lines of the slots that have rain or snow, without the final
      newline. */
  lemma PrecipitationReportLayout(slots: seq<Slot>)
    requires |slots| == 3 && AnyPrecipitation(slots)
    ensures PrecipitationReport(slots).Success?
    ensures PrecipitationReport(slots).value + "\n" ==
              PrecipitationTitle + "\n" + (PrecipitationLine(slots[0]) + PrecipitationLine(slots[1]) + PrecipitationLine(slots[2]))
  {
    var l0, l1, l2 := PrecipitationLine(slots[0]), PrecipitationLine(slots[1]), PrecipitationLine(slots[2]);
    var text := l0 + l1 + l2;
    assert PrecipitationLoop(slots, 1) == Success(l0) by {
      assert "" + l0 == l0;
    }
    assert PrecipitationLoop(slots, 3) == Success(text);
    var k :| 0 <= k < 3 && HasPrecipitation(slots[k]);
    if l2 != [] {
      EndsWith(l0 + l1, l2);
    } else if l1 != [] {
      assert text == l0 + l1;
      EndsWith(l0, l1);
    } else {
      assert text == l0;
    }
    EndsWith(PrecipitationTitle + "\n", text);
  }

  /** Text ending in a non-empty piece ends with that piece's last character. */
  lemma EndsWith(a: string, b: string)
    requires b != []
    ensures (a + b)[|a + b| - 1] == b[|b| - 1]
  {
  }

  // ---------------------------------------------------------------------
  // getJoke, getTutorial, getExtra
  // ---------------------------------------------------------------------

  const ConditionsTypeError := "Param currentConditions must be an Object"

  /** `getJoke(currentConditions)`: throws for `undefined`, otherwise a pick
      from the general pool. On a hot day the code calls
      `jokePool.concat(jokes.hot)` and drops the array it returns, so hot
      jokes are never drawn. */
  function Joke(conditions: Option<Slot>, pools: JokePools, draw: real): (r: Result<string>)
    requires Util.IsDraw(draw)
    ensures r.Success? <==> conditions.Some? && |pools.general| > 0
    ensures r.Success? ==> r.value in pools.general
  {
    match conditions
    case None => Failure(ConditionsTypeError)
    case Some(_) => Util.PickRandom(pools.general, draw)
  }

  /** The hot pool plays no part, however hot the day. */
  lemma HotJokesNeverDrawn(c: Slot, pools: JokePools, draw: real, hot: seq<string>)
    requires Util.IsDraw(draw) && (c.tempMin + c.tempMax) / 2.0 >= 30.0
    ensures Joke(Some(c), pools, draw) == Joke(Some(c), pools.(hot := hot), draw)
  {
  }

  /** The two fixed tutorials: 0 explains the Beaufort scale, 1 the pressure reading. */
  function FixedTutorial(id: nat): string
    requires id <= 1
  {
    if id == 0 then "The beaufort scale is a way of measuring wind speed based on observing things blown by the wind rather than using instruments."
    else "The pressure displayed is at ground level. Columbia is 758ft(231m) above sea level."
  }

  const IconTypeError := PropertyReadError("undefined", "icon")

  /** "{icon} indicates {conditions}", the first comma of the conditions read as " or". */
  function IconTutorial(d: IconDefinition): string {
    d.icon + " indicates " + ReplaceFirst(d.conditions, ',', " or")
  }

  /** Tutorial `k`: the two fixed texts, then one per icon definition. */
  function TutorialText(k: nat, icons: seq<IconDefinition>): string
    requires k < 2 + |icons|
  {
    if k <= 1 then FixedTutorial(k) else IconTutorial(icons[k - 2])
  }

  /** `getTutorial(id)`: a falsy id (absent or 0) is replaced by
      `Math.floor(draw * (2 + iconDefinitions.length))`; 0 and 1 are the two
      fixed texts, 2 and up an icon definition, anything else reads a member
      of `undefined` and throws. */
  function Tutorial(id: Option<int>, icons: seq<IconDefinition>, draw: real): (r: Result<string>)
    requires Util.IsDraw(draw)
    ensures id.None? || id.value == 0 ==> r == Success(TutorialText(Util.PickIndex(2 + |icons|, draw), icons))
    ensures id.Some? && 0 < id.value < 2 + |icons| ==> r == Success(TutorialText(id.value, icons))
    ensures id.Some? && id.value != 0 ==> (r.Success? <==> 1 <= id.value < 2 + |icons|)
  {
    var chosen := if id.None? || id.value == 0 then Util.PickIndex(2 + |icons|, draw) else id.value;
    if 0 <= chosen < 2 + |icons| then Success(TutorialText(chosen, icons))
    else Failure(IconTypeError)
  }

  /** Only the first comma becomes " or". */
  lemma IconTutorialFirstCommaOnly(icon: string, before: string, after: string)
    requires ',' !in before
    ensures IconTutorial(IconDefinition(icon, before + "," + after)) == icon + " indicates " + (before + " or" + after)
  {
    ReplaceFirstAt(before, ',', after, " or");
  }

  /** Every icon definition can be the random tutorial. */
  lemma EveryIconTutorialReachable(icons: seq<IconDefinition>, k: nat)
    requires k < |icons|
    ensures var draw := (k + 2) as real / (|icons| + 2) as real;
            Util.IsDraw(draw) && Tutorial(None, icons, draw) == Success(IconTutorial(icons[k]))
  {
    Util.PickIndexReaches(|icons| + 2, k + 2);
  }

  /** The celestial message chosen by the event roll: 60% day/night, 20%
      lunar phase, 20% season progress. */
  function Celestial(texts: CelestialTexts, eventRoll: real): (r: string)
    ensures eventRoll < 0.6 ==> r == texts.dayNight
    ensures 0.6 <= eventRoll < 0.8 ==> r == texts.lunarPhase
    ensures 0.8 <= eventRoll ==> r == texts.seasonProgress
  {
    if eventRoll < 0.6 then texts.dayNight
    else if eventRoll < 0.8 then texts.lunarPhase
    else texts.seasonProgress
  }

  /** The statistic names `getExtra` draws from: precipitation three times out of six. */
  const StatNames: seq<string> := ["precipitation", "precipitation", "precipitation", "pressure", "humidity", "cloudiness"]

  const ObjectTypeError := "Parameter parsedWeatherData must be an object"
  const FirstSlotTypeError := PropertyReadError("undefined", "wind")

  /** `getExtra(parsedWeatherData)`: throws for a non-object, otherwise picks
      by the roll: below .01 a joke, below .1 a tutorial, below .3 a
      celestial message, below .5 the Beaufort trivia of the first slot,
      else an extra statistic of the first three slots. */
  function Extra(data: Payload, content: Content, draws: Draws): (r: Result<string>)
    requires draws.Valid()
    ensures data.NotAnObject? ==> r == Failure(ObjectTypeError)
    ensures data.WeatherData? && draws.roll < 0.01 ==>
              r == Joke(if |data.list| > 0 then Some(data.list[0]) else None, content.jokes, draws.sub)
    ensures data.WeatherData? && draws.roll < 0.01 ==>
              (r.Success? <==> |data.list| > 0 && |content.jokes.general| > 0) &&
              (r.Success? ==> r.value in content.jokes.general)
    ensures data.WeatherData? && 0.01 <= draws.roll < 0.1 ==>
              r == Success(TutorialText(Util.PickIndex(2 + |content.icons|, draws.sub), content.icons))
    ensures data.WeatherData? && 0.1 <= draws.roll < 0.3 ==> r == Success(Celestial(content.celestial, draws.sub))
    ensures data.WeatherData? && 0.3 <= draws.roll < 0.5 ==>
              r == if |data.list| > 0 then Success(Beaufort(data.list[0].windSpeed)) else Failure(FirstSlotTypeError)
    ensures data.WeatherData? && 0.5 <= draws.roll ==>
              r == ExtraStat(Util.PickRandom(StatNames, draws.sub).value, FirstThree(data.list), draws.fallback)
  {
    match data
    case NotAnObject => Failure(ObjectTypeError)
    case WeatherData(list) =>
      if draws.roll < 0.01 then Joke(if |list| > 0 then Some(list[0]) else None, content.jokes, draws.sub)
      else if draws.roll < 0.1 then Tutorial(None, content.icons, draws.sub)
      else if draws.roll < 0.3 then Success(Celestial(content.celestial, draws.sub))
      else if draws.roll < 0.5 then
        if |list| == 0 then Failure(FirstSlotTypeError) else Success(Beaufort(list[0].windSpeed))
      else ExtraStat(Util.PickRandom(StatNames, draws.sub).value, FirstThree(list), draws.fallback)
  }

  /** Half of the draws pick precipitation. */
  lemma PrecipitationIsHalfTheStats(draw: real)
    requires Util.IsDraw(draw)
    ensures Util.PickRandom(StatNames, draw).value == "precipitation" <==> draw < 0.5
  {
    Util.PickIndexBelow(6, 3, draw);
  }

  /** With at least three slots and a non-empty general joke pool,
      `getExtra` never throws. */
  lemma ExtraSucceedsOnFullData(list: seq<Slot>, content: Content, draws: Draws)
    requires draws.Valid() && |list| >= 3 && |content.jokes.general| > 0
    ensures Extra(WeatherData(list), content, draws).Success?
  {
    if draws.roll >= 0.5 {
      var stat := Util.PickRandom(StatNames, draws.sub).value;
      assert stat in StatNames;
      ExtraStatThrowsIff(stat, FirstThree(list), draws.fallback);
    }
  }
}
