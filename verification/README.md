# Columbia MO weather tweet bot, modelled in Dafny

This project models the decision logic of the Columbia, Missouri weather
bot. Every two hours the bot loads the OpenWeatherMap 5-day forecast and
builds a status of at most 280 UTF-16 code units. The status is a forecast
of the next three 3-hour slots followed by an "extra". The extra is a joke,
a tutorial, a celestial message, Beaufort-scale trivia, or a statistic such
as precipitation, pressure, humidity or cloudiness. The bot then tweets the
status.

Failed loads are retried three times within a cycle. After that, the bot
tweets a joke from the error pool instead. At start-up, the bot runs one
"late" cycle when more than 2 hours 7 minutes have passed since the last
update.

Modules, one per source file, plus two shared ones:

- `Wrappers` holds `Option`, `Result` and `Outcome`. `Result` and `Outcome`
  stand for a returned value and a thrown error.
- `JsText` holds the JavaScript operations the code relies on:
  - `String(n)` and `parseInt`;
  - `substr`;
  - `Math.round`;
  - `.length` counted in UTF-16 code units;
  - `replace` of the first occurrence.
- `Util` models `util.js`.
- `Weather` models `weather.js`.
- `TweetWeather` models `getStatusMessage` in `tweetWeather.js`.
- `Bot` models the retry closures, the callbacks that handle loaded data, and
  the start-up check in `index.js`.
- `ErrorSource` models `getErrorSource` in `index.js`.

Code that builds strings in loops is modelled as methods with loop
invariants, each proved equal to a specification function:

- the constructor's query string (`Weather.RequestUrl`);
- `getForecast` (`Weather.GetForecast`);
- `getExtraStat` (`Weather.BuildExtraStat`, `Weather.BuildStatReport`);
- the two index scans of `getErrorSource` (`ErrorSource.ErrorSourceSegment`).

The rest of the code is branching and lookup, and is modelled as functions.

The state that `index.js` changes is modelled as two classes:

- A `RetryClosure` holds the captured `retryTimeout`.
- A `Bot` holds `stats.lastUpdate` and the statuses sent so far.

A cycle is run against a sequence of load outcomes. Each outcome is either:

- parsed data, together with the random draws used to turn it into a status
  and the clock reading when it is handled;
- an array of errors, together with the draw for the fallback joke;
- an argument that is not an array.

A retry's `setTimeout` becomes the next load of the same cycle
(`Bot.Bot.Load` recurses).

Every `Math.random()` call is a parameter in `[0, 1)`. The JSON tables and
the texts from `celestial.js` are parameters of type `Weather.Content`.
These tables are `statusCodeMap.json`, `jokes.json` and `iconDefinitions.json`.
JavaScript numbers are modelled as exact reals and integers, not IEEE
doubles. The comparisons the core makes are against literal thresholds
(the Beaufort limits, the roll bands) and `Math.round` of an azimuth over 45,
where double rounding cannot move a value across a boundary.

Within the limits listed under "## Left out", the model follows the code,
including where the code's own comments or intent differ:

- `getWindDirectionAsCardinal` has cases 0 to 7 only. It has no wrap-around
  modulo 8, so azimuths from 337.5 up to 360 give `undefined`. A forecast
  whose slot has such a wind direction then throws in `validateNotNull`.
- 90 degrees maps to the left arrow, because each arrow shows where the wind
  blows to.
- `getForecast` calls `validateNotNull` without a path, so the path
  interpolates as `undefined`. Its error reads
  "Member undefined.wind.direction of object is undefined".
- An over-long status is not thrown out of `getStatusMessage`: the `catch`
  logs it and the function returns `undefined`.
- Neither the fallback joke nor a rejected non-array argument updates
  `stats.lastUpdate`. Only a load that delivers data does, whether or not a
  status could be built from it.
- `getJoke` discards the result of `concat`, so the hot joke pool is never
  used.
- The precipitation statistic reads slots 0, 1 and 2 even when fewer slots
  exist. If some slot has precipitation and there are fewer than three
  slots, it throws.

## Model

| member | source | states |
|---|---|---|
| Util.GetCST | util.js:6-11 | the result always has exactly two characters (`substr(-2)`) |
| Util.GetCSTOfHour | util.js:7-10 | for an hour h in 0..23 the result is the zero-padded `(h - 6 + 24) mod 24` |
| Util.GetCSTReadsBack | util.js:6-11 | `parseInt` of the result gives back the local hour `(h + 18) mod 24` |
| Util.PickIndex | util.js:71 | `floor(draw * n)` is an index below n for every draw in [0, 1) |
| Util.PickRandom | util.js:66-72 | throws exactly on an empty array; otherwise the result is an element of the array |
| Util.PickIndexReaches | util.js:71 | every index i of an array of length n is drawn by the draw i/n |
| Util.PickIndexBelow | util.js:71 | the drawn index is below k exactly when `draw * n < k` |
| Util.ClosestIndex | util.js:23-53 | throws exactly on an empty list; a result is either the previous probe's absolute index or lies between `offset - 1` and `offset + len`, so it may fall outside the list; terminates because every recursive call gets a shorter slice |
| Util.ClosestIndexStopsAtPreviousProbe | util.js:35-37 | when the current probe compares worse than the previous one, the search returns `idx + offset` of the previous probe |
| Util.ClosestIndexPastTheEnd | util.js:48-50 | searching [0, 1] for 5 returns 2, one past the end |
| Util.ClosestIndexBeforeTheStart | util.js:48-50 | searching [1] for 0 returns -1 |
| Util.ClosestIndexFixed | util.js:23-53 | with the empty-sub-list case returning the probe just made, every result of a non-empty search lies within the searched list |
| Util.ClosestIndexFixedInRange | util.js:23-53 | a top-level call on a non-empty list returns an index of the list |
| Util.ChildPath | util.js:83 | the child path is `path.key`, or the key alone when the joined template starts with a dot (the path is empty or starts with a dot) |
| Util.ValidateFromThrowsIff | util.js:78-89 | the walk from member i throws exactly when some remaining member, at any depth, is `undefined` |
| Util.ValidateNotNullThrowsIff | util.js:78-89 | `validateNotNull` throws exactly when the value holds an `undefined` member at some depth |
| Util.ValidateFromMessage | util.js:83-86 | whatever the walk throws has the form "Member {path}.{key} of object is undefined" |
| Util.NullAndNaNPass | util.js:82-86 | `null` and `NaN` members pass; an `undefined` member throws with its path and key |
| JsText.NatToString | weather.js:211 | `String(n)` is a non-empty run of digits with no leading zero |
| JsText.NatToStringRoundTrip | weather.js:211 | the digits of `String(n)` denote n |
| JsText.IntToString | weather.js:211 | `String(i)` of an integer is non-empty and starts with `-` exactly for a negative integer |
| JsText.LeadingDigits | util.js:7 | the longest prefix made of digits: every character is a digit and the next one is not |
| JsText.ParseInt | util.js:7 | for text without a sign, leading white space or a `0x`/`0X` prefix, `parseInt` gives `NaN` exactly when the text does not start with a digit |
| JsText.ParseIntOfNatToString | util.js:7 | `parseInt(String(n)) == n` |
| JsText.Substr | weather.js:201 | `substr(start, length)` is at most `length` long, and is the slice from `start` when the string is long enough |
| JsText.SubstrClipped | index.js:54 | a range running past the end is clipped: the rest of the string from `start`, or nothing when `start` is past the end (the case `getErrorSource` meets when the stack has a single line) |
| JsText.SubstrFromEnd | util.js:10 | `substr(-k)` returns the last min(k, length) characters |
| JsText.DropLast | weather.js:151 | `substr(0, length - 1)` removes exactly the last character |
| JsText.Round | weather.js:262 | `Math.round(x)` lies in (x - 0.5, x + 0.5], so halves round up |
| JsText.Utf16Length | tweetWeather.js:51 | `.length` counts at least one and at most two code units per character |
| JsText.Utf16LengthConcat | tweetWeather.js:49-51 | the length of a concatenation is the sum of the lengths |
| JsText.SuffixJoinThenDropLast | weather.js:159-165 | writing each line followed by a newline and dropping the last character gives the header followed by each line preceded by a newline |
| JsText.ReplaceFirst | weather.js:254 | `replace(',', ' or')` leaves a string without commas unchanged |
| JsText.ReplaceFirstAt | weather.js:254 | only the first comma is replaced: the text before it, the replacement, then everything after it, later commas included |
| Weather.FirstThree | weather.js:191 | `slice(0, 3)` is the prefix of length min(3, length) |
| Weather.RequestUrl | weather.js:12-26 | the URL is the endpoint, the `name=value` pairs in order, then `&units=metric&APPID=` and the key |
| Weather.LocationParamsHaveNoSeparator | weather.js:17-21 | the joined parameters contain `&` exactly when some name or value does: no separator is inserted |
| Weather.BeaufortForce | weather.js:34-73 | the chosen force b is at most 12, and the speed lies between limits b-1 and b of the strict `<` chain |
| Weather.BeaufortBandUnique | weather.js:34-73 | exactly one band holds a given speed |
| Weather.LimitsIncrease | weather.js:34-73 | the thresholds 0.5, 1.6, ..., 32.7 increase |
| Weather.BeaufortMonotone | weather.js:34-73 | a higher speed never gets a lower force |
| Weather.BeaufortText | weather.js:34-75 | a speed inside the band of force b is reported as "A {speed}m/s wind is {description of b} on the beaufort scale. {fact of b}" |
| Weather.WindDirectionAsCardinal | weather.js:261-280 | an arrow is returned exactly for azimuths in [-22.5, 337.5); otherwise `undefined` |
| Weather.CardinalSector | weather.js:262-278 | each arrow k covers the 45-degree sector centred on 45k |
| Weather.CardinalPoints | weather.js:262-279 | 0 gives the down arrow, 90 the left arrow, 180 the up arrow and 270 the right arrow; 337.5 and 359 give `undefined` |
| Weather.ConditionsValidation | weather.js:195-208 | `validateNotNull` on the conditions object throws exactly when the wind direction is `undefined`, with message "Member undefined.wind.direction of object is undefined" |
| Weather.SlotConditions | weather.js:195-208 | the conditions of a slot are built and pass `validateNotNull` exactly when its condition id is known and its azimuth lies in [-22.5, 337.5) |
| Weather.SlotConditionsValidate | weather.js:195-208 | for a slot whose condition is known, building the conditions fails exactly when `validateNotNull` of the conditions object fails, with the same message; on success the record is that object |
| Weather.SlotConditionsOutcome | weather.js:203-208 | a known condition with azimuth of 337.5 or more throws the validation error |
| Weather.ConditionsLineLayout | weather.js:211 | a slot line starts with the local hour, ":00:", the symbol and ", [", and ends with " m/s " and the direction arrow |
| Weather.ForecastLinesFailurePersists | weather.js:194-212 | once a slot throws, the loop's later slots do not change the error |
| Weather.ForecastLinesStep | weather.js:210-211 | each iteration appends "\n" and the slot's line |
| Weather.Header | weather.js:192 | the header is "Forecast" exactly for draws above 0.000228310502, and "Fourcast" otherwise |
| Weather.GetForecast | weather.js:190-217 | the loop's result equals the specification `Forecast` |
| Weather.AllConditions | weather.js:194-208 | one conditions record per slot |
| Weather.AllConditionsAt | weather.js:194-208 | entry i of the records is the conditions of slot i |
| Weather.FormattedLines | weather.js:194-212 | one line per slot |
| Weather.FormattedLinesAt | weather.js:194-212 | line i is the line of slot i's conditions |
| Weather.AllFormatStep | weather.js:194-208 | all slots format exactly when all but the last do and the last does |
| Weather.FormattedLinesStep | weather.js:194-212 | the lines of the slots are those of all but the last, then the last slot's line |
| Weather.ForecastLinesMeaning | weather.js:194-212 | the loop succeeds exactly when every slot formats, and then yields each line preceded by a newline |
| Weather.ForecastLinesFirstFailure | weather.js:194-212 | a failing loop fails with the error of the first slot that throws |
| Weather.ForecastLayout | weather.js:190-217 | a forecast is the header ("Forecast", or "Fourcast" for draws not above 0.000228310502), each of the first min(3, length) slot lines preceded by "\n", then "\n\n"; it succeeds exactly for an object whose first three slots all format |
| Weather.NorthWindAbortsForecast | weather.js:203-208 | a known-condition slot among the first three with azimuth of 337.5 or more makes `getForecast` throw |
| Weather.AnyPrecipitation | weather.js:135 | the `reduce` test holds exactly when some slot has truthy rain or snow |
| Weather.PrecipitationLine | weather.js:143-148 | a slot yields a line exactly when it has precipitation, and the line ends with a newline |
| Weather.PrecipitationLoop | weather.js:138-149 | the loop over indexes 0..2 throws exactly when it reads past the available slots |
| Weather.StatLines | weather.js:161-179 | one line per slot, in order |
| Weather.StatLinesStep | weather.js:161-179 | each `forEach` step appends the slot's line and a newline |
| Weather.BuildStatReport | weather.js:157-184 | the loop's result equals the specification `StatReport` |
| Weather.BuildExtraStat | weather.js:125-185 | the precipitation loop and its fallback equal the specification `ExtraStat` |
| Weather.StatReportLayout | weather.js:157-181 | pressure, humidity and cloudiness give their title, then one line per slot, each preceded by a newline, with no trailing newline |
| Weather.ExtraStatThrowsIff | weather.js:125-185 | `getExtraStat` throws exactly for an unknown statistic name, or for precipitation with fewer than three slots when some slot has precipitation |
| Weather.PrecipitationFallback | weather.js:152-154 | without precipitation the statistic becomes pressure, humidity or cloudiness and succeeds |
| Weather.PrecipitationReportLayout | weather.js:136-151 | with three slots and some precipitation, the report is the title and only the lines of the slots with precipitation, with the final newline removed |
| Weather.Joke | weather.js:222-235 | throws exactly when the slot is missing or the general pool is empty; a joke always comes from the general pool |
| Weather.HotJokesNeverDrawn | weather.js:230-232 | on a hot day the hot pool plays no part, because the `concat` result is discarded |
| Weather.Tutorial | weather.js:240-256 | an absent or zero id is replaced by the drawn index floor(draw * (2 + number of icons)) and gives that tutorial; an explicit id gives tutorial id for 1 .. 1 + number of icons (1 the pressure text, 2 and above icon definition id - 2) and throws for any other id |
| Weather.IconTutorialFirstCommaOnly | weather.js:254 | only the first comma of the conditions becomes " or" |
| Weather.EveryIconTutorialReachable | weather.js:243-254 | every icon definition is chosen by some draw |
| Weather.Celestial | weather.js:99-107 | a sub-roll below .6 gives the day/night message, .6 to .8 the lunar phase, .8 and above the season progress |
| Weather.Extra | weather.js:81-119 | a non-object throws; roll < .01 gives `getJoke` of the first slot (a general-pool joke, throwing exactly without a slot or with an empty pool); .01 to .1 the tutorial of the drawn index; .1 to .3 the celestial message of the sub-roll; .3 to .5 the Beaufort text of the first slot's wind speed, or the TypeError without a slot; .5 and above the extra statistic of the drawn name over the first three slots |
| Weather.PrecipitationIsHalfTheStats | weather.js:116 | the statistic is precipitation exactly for draws below 0.5, three picks out of six |
| Weather.ExtraSucceedsOnFullData | weather.js:81-119 | with at least three slots and a non-empty general pool, `getExtra` never throws |
| TweetWeather.ExtraText | tweetWeather.js:46 | a late status takes a joke from the late pool (throwing exactly when it is empty); otherwise it is `getExtra` |
| TweetWeather.StatusMessage | tweetWeather.js:40-59 | a returned status is at most 280 UTF-16 code units long |
| TweetWeather.StatusMessageIff | tweetWeather.js:40-59 | a status m is returned exactly when the forecast f and the extra e both succeed, m = f + e, and length(f) + length(e) <= 280; exactly 280 is accepted |
| TweetWeather.ForecastFailureSilences | tweetWeather.js:41-46 | a forecast that throws yields `undefined`, whatever the extra |
| TweetWeather.LateStatusIgnoresExtra | tweetWeather.js:46 | a late status does not depend on `getExtra`'s draws, the icons or the celestial texts, and ends with a joke from the late pool |
| TweetWeather.StatusOnGoodData | tweetWeather.js:40-59 | for an object whose first three slots format, and a non-empty general pool, a status is returned exactly when the two lengths add up to at most 280 |
| ErrorSource.ScanNewline | index.js:48-52 | the scan stops at the first newline from its start, or at the end |
| ErrorSource.ErrorSourceSegment | index.js:45-54 | the two loops and `substr` produce the text from the first newline up to the second |
| ErrorSource.TrailingRun | index.js:54 | the run is no longer than the text |
| ErrorSource.TrailingRunShape | index.js:54 | the run is a suffix of the text, all its characters match the class, and the character before it (if any) does not: it is the longest such run |
| ErrorSource.DropSuffix | index.js:54 | a removed suffix leaves a prefix that gives back the text when the suffix is appended |
| ErrorSource.DropSuffixOf | index.js:54 | removing a suffix that is present gives back the prefix |
| ErrorSource.SplitRun | index.js:54 | the two parts concatenate to the text and the second is its trailing run |
| ErrorSource.SplitRunOf | index.js:54 | a text splits into its prefix and its trailing run |
| ErrorSource.TrailingRunOf | index.js:54 | a run of matching characters after a non-matching one is the trailing run |
| ErrorSource.MatchSourceOfFrame | index.js:54 | a segment ending in `name.js:line:column)` matches, with groups `name.js` and `line` |
| ErrorSource.MatchSourceSound | index.js:54 | every match comes from a segment of that shape |
| ErrorSource.GetErrorSource | index.js:45-60 | the method equals the specification `ErrorSourceOf`: file name and `parseInt` of the line, or the TypeError for a failed match |
| ErrorSource.ScanNewlineStopsAt | index.js:48-52 | the scan stops exactly at the first newline at or after its start |
| ErrorSource.StackSegmentOfSecondLine | index.js:48-54 | for a stack `head\nframe\n...` the segment is "\n" followed by the frame |
| ErrorSource.ErrorSourceOfFrame | index.js:45-60 | a stack whose second line ends in `name.js:line:column)` gives file `name.js` and the line number |
| Bot.Decide | index.js:278-306 | an array of errors is retried exactly while `retryTimeout <= 262144`, after `retryTimeout` milliseconds; after that, the fallback is sent; a non-array is only rejected |
| Bot.RetryClosure.constructor | index.js:274 | a new closure holds `retryTimeout = 0` |
| Bot.RetryClosure.OnFailLoadWeather | index.js:278-306 | the closure's decision, and `retryTimeout` grows by 131072 after a retry and only then; since the timeout stays a multiple of 131072, the announced retry number n is a whole count whose delay is (n - 1) * 131072 |
| Bot.StepFor | index.js:278-306 | one load leads to a retry exactly for errors within the budget, and to the fallback exactly for errors past it |
| Bot.ScheduleFrom | index.js:282-293 | after k scheduled retries, every step but the last is a retry, retry j waits (k + j)·131072 ms with number k + j + 1, and a fallback only comes at load 4 |
| Bot.RetrySchedule | index.js:274-302 | a fresh cycle retries after 0, 131072 and 262144 ms as retries 1, 2 and 3, makes at most 4 loads, and sends the fallback only on the fourth failure |
| Bot.FourFailures | index.js:278-302 | four failures in a row give three retries and then the fallback joke drawn from the error pool |
| Bot.LastStepDecides | index.js:206-216 | when all steps but the last are retries, only the last step can tweet or move `stats.lastUpdate` |
| Bot.AtMostOneTweet | index.js:206-216 | a cycle tweets at most once, and only a step that handled data changes `stats.lastUpdate` |
| Bot.Bot.constructor | index.js:187-198 | the bot starts from the stored `lastUpdate` with no tweets sent |
| Bot.Bot.OnWeatherLoaded | index.js:206-216 | tweets the status when there is one and records the time either way |
| Bot.Bot.Deliver | index.js:206-216 | one outcome changes the tweets, `lastUpdate` and `retryTimeout` as the cycle's step says |
| Bot.Bot.Load | index.js:287-293 | a load and the retries it schedules produce the cycle's trace; their tweets are appended and `lastUpdate` follows the steps |
| Bot.Bot.RunCycle | index.js:272-309 | a cycle with a fresh `retryTimeout = 0` follows `CycleTrace` from 0 |
| Bot.Bot.ScheduledUpdate | index.js:272-309 | the cron job runs a non-late cycle |
| Bot.Bot.Startup | index.js:219-270 | a late cycle runs exactly when `now - lastUpdate > 7620000`, strictly; `lastUpdate` is set to now before its first load |

## Left out

- `loadWeather` (weather.js:287-346) is left out because it is network I/O. This covers the HTTPS request, the status and content-type checks, and `JSON.parse`. It appears only through its outcomes: parsed data, an array of errors, or a non-array.
- `sendTweet` (tweetWeather.js:63-74) is left out because it calls the Twitter client. A sent tweet is appended to `Bot.Bot.tweets`.
- `getAlertMessage` (tweetWeather.js:21-34) is left out because it calls a weather function that does not exist.
- `celestial.js` is not part of this model. The three celestial texts are parameters.
- `getDaysBetween` (util.js:59-61) is left out because it is floating-point date arithmetic.
- `toPrecision(2)` is left out because it is floating-point formatting. Each slot carries the wind speed's text together with its numeric value. Pressure, humidity, cloudiness and precipitation amounts are likewise carried as the text their templates print.
- `Number` to `String` of non-integers is not modelled.
- JsText.ParseInt: `parseInt` with leading white space, a sign or a `0x`/`0X` hex prefix is not modelled. `JsText.ParseInt` reads "0x1f" as 0, where JavaScript gives 31, and "0x" as 0, where JavaScript gives `NaN`. The hour digits of `dt_txt` in the API's "YYYY-MM-DD HH:MM:SS" format never start with any of them.
- `substr` is modelled over characters (code points), but JavaScript indexes UTF-16 code units. The two differ only for text with characters outside the Basic Multilingual Plane before the cut. The texts cut here are the ASCII `dt_txt` and the error stack, which `getErrorSource` indexes consistently with its own `indexOf` scan.
- The stats file is left out because it is file I/O. This covers `getWatchedObject` and the reading and saving of `stats.json`. `stats.lastUpdate` is the field `Bot.Bot.lastUpdate`.
- The logger, the `Intl` time formatting, the signal handlers, the exit generator and `process.exit` are left out because they are logging and process control. The exit generator is index.js:116-137.
- Log lines are left out, including the "Retry N of 3" text. Its number appears as `retryNumber` in `Bot.CycleStep`.
- `node-schedule` and the timers are not modelled as timers. A cron tick is a call of `Bot.Bot.ScheduledUpdate`, and a retry timer is the next load of the same cycle.
- Cycles run one at a time against a finite list of outcomes. Two cycles that overlap in time are not modelled. A cycle whose outcomes run out stays waiting, with no further step.
- The thrown exception when the error-joke pool is empty is not modelled. The fallback step records the failed pick and no tweet is sent; an uncaught exception that ends the process is not modelled.
- `Weather.Payload`: a non-object payload stands for a number, string or boolean. `null` and `undefined` would throw different TypeError messages. Those messages are only logged, so no status changes.
- `Weather.Slot` does not model missing or non-object `weather`, `main` or `wind` members of a slot. Only the missing condition id, the unknown condition code and the `undefined` wind direction are modelled as errors of `getForecast`.
- Util.ValidateFromMessage: states the form of the message, not which member it names. The first `undefined` member in walk order is named, as `Weather.ConditionsValidation` shows for the forecast's `conditions` object.
- The JSON tables (status codes, jokes, icon definitions) are parameters rather than their file contents.

## Findings

| source | as written | input that shows it | evidently intended | confidence | as-written member | corrected member |
|---|---|---|---|---|---|---|
| util.js:48-50 | when the next sub-list is empty, returns `midpoint + offset - 1` after `offset` has already moved past the probe | `getClosestIndex(5, [0, 1], (a, b) => a - b)` returns 2, past the end of the list; `getClosestIndex(0, [1], (a, b) => a - b)` returns -1 | return the index of the probe just made, which always lies within the list | not executed | Util.ClosestIndexPastTheEnd | Util.ClosestIndexFixedInRange |
