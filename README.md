# tennis_tg poll bot: a verified model of its core

`bot.py` is a Telegram bot that, twice a week or on demand, asks a weather
provider about tomorrow's morning hours and posts a poll to a group chat.
The poll offers one option per hour from 7 to 11 AM, each with the
temperature and rain when known, then three fixed answers. This project
models the decision and construction logic under that plumbing. It covers
five parts:

- **Python values** (`pyvalue.dfy`, module `PyValue`). A decoded JSON body
  is a `Json` value. A dict keeps its entries in insertion order. Python's
  exceptions are a datatype. `str()` is modelled as an f-string placeholder
  renders it. Decimal text of ints comes with its parse-back round trip.
- **Tomorrow's date** (`civil_date.dfy`, module `CivilDate`). This is the
  calendar step of `get_tomorrow_xam_unix_time`. It adds one calendar day,
  across month ends, year ends and leap days, over Python's year range
  1..9999. It then builds the date-time at hour `xam` with minute and
  second 0. Day numbers as `date.toordinal` counts them serve as the
  reference definition: tomorrow is today's day number plus one.
- **`get_weather`** (`weather.dfy`, module `Weather`). The HTTP request is
  an oracle `Provider`, mapping the target date-time to a connection
  failure or to a status and decoded body. `Interpret` follows the try
  block line by line with Python's exceptions:
  - a `RequestException` or `KeyError` gives `(None, None)`;
  - an `IndexError`, `TypeError` or `AttributeError` escapes as `Raised`.
- **`poll_options`** (`poll_builder.dfy`, module `PollBuilder`).
  - `PollOptions` is a method with the source's loop over hours 7..11,
    appending one label per hour and then the three fixed options.
  - It is proved equal to the specification function `BuildOptions`.
    Lemmas then give that function's shape: 8 options, the hours in
    order, each label from its own outcome, the fixed options last.
  - The first hour whose `get_weather` call raises stops the loop, and
    its exception escapes.
- **`create_poll`** (`dispatcher.dfy`, module `Dispatcher`).
  - A `Bot` class holds the group chat and an outbox: the sequence of
    `send_message` / `send_poll` calls made so far.
  - `CreatePoll` appends what one run sends. It is proved against
    `PollJob`, whose contract says that exactly one message goes out
    unless an exception escapes.
  - If the hour-7 gate reading lacks its temperature or its rain, the
    error notice goes out. Otherwise the poll goes out.

The hour-7 reading is requested twice: once for the gate (bot.py:59) and
once inside `poll_options` (bot.py:79). The model keeps the two results
as independent parameters.

## Model

| member | source | states |
|---|---|---|
| PyValue.Lookup | bot.py:47-48 | a dict lookup finds a value bound to the key, and finds nothing exactly when no entry has the key |
| PyValue.NatTextRoundTrip | bot.py:83 | the decimal text of a natural number is a non-empty digit string that reads back as the number |
| PyValue.IntTextRoundTrip | bot.py:80-83 | `str(n)` of an int is a numeral that reads back as `n`, and starts with a minus exactly when `n < 0` |
| PyValue.IntTextInjective | bot.py:80-83 | distinct ints print as distinct texts |
| PyValue.NatText | bot.py:81-83 | definition, no contract: the decimal digits of a natural number without leading zeros; properties in PyValue.NatTextRoundTrip |
| PyValue.IntText | bot.py:81-83 | definition, no contract: `str(n)` of an int, the `{hour}` and `{temp}` placeholders; properties in PyValue.IntTextRoundTrip and PyValue.IntTextInjective |
| PyValue.Str | bot.py:83 | definition, no contract: `str(v)` of a decoded value, the `{rain}` placeholder: None, True/False, decimal ints, strings as themselves, lists and dicts with `repr` of their elements; used by PollBuilder.RainText and exercised by PollBuilder.Scenario7 .. Scenario11 |
| PyValue.Repr | bot.py:83 | definition, no contract: `repr(v)` of an element inside a list or dict, strings single-quoted |
| CivilDate.IsLeapYear | bot.py:29 | definition, no contract: the Gregorian leap-year rule of Python's datetime; properties in CivilDate.LeapDay and CivilDate.MonthsFillYear |
| CivilDate.DaysInMonth | bot.py:29 | definition, no contract: Gregorian month lengths; properties in CivilDate.MonthsFillYear and CivilDate.TomorrowIsNextOrdinal |
| CivilDate.Tomorrow | bot.py:29 | `now + timedelta(days=1)`: a valid later date, and none (OverflowError) exactly on 9999-12-31 |
| CivilDate.TomorrowAt | bot.py:29-31 | the target date-time exists exactly when today is not 9999-12-31 and `0 <= xam <= 23`. Otherwise OverflowError or ValueError, respectively. On success it is `Tomorrow(today)` (a valid date after today), at hour `xam`, minute 0, second 0 |
| CivilDate.MonthsFillYear | bot.py:29 | the twelve month lengths add up to the year length (365 or 366) |
| CivilDate.OrdinalIncreasing | bot.py:29 | day numbers follow calendar order |
| CivilDate.OrdinalInjective | bot.py:29 | two valid dates with the same day number are the same date |
| CivilDate.TomorrowIsNextOrdinal | bot.py:29 | tomorrow's day number is today's plus one, month ends, year ends and leap days included |
| CivilDate.TomorrowIsNextDay | bot.py:29 | no valid date lies strictly between today and tomorrow |
| CivilDate.YearRollover | bot.py:29-31 | December 31 is followed by January 1 of the next year |
| CivilDate.LeapDay | bot.py:29 | February 28 is followed by February 29 exactly in leap years, otherwise by March 1 |
| Weather.Subscript | bot.py:47 | `v[key]` succeeds exactly on a dict holding the key and then gives the value bound to it; KeyError on other dicts, TypeError on other values |
| Weather.First | bot.py:47 | `v[0]` succeeds exactly on a non-empty list or string, giving its first element or its first character. A dict gives KeyError, an empty list or string IndexError, anything else TypeError |
| Weather.Round | bot.py:47 | `round` succeeds exactly on numbers and bools; it keeps a whole number and gives 1 for True and 0 for False; TypeError otherwise |
| Weather.Get | bot.py:48 | `.get(key, default)` succeeds exactly on a dict, giving the bound value or the default; AttributeError otherwise |
| Weather.Interpret | bot.py:43-55 | a missing temperature only ever comes as the full `(None, None)` pair. The only exceptions that escape are IndexError, TypeError and AttributeError (for the model's whole-number JSON; see Left out on floating point) |
| Weather.GetWeather | bot.py:37-55 | OverflowError or ValueError escapes exactly when there is no tomorrow or `xam` is not an hour. Otherwise the provider is asked about tomorrow at `xam`:00:00 and its reply is interpreted |
| Weather.RequestFailuresGiveNoReading | bot.py:44-52 | a connection failure, an HTTP status 400-599 or a body that is not JSON gives `(None, None)` |
| Weather.NoTemperatureIffCaught | bot.py:47-55 | the temperature is missing exactly for a request failure or a KeyError in the shaping, and then the rain is missing too |
| Weather.EmptyDataListRaises | bot.py:47 | an empty `data` list makes IndexError escape instead of giving `(None, None)` |
| Weather.SuccessfulReading | bot.py:47-49 | whenever a reply yields a temperature, it is the rounded `temp` of the dict that is the first `data` entry, the top-level `rain` is absent or a dict, and the rain is `TopLevelRain` of the body |
| Weather.WellFormedReplyGivesReading | bot.py:43-49 | conversely, a reply past raise_for_status whose `data` list starts with a dict holding a roundable `temp`, and whose top-level `rain` is absent or a dict, returns that rounded temperature with `TopLevelRain` of the body; with no `rain` or no `1h` this is 0 |
| Weather.TopLevelRain | bot.py:48 | definition, no contract: the top-level `rain.1h` when present, otherwise 0; tied to `Interpret` by Weather.SuccessfulReading and Weather.WellFormedReplyGivesReading |
| Weather.Shape | bot.py:47-48 | definition, no contract: the two lines of the try block as a chain of the Python operations above, stopping at the first exception; its properties are stated by Weather.SuccessfulReading, Weather.EmptyDataListRaises and Weather.NoTemperatureIffCaught |
| Weather.TemperatureWithNoneRain | bot.py:48-49 | a body with `"rain": {"1h": null}` returns a temperature together with a None rain |
| PollBuilder.HourText | bot.py:81 | definition, no contract: `f"{hour}:00AM"`; properties in PollBuilder.BareLabelIffNoTemperature and PollBuilder.BareHours |
| PollBuilder.RainText | bot.py:83 | definition, no contract: the `°C ☔ {rain}%` tail of the decorated option |
| PollBuilder.AfterHour | bot.py:80-83 | definition, no contract: what follows the hour digits, `:00AM` alone when the temperature is None, otherwise followed by the thermometer, temperature and rain |
| PollBuilder.Label | bot.py:80-83 | definition, no contract: the option of one hour, bare or decorated; properties in PollBuilder.BareLabelIffNoTemperature, PollBuilder.LabelDeterminesHourAndTemperature and PollBuilder.Scenario7 .. Scenario11 |
| PollBuilder.Labels | bot.py:78-83 | definition, no contract: the options of consecutive hours, stopped by the first raised outcome; properties in PollBuilder.LabelsAt, LabelsFirstError, LabelsExtend and LabelsPrefix |
| PollBuilder.BuildOptions | bot.py:77-85 | definition, no contract: the reference result of poll_options, the hour labels then the fixed options; properties in PollBuilder.OptionsShape, and PollBuilder.PollOptions is proved equal to it |
| PollBuilder.PollOptions | bot.py:76-85 | the loop's result equals `BuildOptions` of the five outcomes: the labels, then the fixed options, or the first exception raised |
| PollBuilder.LabelsAt | bot.py:78-83 | the labels exist exactly when every hour's call returned. The i-th label is then formatted from hour `7 + i` and that hour's outcome |
| PollBuilder.LabelsFirstError | bot.py:78-79 | the first hour whose call raised decides the escaping exception |
| PollBuilder.LabelsExtend | bot.py:78-83 | one more hour either stops the loop with its exception or appends that hour's label |
| PollBuilder.LabelsPrefix | bot.py:78-79 | once an hour has raised, the later hours do not change the outcome |
| PollBuilder.OptionsShape | bot.py:77-85 | the options exist exactly when no call raised. There are then exactly 8: the labels of hours 7..11 in order, then "+1 (Coming with someone) 👫", "Beer only 🍺", "Pass ❌". Otherwise the first exception escapes |
| PollBuilder.BareHours | bot.py:80-81 | the bare options read "7:00AM" .. "11:00AM" |
| PollBuilder.AllHoursFailed | bot.py:77-85 | when every hour gives `(None, None)`, the options are the five bare hours and the three fixed options |
| PollBuilder.BareLabelIffNoTemperature | bot.py:80-83 | an option is the bare `"{hour}:00AM"` exactly when that hour's temperature is None |
| PollBuilder.LabelDeterminesHourAndTemperature | bot.py:80-83 | equal options come from the same hour and carry the same temperature, or both carry none |
| PollBuilder.Scenario7 | bot.py:82-83 | hour 7 at 14 degrees and rain 0 reads "7:00AM 🌡️ 14°C ☔ 0%" |
| PollBuilder.Scenario8 | bot.py:82-83 | hour 8 at 15 degrees and rain 0 reads "8:00AM 🌡️ 15°C ☔ 0%" |
| PollBuilder.Scenario9 | bot.py:82-83 | hour 9 at 16 degrees and rain 10 reads "9:00AM 🌡️ 16°C ☔ 10%" |
| PollBuilder.Scenario10 | bot.py:82-83 | hour 10 at 17 degrees and rain 0 reads "10:00AM 🌡️ 17°C ☔ 0%" |
| PollBuilder.Scenario11 | bot.py:82-83 | hour 11 at 18 degrees and rain 5 reads "11:00AM 🌡️ 18°C ☔ 5%" |
| PollBuilder.FiveReadings | bot.py:76-85 | five successful hours give exactly those five options in order, then the fixed ones |
| Dispatcher.Question | bot.py:69 | definition, no contract: `f"🎾 game on {tomorrow}:"`; properties in Dispatcher.QuestionNamesDate |
| Dispatcher.QuestionNamesDate | bot.py:69 | different dates give different poll questions |
| Dispatcher.PollJob | bot.py:58-73 | one run sends at most one message, and exactly one unless an exception escapes. It sends the error notice exactly when the gate returned without a full reading. It sends a poll exactly when the gate has a full reading and the options were built. The escaping exception comes from the gate, the date line or the options, in that order |
| Dispatcher.Bot.CreatePoll | bot.py:58-73 | the run's sends are appended to the outbox after everything sent before, and the escaping exception is reported |
| Dispatcher.GateFailureSendsNotice | bot.py:59-63 | a gate reading with temperature or rain None sends exactly "Error fetching weather data." and no poll, whatever the five hours would give |
| Dispatcher.GatePassSendsPoll | bot.py:65-73 | a full gate reading sends exactly one poll. It goes to the group, is non-anonymous and multiple-answer, and asks about tomorrow. Its 8 options are the labels of hours 7..11 in order, then the fixed options |
| Dispatcher.GatePassWithBareFirstHour | bot.py:59-65 | the gate can pass while the poll's hour-7 option is the bare "7:00AM" |
| Dispatcher.OptionFailureSendsNothing | bot.py:65 | an exception from an hour's call inside poll_options escapes after the gate passed, and nothing is sent |

## Left out

- HTTP and JSON decoding (bot.py:40-46) are an oracle (`Provider`). It
  returns a connection failure or a status with a decoded body. A body
  that is not JSON counts as a `RequestException`, as `requests` 2.27 and
  later raise it.
- Floating point: JSON numbers are whole numbers in the model, so `round`
  keeps them as they are and a fractional rain such as 0.25 cannot occur.
  Python's `json` also accepts `NaN` and `Infinity`, whose `round` raises
  ValueError or OverflowError past the handlers at bot.py:50-55; the model
  has no such values, so those two escapes are not modelled.
- The conversion of the local date-time to a Unix timestamp (bot.py:33)
  depends on the host time zone. The provider is keyed by the local
  date-time instead.
- `strftime('%B %d %a')` (bot.py:60) depends on the locale. `CreatePoll`
  takes the formatted date, or the OverflowError computing it raised, as
  a parameter.
- `datetime.now()` is read separately in each call (bot.py:27, 60). The
  gate reading, the date text and the five hour readings are therefore
  independent parameters.
- Failures of the Telegram sends themselves (bot.py:62, 67) are not
  modelled. A send always lands in the outbox.
- The `/start` command, the `schedule` triggers, the tick loop, threads,
  `create_task`, the health-check HTTP server, `dotenv` configuration and
  logging (bot.py:12-22, 88-137) are not part of this model. They are
  transport, concurrency and configuration around the core.
- `repr()` escaping of quotes and control characters inside a list or
  dict shown in an option is not modelled.
- PyValue.Lookup: a decoded dict never has duplicate keys; the model's
  entry list could, and then the first entry wins, where `json` would
  have kept the last.

Behaviour of bot.py worth noting:

- The gate checks the rain as well as the temperature (bot.py:61).
- A decorated option is `"{hour}:00AM 🌡️ {temp}°C ☔ {rain}%"`, with
  single spaces and the thermometer and umbrella emoji (bot.py:83).
- The fixed options read "+1 (Coming with someone) 👫", "Beer only 🍺" and
  "Pass ❌" (bot.py:84).
- A malformed reply does not always give `(None, None)`. An empty `data`
  list, a non-numeric `temp` or a non-dict `rain` raise, and the exception
  escapes the job: one failing hour aborts the whole poll, and then
  nothing is sent.
- A reading can be partial: `"rain": {"1h": null}` gives a temperature
  with a None rain.
