# Weather CLI: formatter and service core in Dafny

This project models the core of a small weather command-line tool. The tool
fetches current conditions for one or more locations from the
OpenWeatherMap current-weather endpoint, turns the provider's payload into a
weather record, and renders records as text:

- per-field strings: temperature with `°C`/`°F`, wind speed with `m/s`/`mph`,
  pressure with ` hPa`, humidity with `%`, and the capitalised description;
- a seven-line labelled summary for one record;
- a fixed five-column comparison table for several records: padded cells,
  ` | ` between columns and a `-+-` dash separator under the header.

Everything in the core is stateless, so the model is made of datatypes,
functions and lemmas over strings as `seq<char>`.

Files and modules:

- `wrappers.dfy` (`Wrappers`): `Option` and `Result`.
- `weather_types.dfy` (`WeatherTypes`): the weather record, the provider
  payload and the configuration.
- `text.dfy` (`Text`): the string built-ins the formatter uses (`repeat`,
  `padEnd`, `join`, and lodash `capitalize`, which is `upperFirst` applied
  after `toLowerCase`), with their length and offset facts. It also holds two readers the formatter never calls:
  `Split`, a one-character `split`, and `StripSuffix`. The proofs use them to
  state the line structure of the joined output and the suffix structure of
  the templated field texts.
- `formatter.dfy` (`Formatter`): the formatter's operations.
- `formatter_layout.dfy` (`FormatterLayout`): what the summary and the table
  look like line by line and column by column.
- `formatter_examples.dfy` (`FormatterExamples`): the formatter's own test
  cases, stated as lemmas.
- `weather_service.dfy` (`WeatherService`): the service's operations:
  - the request for one location;
  - the payload transform;
  - the choice of error message;
  - the all-or-nothing fan-out over several locations.

Three things the source gets from outside are parameters of the model:

- **Number-to-text conversion.** `n.toFixed(1)` and the template rendering
  `${n}` are the two function fields of `Formatter.NumberText`. The
  properties hold for any such pair of conversions, with one condition. The
  line-count lemmas need every number text, location, description and
  relative-time text to hold no line break. These lemmas are
  `FormatterLayout.SummaryLines`, `SummaryLineNoNewline` and `TableLineCount`,
  plus `FormatterExamples.LondonSummary`. The test cases are stated for every
  conversion that renders the test's numbers the way the test expects.
- **Relative time.** The "Updated" line's relative-time text is a string
  argument of the summary.
- **The HTTP call.** It is a function argument of type `WeatherService.Fetch`.
  For each request it returns either a body or a thrown error:
  - a body is a well-formed payload or a payload the transform cannot read;
  - an error is the HTTP client's own error (its message and, optionally, the
    provider's response) or any other error.

Three behaviours of the code are easy to misread from the names of its
operations alone. The model follows the code at each one:

- **Description formatting.** The description is formatted with lodash
  `capitalize`. That lower-cases everything after the first character, so
  "PARTLY CLOUDY" becomes "Partly cloudy", not "PARTLY CLOUDY" with its first
  letter upper-cased.
- **Pressure and humidity.** These are rendered with a plain `${n}`. Nothing
  makes them integers, so a fractional value keeps its fraction.
- **The error message.** When the provider gives no message, the code uses
  the HTTP client's own error message after the prefix, not a generic
  transport message. The fixed text "Failed to fetch weather data" is used
  only for errors that do not come from the HTTP client. That includes a
  payload whose shape the transform cannot read, such as one with no
  `weather` array at all. "Unknown" is substituted only when the `weather`
  array is empty or its first description is empty.

## Model

| member | source | states |
|---|---|---|
| Text.PadEnd | src/utils/formatter.ts:66 | a padded cell is exactly as long as its width when shorter, unchanged otherwise, starts with the original text and continues with spaces only |
| Text.Repeat | src/utils/formatter.ts:69 | a dash run has exactly the column's width and consists only of that character |
| Text.Join | src/utils/formatter.ts:47 | `join` (also at lines 66, 69 and 75): the parts with the separator between each two neighbours; stated by Text.JoinLength, Text.JoinAt and Text.SplitJoin |
| Text.JoinLength | src/utils/formatter.ts:66 | a join is as long as its parts together plus one separator between each two neighbours |
| Text.OffsetNext | src/utils/formatter.ts:66 | part i + 1 of a join starts one part width and one separator after part i |
| Text.JoinPartAt | src/utils/formatter.ts:66 | part i of a join lies at the offset given by the widths of the parts and separators before it |
| Text.JoinSepAt | src/utils/formatter.ts:66 | in a join, the separator comes straight after every part but the last |
| Text.JoinAt | src/utils/formatter.ts:66 | part i of a join starts at the offset given by the widths of the parts before it and is followed by exactly the separator |
| Text.JoinAllChars | src/utils/formatter.ts:69 | a join of parts and a separator drawn from a character class stays within that class |
| Text.Split | src/utils/formatter.ts:47 | splitting on one character gives at least one piece and no piece holds that character |
| Text.SplitJoin | src/utils/formatter.ts:47 | splitting a join on its one-character separator gives back the parts, when no part holds that character |
| Text.JoinSplit | src/utils/formatter.ts:47 | joining the pieces of a split with the separator gives back the string |
| Text.StripSuffix | src/utils/formatter.ts:8 | the suffix is removable exactly when the string ends with it, and what remains plus the suffix is the string |
| Text.ToLower | src/utils/formatter.ts:20 | lower-casing keeps the length and maps every character to its lower-case form |
| Text.UpperFirst | src/utils/formatter.ts:20 | upper-casing the first character keeps the length, changes only position 0 and leaves the rest as it was |
| Formatter.FormatTemperature | src/utils/formatter.ts:6-9 | `formatTemperature`: the one-decimal text followed by "°C" for metric and "°F" for imperial; stated by Formatter.TemperatureRoundTrip and FormatterExamples.TemperatureExamples |
| Formatter.FormatWindSpeed | src/utils/formatter.ts:23-26 | `formatWindSpeed`: the one-decimal text, a space, then "m/s" or "mph"; stated by Formatter.WindSpeedRoundTrip and FormatterExamples.WindSpeedExamples |
| Formatter.FormatPressure | src/utils/formatter.ts:28-30 | `formatPressure`: the number text followed by " hPa"; stated by Formatter.PressureRoundTrip |
| Formatter.FormatHumidity | src/utils/formatter.ts:32-34 | `formatHumidity`: the number text followed by "%"; stated by Formatter.HumidityRoundTrip and FormatterExamples.HumidityExample |
| Formatter.TemperatureRoundTrip | src/utils/formatter.ts:6-9 | a temperature is its one-decimal text followed by the symbol of its own unit system; removing that symbol gives the number text back, and the other system's symbol is not a suffix |
| Formatter.WindSpeedRoundTrip | src/utils/formatter.ts:23-26 | a wind speed is its one-decimal text, a space and the unit of its own system; removing them gives the number text back, and the other system's unit is not a suffix |
| Formatter.PressureRoundTrip | src/utils/formatter.ts:28-30 | a pressure is its number text followed by " hPa", and removing that gives the number text back |
| Formatter.HumidityRoundTrip | src/utils/formatter.ts:32-34 | a humidity is its number text followed by "%", and removing that gives the number text back |
| Formatter.FormatWeatherDescription | src/utils/formatter.ts:19-21 | the capitalised description has the input's length, its first character upper-cased and every later character lower-cased |
| Formatter.CapitalizedOutput | src/utils/formatter.ts:19-21 | under the ASCII case mapping, a formatted description never starts with a lower-case letter and has no upper-case letter after the first |
| Formatter.CapitalizeFixpoint | src/utils/formatter.ts:19-21 | under the ASCII case mapping, formatting leaves a description unchanged exactly when it is already capitalised |
| Formatter.CapitalizeIdempotent | src/utils/formatter.ts:19-21 | under the ASCII case mapping, formatting a formatted description changes nothing |
| Formatter.DescriptionNoNewline | src/utils/formatter.ts:19-21 | capitalising introduces no line break |
| Formatter.MaxLength | src/utils/formatter.ts:62 | the maximum length is no smaller than any cell's length and equals one of them |
| Formatter.ColumnWidth | src/utils/formatter.ts:60-63 | column i's width is at least the header's length and every row's cell-i length, and equals one of them |
| Formatter.ColumnWidths | src/utils/formatter.ts:60-63 | there is one width per header, and width i is column i's width |
| Formatter.SummaryLineList | src/utils/formatter.ts:37-45 | the `lines` array of `createWeatherSummary`: the seven labelled lines in fixed order; stated by FormatterLayout.SummaryLines, FormatterLayout.SummaryLineNoNewline and FormatterExamples.LondonLines |
| Formatter.CreateWeatherSummary | src/utils/formatter.ts:36-48 | `createWeatherSummary`: those lines joined with line breaks; FormatterLayout.SummaryLines reads it back as exactly the seven lines |
| Formatter.TableRow | src/utils/formatter.ts:52-58 | the five cells of one record: location, temperature, humidity, wind speed and description, formatted; stated by FormatterLayout.RowCellsNoNewline and FormatterLayout.TableColumnAligned |
| Formatter.TableRows | src/utils/formatter.ts:52-58 | the `rows` map: one row per record, in input order; stated by FormatterLayout.TableRecordLine and FormatterLayout.TableLineCount |
| Formatter.TableWidths | src/utils/formatter.ts:60-63 | `maxLengths` for the weather table; stated by Formatter.ColumnWidths, FormatterLayout.HeadersFit and FormatterExamples.LondonWidths |
| Formatter.FormatRow | src/utils/formatter.ts:65-67 | `formatRow`: cells padded to their widths and joined with the three-character column separator (space, bar, space); stated by FormatterLayout.FormatRowLength and FormatterLayout.FormatRowAt |
| Formatter.Separator | src/utils/formatter.ts:69 | `separator`: one dash run per width, joined with "-+-"; stated by FormatterLayout.SeparatorLength, FormatterLayout.SeparatorChars and FormatterLayout.SeparatorAt |
| Formatter.TableLines | src/utils/formatter.ts:71-75 | the header row, the separator, then one formatted row per record; stated by FormatterLayout.GridLineLength, FormatterLayout.GridLineCount and FormatterLayout.GridColumnAt |
| Formatter.CreateTableFormat | src/utils/formatter.ts:50-76 | `createTableFormat`: the table lines joined with line breaks; stated by FormatterLayout.TableLineCount, FormatterLayout.TableLinesSameLength and FormatterLayout.TableColumnAligned |
| FormatterLayout.SummaryLines | src/utils/formatter.ts:36-48 | the summary splits back into exactly seven lines: Location, Temperature, Humidity, Wind Speed, Pressure, Conditions, Updated, each its fixed label followed by the formatted field |
| FormatterLayout.LabelsNoNewline | src/utils/formatter.ts:38-44 | none of the seven summary labels holds a line break |
| FormatterLayout.SummaryLineNoNewline | src/utils/formatter.ts:37-45 | each summary line is a single line when the location, number texts, description and relative time are |
| FormatterLayout.PadCellsLengths | src/utils/formatter.ts:66 | every padded cell of a row that fits has exactly its column's width |
| FormatterLayout.FormatRowLength | src/utils/formatter.ts:65-67 | a formatted row that fits is as long as the widths together plus three characters per column boundary |
| FormatterLayout.SeparatorLength | src/utils/formatter.ts:69 | the separator is as long as the widths together plus three characters per column boundary |
| FormatterLayout.SeparatorChars | src/utils/formatter.ts:69 | the separator holds only '-' and '+' characters |
| FormatterLayout.FormatRowAt | src/utils/formatter.ts:65-67 | cell i of a formatted row sits at column i's offset, padded to its width, and the three-character column separator follows it up to the next column |
| FormatterLayout.SeparatorAt | src/utils/formatter.ts:69 | column i of the separator is a dash run of its width at column i's offset, and "-+-" follows it up to the next column |
| FormatterLayout.GridLineLength | src/utils/formatter.ts:65-75 | in any table whose cells fit the widths, each line is as long as the widths together plus three characters per column boundary |
| FormatterLayout.GridLineNoNewline | src/utils/formatter.ts:65-75 | in any table of single-line cells, no line holds a line break |
| FormatterLayout.GridLineCount | src/utils/formatter.ts:71-75 | any table of single-line cells splits back on line breaks into exactly its lines |
| FormatterLayout.GridColumnAt | src/utils/formatter.ts:60-75 | in line j of any table whose cells fit, column i starts at the column offset and spans the column width, holding the padded header, a dash run, or row j − 2's padded cell |
| FormatterLayout.HeadersFit | src/utils/formatter.ts:51-63 | the header row and every record row have five cells, none longer than its column's width |
| FormatterLayout.TableRecordLine | src/utils/formatter.ts:71-75 | line k + 2 of the table is record k's row, formatted with the table's widths |
| FormatterLayout.TableLinesSameLength | src/utils/formatter.ts:65-75 | the header, the separator and every record row have the same length: the widths together plus 3·(5−1) |
| FormatterLayout.RowCellsNoNewline | src/utils/formatter.ts:52-58 | each of a record's five cells is a single line when its fields and number texts are |
| FormatterLayout.TableSingleLine | src/utils/formatter.ts:51-58 | the headers and every cell of the weather table are single lines when every record's fields are |
| FormatterLayout.FormatRowNoNewline | src/utils/formatter.ts:65-67 | a row of single-line cells formats to a single line |
| FormatterLayout.SeparatorNoNewline | src/utils/formatter.ts:69 | the separator holds no line break |
| FormatterLayout.TableLineCount | src/utils/formatter.ts:52-75 | the table for N records splits back into exactly N + 2 lines: the header row, the separator, then record k's row at line k + 2, in input order |
| FormatterLayout.TableColumnAligned | src/utils/formatter.ts:60-75 | in every line j of the weather table, column i begins at the same offset and spans the column width: the padded header in line 0, dashes in line 1, record j − 2's padded cell below |
| FormatterExamples.TemperatureExamples | src/utils/formatter.test.ts:7-13 | 25.5 metric renders as "25.5°C" and 77.9 imperial as "77.9°F" |
| FormatterExamples.HumidityExample | src/utils/formatter.test.ts:19-20 | 65 renders as "65%" |
| FormatterExamples.WindSpeedExamples | src/utils/formatter.test.ts:26-32 | 5.2 metric renders as "5.2 m/s" and 12.5 imperial as "12.5 mph" |
| FormatterExamples.CapitalizeExample | src/utils/formatter.test.ts:38-39 | "partly cloudy" becomes "Partly cloudy" |
| FormatterExamples.LondonLines | src/utils/formatter.test.ts:45-62 | the London test record's first six summary lines are exactly the six texts the test looks for; the seventh is the Updated label followed by the relative-time text |
| FormatterExamples.LondonSummary | src/utils/formatter.test.ts:45-62 | the London test record's summary splits back into exactly seven lines: the six texts the test looks for, then the Updated line |
| FormatterExamples.LondonWidths | src/utils/formatter.test.ts:45-53 | the London record's table has column widths 8, 6, 8, 7 and 13 |
| WeatherService.ResolveApiKey | src/services/weatherService.ts:19 | the key sent is never empty: it is the configured key when one is present and non-empty, and "demo" otherwise |
| WeatherService.WeatherRequest | src/services/weatherService.ts:14-21 | the request goes to the base URL's /weather endpoint with q set to the location, units set to the configured system's name and a non-empty appid that falls back to "demo" |
| WeatherService.FirstDescription | src/services/weatherService.ts:39 | the description is never empty: it is the first condition's description when there is one and it is non-empty, and "Unknown" otherwise |
| WeatherService.TransformApiResponse | src/services/weatherService.ts:34-44 | location, temperature, humidity, wind speed and pressure pass through unchanged, the description follows the "Unknown" fallback, and the timestamp is dt · 1000 |
| WeatherService.TimestampSeconds | src/services/weatherService.ts:42 | the millisecond timestamp is a whole number of seconds, and dividing it by 1000 gives dt back |
| WeatherService.UnknownDescriptionExactly | src/services/weatherService.ts:39 | the description is "Unknown" exactly when there is no first condition or its description is empty or "Unknown" |
| WeatherService.ProviderMessage | src/services/weatherService.ts:28 | the provider message is present exactly when the response, its data and its message are all present, and it is that message |
| WeatherService.ErrorMessage | src/services/weatherService.ts:26-31 | a message starts with "Weather API error: " exactly when the error came from the HTTP client; the rest is the provider's message when present and non-empty, and the client's own message otherwise; any other error gives exactly "Failed to fetch weather data" |
| WeatherService.GetWeatherData | src/services/weatherService.ts:12-32 | one location succeeds exactly when the call returns a readable payload, and its result is then that payload transformed; a thrown error yields its chosen message, and an unreadable payload yields the generic one |
| WeatherService.All | src/services/weatherService.ts:48 | the combination succeeds exactly when every result does, and then holds every value in order; otherwise it fails with the error of one of the failed results |
| WeatherService.GetWeatherForMultipleLocations | src/services/weatherService.ts:46-49 | several locations succeed exactly when each location's fetch does; the result then has one record per location in input order, each that location's fetch result; otherwise its error is that of one failing location |
| WeatherService.ProviderErrorExample | src/services/weatherService.ts:28 | a 404 whose body says "city not found" gives "Weather API error: city not found" |
| WeatherService.TimestampExample | src/services/weatherService.ts:42 | a payload time of 1701432000 seconds gives the timestamp 1701432000000 ms |

## Left out

- `formatDateTime` and `formatRelativeTime` (src/utils/formatter.ts:11-17) are thin `dayjs` wrappers that depend on the time zone and the wall clock. The summary takes the relative-time text as a plain string argument.
- The `relativeTime` plugin is never loaded: formatter.ts has no `dayjs.extend` (lines 1-3). As written, `fromNow` (line 16) is not a function, so `createWeatherSummary` throws at line 44. The model assumes the relative-time text is given and does not model that failure.
- Formatter.MaxLength is total. `Math.max(...spread)` at src/utils/formatter.ts:62 throws a `RangeError` once there are more records than the engine accepts as call arguments. That limit is engine-specific and is not modelled.
- `toFixed(1)` and the JavaScript number-to-string conversion are floating-point rendering. They stay uninterpreted, as `NumberText`, and only the text around them is verified. Numbers are `real`, so floating-point rounding is not modelled.
- The `axios` request, the network and the asynchronous execution are not modelled. The HTTP call is the `Fetch` argument, and requests are treated as independent values.
- WeatherService.GetWeatherForMultipleLocations: `Promise.all` rejects with whichever failure settles first. That depends on completion order, so the contract says only that the error is the message of some failing location. The body happens to pick the first failing location in input order.
- `axios.isAxiosError` is not modelled as a test on a value. The two kinds of thrown error are separate constructors of `FetchError`.
- A payload field of an unexpected type (for example a non-string provider message) is not modelled. A payload the transform cannot read at all is the `Malformed` body.
- WeatherService.TransformApiResponse: the timestamp is the integer dt · 1000. The source's floating-point product and a `Date` out of its range, which would be invalid, are not modelled.
- Text.ToLower: case mapping covers ASCII letters only. JavaScript's full Unicode lower-casing is not modelled, including letters whose lower-case form differs in length, such as "İ".
- Text.UpperFirst: only an ASCII first letter is upper-cased. JavaScript upper-cases any letter, and some change length, such as "ß" becoming "SS".
- Formatter.FormatWeatherDescription: built from Text.ToLower and Text.UpperFirst, so it has the same ASCII-only case mapping. Its length-preservation clause holds only under that restriction.
- Formatter.CapitalizedOutput: holds only under the ASCII case mapping. In JavaScript `capitalize("ß")` is "SS", whose second letter is upper-case.
- Formatter.CapitalizeFixpoint: holds only under the ASCII case mapping. "AÉ" is capitalised in the model's sense, since "É" is not an ASCII upper-case letter, yet JavaScript formats it as "Aé". Likewise "ß" meets the predicate but formats to "SS".
- Formatter.CapitalizeIdempotent: holds only under the ASCII case mapping. In JavaScript "ß" formats to "SS", and "SS" formats to "Ss", so formatting twice differs from formatting once.
- Only the two typed unit values are modelled: `WeatherTypes.Units` has just `Metric` and `Imperial`. The commands cast the unchecked `--units` option with `as 'metric' | 'imperial'` (src/cli/commands.ts:27, 47, 67, 69), and the formatter treats every value other than 'metric' as imperial (src/utils/formatter.ts:7, 24). So `--units kelvin` prints °F and mph. A two-valued `Units` cannot express such a value.
- Text.PadEnd: string lengths count Unicode scalar values. JavaScript counts UTF-16 code units, so the two agree only on text without characters outside the Basic Multilingual Plane. The emoji in the summary labels fall outside it, but no width is computed from those labels.
- The command-line layer, colouring and console output (src/cli/commands.ts, src/index.ts) are outside the core. `WeatherService`'s only state, its configuration, is set once in the constructor, so it is a function argument.
