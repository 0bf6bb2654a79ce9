/** The weather formatter: per-field display strings, the seven-line
    summary and the comparison table. Every operation is a pure function of
    its inputs; the number-to-text conversions are a parameter. */
module Formatter {
  import opened Wrappers
  import opened Text
  import opened WeatherTypes

  /** The two number-to-text conversions the formatter relies on and this
      model leaves uninterpreted: `n.toFixed(1)` and the template-literal
      rendering `${n}`. */
  datatype NumberText = NumberText(fixed1: real -> string, plain: real -> string)

  predicate NoNewline(s: string)
  {
    '\n' !in s
  }

  // ---------------------------------------------------------------------
  // Scalar formatters

  function TemperatureSymbol(units: Units): string
  {
    if units == Metric then "°C" else "°F"
  }

  function FormatTemperature(nt: NumberText, temp: real, units: Units): string
  {
    nt.fixed1(temp) + TemperatureSymbol(units)
  }

  function WindSpeedUnit(units: Units): string
  {
    if units == Metric then "m/s" else "mph"
  }

  function FormatWindSpeed(nt: NumberText, speed: real, units: Units): string
  {
    nt.fixed1(speed) + " " + WindSpeedUnit(units)
  }

  function FormatPressure(nt: NumberText, pressure: real): string
  {
    nt.plain(pressure) + " hPa"
  }

  function FormatHumidity(nt: NumberText, humidity: real): string
  {
    nt.plain(humidity) + "%"
  }

  /** lodash `capitalize`: the first character upper-cased and every other
      character lower-cased. */
  function FormatWeatherDescription(description: string): (r: string)
    ensures |r| == |description|
    ensures |r| > 0 ==> r[0] == UpperChar(description[0])
    ensures forall k :: 0 < k < |r| ==> r[k] == LowerChar(description[k])
  {
    UpperFirst(ToLower(description))
  }

  /** The temperature text is the one-decimal number followed by exactly
      the symbol of its unit system, and by no other unit's symbol. */
  lemma TemperatureRoundTrip(nt: NumberText, temp: real, units: Units, other: Units)
    ensures StripSuffix(FormatTemperature(nt, temp, units), TemperatureSymbol(units)) == Some(nt.fixed1(temp))
    ensures other != units ==> StripSuffix(FormatTemperature(nt, temp, units), TemperatureSymbol(other)) == None
  {
    var s := FormatTemperature(nt, temp, units);
    assert s[..|nt.fixed1(temp)|] == nt.fixed1(temp);
    assert s[|s| - 2..] == TemperatureSymbol(units);
  }

  /** The wind text is the one-decimal number, a space and exactly the
      speed unit of its unit system. */
  lemma WindSpeedRoundTrip(nt: NumberText, speed: real, units: Units, other: Units)
    ensures StripSuffix(FormatWindSpeed(nt, speed, units), " " + WindSpeedUnit(units)) == Some(nt.fixed1(speed))
    ensures other != units ==> StripSuffix(FormatWindSpeed(nt, speed, units), " " + WindSpeedUnit(other)) == None
  {
    var s := FormatWindSpeed(nt, speed, units);
    assert s == nt.fixed1(speed) + (" " + WindSpeedUnit(units));
    assert s[|s| - 1] == WindSpeedUnit(units)[2];
    assert s[..|nt.fixed1(speed)|] == nt.fixed1(speed);
    assert s[|s| - 4..] == " " + WindSpeedUnit(units);
  }

  /** The pressure text is the number followed by " hPa". */
  lemma PressureRoundTrip(nt: NumberText, pressure: real)
    ensures StripSuffix(FormatPressure(nt, pressure), " hPa") == Some(nt.plain(pressure))
  {
    var s := FormatPressure(nt, pressure);
    assert s[..|nt.plain(pressure)|] == nt.plain(pressure);
    assert s[|s| - 4..] == " hPa";
  }

  /** The humidity text is the number followed by "%". */
  lemma HumidityRoundTrip(nt: NumberText, humidity: real)
    ensures StripSuffix(FormatHumidity(nt, humidity), "%") == Some(nt.plain(humidity))
  {
    var s := FormatHumidity(nt, humidity);
    assert s[..|nt.plain(humidity)|] == nt.plain(humidity);
    assert s[|s| - 1..] == "%";
  }

  /** What lodash `capitalize` produces: no lower-case letter first and no
      upper-case letter after it. */
  predicate IsCapitalized(s: string)
  {
    (|s| > 0 ==> !IsLower(s[0])) && forall k :: 0 < k < |s| ==> !IsUpper(s[k])
  }

  lemma CapitalizedOutput(description: string)
    ensures IsCapitalized(FormatWeatherDescription(description))
  {
  }

  /** The description formatter leaves a string unchanged exactly when it
      is already capitalized. */
  lemma CapitalizeFixpoint(s: string)
    ensures FormatWeatherDescription(s) == s <==> IsCapitalized(s)
  {
    var r := FormatWeatherDescription(s);
    if IsCapitalized(s) {
      assert forall k :: 0 <= k < |s| ==> r[k] == s[k];
    }
  }

  lemma CapitalizeIdempotent(s: string)
    ensures FormatWeatherDescription(FormatWeatherDescription(s)) == FormatWeatherDescription(s)
  {
    CapitalizedOutput(s);
    CapitalizeFixpoint(FormatWeatherDescription(s));
  }

  /** A newline-free description stays newline-free. */
  lemma DescriptionNoNewline(description: string)
    requires NoNewline(description)
    ensures NoNewline(FormatWeatherDescription(description))
  {
    var r := FormatWeatherDescription(description);
    assert forall k :: 0 <= k < |r| ==> r[k] != '\n';
  }

  // ---------------------------------------------------------------------
  // The seven-line summary

  const LocationLabel: string := "\U{1F4CD} Location: "
  const TemperatureLabel: string := "\U{1F321}\U{FE0F}  Temperature: "
  const HumidityLabel: string := "\U{1F4A7} Humidity: "
  const WindSpeedLabel: string := "\U{1F32C}\U{FE0F}  Wind Speed: "
  const PressureLabel: string := "\U{1F4CA} Pressure: "
  const ConditionsLabel: string := "\U{2601}\U{FE0F}  Conditions: "
  const UpdatedLabel: string := "\U{1F550} Updated: "

  /** The seven lines of the summary, in order. */
  function SummaryLineList(nt: NumberText, data: WeatherData, units: Units, updated: string): seq<string>
  {
    [
      LocationLabel + data.location,
      TemperatureLabel + FormatTemperature(nt, data.temperature, units),
      HumidityLabel + FormatHumidity(nt, data.humidity),
      WindSpeedLabel + FormatWindSpeed(nt, data.windSpeed, units),
      PressureLabel + FormatPressure(nt, data.pressure),
      ConditionsLabel + FormatWeatherDescription(data.description),
      UpdatedLabel + updated
    ]
  }

  /** `updated` is the relative-time text for `data.timestamp`. */
  function CreateWeatherSummary(nt: NumberText, data: WeatherData, units: Units, updated: string): string
  {
    Join(SummaryLineList(nt, data, units, updated), "\n")
  }

  // ---------------------------------------------------------------------
  // The comparison table

  const Headers: seq<string> := ["Location", "Temp", "Humidity", "Wind", "Conditions"]

  /** The five cells of one record's row. */
  function TableRow(nt: NumberText, data: WeatherData, units: Units): seq<string>
  {
    [
      data.location,
      FormatTemperature(nt, data.temperature, units),
      FormatHumidity(nt, data.humidity),
      FormatWindSpeed(nt, data.windSpeed, units),
      FormatWeatherDescription(data.description)
    ]
  }

  function TableRows(nt: NumberText, records: seq<WeatherData>, units: Units): seq<seq<string>>
  {
    seq(|records|, k requires 0 <= k < |records| => TableRow(nt, records[k], units))
  }

  /** `Math.max(...cells.map(c => c.length))`. */
  function MaxLength(cells: seq<string>): (m: nat)
    requires |cells| > 0
    ensures forall k :: 0 <= k < |cells| ==> |cells[k]| <= m
    ensures exists k :: 0 <= k < |cells| && |cells[k]| == m
  {
    if |cells| == 1 then |cells[0]|
    else
      var m' := MaxLength(cells[1..]);
      if |cells[0]| >= m' then |cells[0]| else m'
  }

  /** Every row has one cell per header. */
  predicate Rectangular(headers: seq<string>, rows: seq<seq<string>>)
  {
    forall k :: 0 <= k < |rows| ==> |rows[k]| == |headers|
  }

  /** Cell `i` of every row. */
  function Column(rows: seq<seq<string>>, i: nat): seq<string>
    requires forall k :: 0 <= k < |rows| ==> i < |rows[k]|
  {
    seq(|rows|, k requires 0 <= k < |rows| => rows[k][i])
  }

  /** `Math.max` over the lengths of header `i` and of cell `i` of every
      row: no shorter than any of them, and as long as one of them. */
  function ColumnWidth(headers: seq<string>, rows: seq<seq<string>>, i: nat): (w: nat)
    requires Rectangular(headers, rows) && i < |headers|
    ensures |headers[i]| <= w
    ensures forall k :: 0 <= k < |rows| ==> |rows[k][i]| <= w
    ensures w == |headers[i]| || exists k :: 0 <= k < |rows| && w == |rows[k][i]|
  {
    var cells := [headers[i]] + Column(rows, i);
    assert cells[0] == headers[i];
    assert forall k :: 0 <= k < |rows| ==> cells[k + 1] == rows[k][i];
    var w := MaxLength(cells);
    assert w != |headers[i]| ==> exists k :: 1 <= k < |cells| && w == |cells[k]|;
    w
  }

  /** The width of every column of the table. */
  function ColumnWidths(headers: seq<string>, rows: seq<seq<string>>): (ws: seq<nat>)
    requires Rectangular(headers, rows)
    ensures |ws| == |headers|
    ensures forall i :: 0 <= i < |ws| ==> ws[i] == ColumnWidth(headers, rows, i)
  {
    seq(|headers|, i requires 0 <= i < |headers| => ColumnWidth(headers, rows, i))
  }

  /** Each cell padded to its column's width. */
  function PadCells(row: seq<string>, ws: seq<nat>): seq<string>
    requires |row| == |ws|
  {
    seq(|row|, i requires 0 <= i < |row| => PadEnd(row[i], ws[i]))
  }

  /** `formatRow`. */
  function FormatRow(row: seq<string>, ws: seq<nat>): string
    requires |row| == |ws|
  {
    Join(PadCells(row, ws), " | ")
  }

  function Dashes(ws: seq<nat>): seq<string>
  {
    seq(|ws|, i requires 0 <= i < |ws| => Repeat('-', ws[i]))
  }

  function Separator(ws: seq<nat>): string
  {
    Join(Dashes(ws), "-+-")
  }

  /** Header row, separator, then one row per record in input order. */
  function TableLines(headers: seq<string>, rows: seq<seq<string>>, ws: seq<nat>): seq<string>
    requires Rectangular(headers, rows) && |ws| == |headers|
  {
    [FormatRow(headers, ws), Separator(ws)] + seq(|rows|, k requires 0 <= k < |rows| => FormatRow(rows[k], ws))
  }

  function TableWidths(nt: NumberText, records: seq<WeatherData>, units: Units): (ws: seq<nat>)
  {
    ColumnWidths(Headers, TableRows(nt, records, units))
  }

  function CreateTableFormat(nt: NumberText, records: seq<WeatherData>, units: Units): string
  {
    var rows := TableRows(nt, records, units);
    Join(TableLines(Headers, rows, ColumnWidths(Headers, rows)), "\n")
  }
}
