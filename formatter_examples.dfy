/** The formatter's own test cases, stated for every number-to-text
    conversion that renders the test's numbers as the test expects. */
module FormatterExamples {
  import opened Text
  import opened WeatherTypes
  import opened Formatter
  import opened FormatterLayout

  lemma TemperatureExamples(nt: NumberText)
    requires nt.fixed1(25.5) == "25.5" && nt.fixed1(77.9) == "77.9"
    ensures FormatTemperature(nt, 25.5, Metric) == "25.5°C"
    ensures FormatTemperature(nt, 77.9, Imperial) == "77.9°F"
  {
  }

  lemma HumidityExample(nt: NumberText)
    requires nt.plain(65.0) == "65"
    ensures FormatHumidity(nt, 65.0) == "65%"
  {
  }

  lemma WindSpeedExamples(nt: NumberText)
    requires nt.fixed1(5.2) == "5.2" && nt.fixed1(12.5) == "12.5"
    ensures FormatWindSpeed(nt, 5.2, Metric) == "5.2 m/s"
    ensures FormatWindSpeed(nt, 12.5, Imperial) == "12.5 mph"
  {
  }

  lemma CapitalizeExample()
    ensures FormatWeatherDescription("partly cloudy") == "Partly cloudy"
  {
    var r := FormatWeatherDescription("partly cloudy");
    assert forall k :: 0 <= k < |r| ==> r[k] == "Partly cloudy"[k];
  }

  /** The seven lines for the record of the formatter's own test,
      formatted in metric units. */
  lemma {:induction false} LondonLines(nt: NumberText, london: WeatherData, updated: string)
    requires london == WeatherData("London", 20.5, 65.0, "partly cloudy", 5.2, 1013.0, 1701432000000)
    requires nt.fixed1(20.5) == "20.5" && nt.fixed1(5.2) == "5.2"
    requires nt.plain(65.0) == "65" && nt.plain(1013.0) == "1013"
    ensures SummaryLineList(nt, london, Metric, updated) == [
      LocationLabel + "London",
      TemperatureLabel + "20.5°C",
      HumidityLabel + "65%",
      WindSpeedLabel + "5.2 m/s",
      PressureLabel + "1013 hPa",
      ConditionsLabel + "Partly cloudy",
      UpdatedLabel + updated]
  {
    CapitalizeExample();
    assert FormatTemperature(nt, london.temperature, Metric) == "20.5°C";
    assert FormatHumidity(nt, london.humidity) == "65%";
    assert FormatWindSpeed(nt, london.windSpeed, Metric) == "5.2 m/s";
    assert FormatPressure(nt, london.pressure) == "1013 hPa";
  }

  /** The summary of that record reads back as exactly those seven lines. */
  lemma LondonSummary(nt: NumberText, london: WeatherData, updated: string)
    requires london == WeatherData("London", 20.5, 65.0, "partly cloudy", 5.2, 1013.0, 1701432000000)
    requires nt.fixed1(20.5) == "20.5" && nt.fixed1(5.2) == "5.2"
    requires nt.plain(65.0) == "65" && nt.plain(1013.0) == "1013"
    requires NoNewline(updated)
    ensures Split(CreateWeatherSummary(nt, london, Metric, updated), '\n') == [
      LocationLabel + "London",
      TemperatureLabel + "20.5°C",
      HumidityLabel + "65%",
      WindSpeedLabel + "5.2 m/s",
      PressureLabel + "1013 hPa",
      ConditionsLabel + "Partly cloudy",
      UpdatedLabel + updated]
  {
    LondonLines(nt, london, updated);
    SummaryLines(nt, london, Metric, updated);
  }

  /** The widths the formatter's own test record gets: the header wins in
      the Location, Humidity columns, the cell in Temp, Wind and Conditions. */
  lemma LondonWidths(nt: NumberText)
    requires nt.fixed1(20.5) == "20.5" && nt.fixed1(5.2) == "5.2" && nt.plain(65.0) == "65"
    ensures TableWidths(nt, [WeatherData("London", 20.5, 65.0, "partly cloudy", 5.2, 1013.0, 1701432000000)], Metric)
            == [8, 6, 8, 7, 13]
  {
    var london := WeatherData("London", 20.5, 65.0, "partly cloudy", 5.2, 1013.0, 1701432000000);
    var rows := TableRows(nt, [london], Metric);
    assert rows == [TableRow(nt, london, Metric)];
    assert |FormatWeatherDescription("partly cloudy")| == 13;
  }
}
