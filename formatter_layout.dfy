/** Layout facts about the summary and the table: how many lines they
    have, what each line holds, and how the table's columns line up. */
module FormatterLayout {
  import opened Text
  import opened WeatherTypes
  import opened Formatter

  /** None of the texts a summary is built from holds a line break. */
  predicate SummaryFieldsSingleLine(nt: NumberText, data: WeatherData, units: Units, updated: string)
  {
    && NoNewline(data.location)
    && NoNewline(nt.fixed1(data.temperature))
    && NoNewline(nt.plain(data.humidity))
    && NoNewline(nt.fixed1(data.windSpeed))
    && NoNewline(nt.plain(data.pressure))
    && NoNewline(data.description)
    && NoNewline(updated)
  }

  lemma {:induction false} ConcatNoNewline(a: string, b: string)
    requires NoNewline(a) && NoNewline(b)
    ensures NoNewline(a + b)
  {
    assert forall j :: 0 <= j < |a + b| ==> (a + b)[j] in a || (a + b)[j] in b;
  }

  /** No summary label holds a line break. */
  lemma LabelsNoNewline()
    ensures NoNewline(LocationLabel) && NoNewline(TemperatureLabel) && NoNewline(HumidityLabel)
    ensures NoNewline(WindSpeedLabel) && NoNewline(PressureLabel) && NoNewline(ConditionsLabel)
    ensures NoNewline(UpdatedLabel)
  {
  }

  /** Summary line `k` is a single line when the texts it is built from are. */
  lemma {:induction false} SummaryLineNoNewline(nt: NumberText, data: WeatherData, units: Units, updated: string, k: nat)
    requires SummaryFieldsSingleLine(nt, data, units, updated) && k < 7
    ensures NoNewline(SummaryLineList(nt, data, units, updated)[k])
  {
    LabelsNoNewline();
    var lines := SummaryLineList(nt, data, units, updated);
    if k == 0 {
      ConcatNoNewline(LocationLabel, data.location);
    } else if k == 1 {
      ConcatNoNewline(nt.fixed1(data.temperature), TemperatureSymbol(units));
      ConcatNoNewline(TemperatureLabel, FormatTemperature(nt, data.temperature, units));
    } else if k == 2 {
      ConcatNoNewline(nt.plain(data.humidity), "%");
      ConcatNoNewline(HumidityLabel, FormatHumidity(nt, data.humidity));
    } else if k == 3 {
      ConcatNoNewline(nt.fixed1(data.windSpeed), " ");
      ConcatNoNewline(nt.fixed1(data.windSpeed) + " ", WindSpeedUnit(units));
      ConcatNoNewline(WindSpeedLabel, FormatWindSpeed(nt, data.windSpeed, units));
    } else if k == 4 {
      ConcatNoNewline(nt.plain(data.pressure), " hPa");
      ConcatNoNewline(PressureLabel, FormatPressure(nt, data.pressure));
    } else if k == 5 {
      DescriptionNoNewline(data.description);
      ConcatNoNewline(ConditionsLabel, FormatWeatherDescription(data.description));
    } else {
      ConcatNoNewline(UpdatedLabel, updated);
    }
  }

  /** The summary reads back as exactly seven lines, in the fixed order,
      each its label followed by the formatted field. */
  lemma {:induction false} SummaryLines(nt: NumberText, data: WeatherData, units: Units, updated: string)
    requires SummaryFieldsSingleLine(nt, data, units, updated)
    ensures Split(CreateWeatherSummary(nt, data, units, updated), '\n') == SummaryLineList(nt, data, units, updated)
    ensures var lines := Split(CreateWeatherSummary(nt, data, units, updated), '\n');
      && |lines| == 7
      && lines[0] == LocationLabel + data.location
      && lines[1] == TemperatureLabel + FormatTemperature(nt, data.temperature, units)
      && lines[2] == HumidityLabel + FormatHumidity(nt, data.humidity)
      && lines[3] == WindSpeedLabel + FormatWindSpeed(nt, data.windSpeed, units)
      && lines[4] == PressureLabel + FormatPressure(nt, data.pressure)
      && lines[5] == ConditionsLabel + FormatWeatherDescription(data.description)
      && lines[6] == UpdatedLabel + updated
  {
    var lines := SummaryLineList(nt, data, units, updated);
    forall k | 0 <= k < |lines| ensures '\n' !in lines[k] {
      SummaryLineNoNewline(nt, data, units, updated, k);
    }
    SplitJoin(lines, '\n');
  }

  /** Every cell fits within its column's width. */
  predicate Fits(row: seq<string>, ws: seq<nat>)
  {
    |row| == |ws| && forall i :: 0 <= i < |ws| ==> |row[i]| <= ws[i]
  }

  lemma {:induction false} PadCellsLengths(row: seq<string>, ws: seq<nat>)
    requires Fits(row, ws)
    ensures HasLengths(PadCells(row, ws), ws)
  {
  }

  /** A row of cells that fit is as long as the widths together plus three
      characters for each column boundary. */
  lemma {:induction false} FormatRowLength(row: seq<string>, ws: seq<nat>)
    requires Fits(row, ws) && |ws| > 0
    ensures |FormatRow(row, ws)| == Sum(ws) + 3 * (|ws| - 1)
  {
    PadCellsLengths(row, ws);
    JoinLength(PadCells(row, ws), " | ", ws);
  }

  lemma {:induction false} SeparatorLength(ws: seq<nat>)
    requires |ws| > 0
    ensures |Separator(ws)| == Sum(ws) + 3 * (|ws| - 1)
  {
    JoinLength(Dashes(ws), "-+-", ws);
  }

  /** The separator is made of dashes and plus signs only. */
  lemma {:induction false} SeparatorChars(ws: seq<nat>)
    ensures forall j :: 0 <= j < |Separator(ws)| ==> Separator(ws)[j] in {'-', '+'}
  {
    var p := (c: char) => c in {'-', '+'};
    forall k | 0 <= k < |ws| ensures AllChars(Dashes(ws)[k], p) {
    }
    assert AllChars("-+-", p);
    JoinAllChars(Dashes(ws), "-+-", p);
  }

  /** In a row of cells that fit, column `i` starts at the same offset in
      every row, holds the cell padded to the column's width, and is
      followed by " | " up to where the next column starts. */
  lemma {:induction false} FormatRowAt(row: seq<string>, ws: seq<nat>, i: nat)
    requires Fits(row, ws) && i < |ws|
    ensures Offset(ws, 3, i) + ws[i] <= |FormatRow(row, ws)|
    ensures FormatRow(row, ws)[Offset(ws, 3, i)..Offset(ws, 3, i) + ws[i]] == PadEnd(row[i], ws[i])
    ensures i + 1 < |ws| ==>
              && Offset(ws, 3, i + 1) == Offset(ws, 3, i) + ws[i] + 3
              && Offset(ws, 3, i + 1) <= |FormatRow(row, ws)|
              && FormatRow(row, ws)[Offset(ws, 3, i) + ws[i]..Offset(ws, 3, i + 1)] == " | "
  {
    PadCellsLengths(row, ws);
    JoinAt(PadCells(row, ws), " | ", ws, i);
    if i + 1 < |ws| {
      OffsetNext(ws, 3, i);
    }
  }

  /** In the separator, column `i` is a run of dashes as wide as the column,
      followed by "-+-" up to where the next column starts. */
  lemma {:induction false} SeparatorAt(ws: seq<nat>, i: nat)
    requires i < |ws|
    ensures Offset(ws, 3, i) + ws[i] <= |Separator(ws)|
    ensures Separator(ws)[Offset(ws, 3, i)..Offset(ws, 3, i) + ws[i]] == Repeat('-', ws[i])
    ensures i + 1 < |ws| ==>
              && Offset(ws, 3, i + 1) == Offset(ws, 3, i) + ws[i] + 3
              && Offset(ws, 3, i + 1) <= |Separator(ws)|
              && Separator(ws)[Offset(ws, 3, i) + ws[i]..Offset(ws, 3, i + 1)] == "-+-"
  {
    JoinAt(Dashes(ws), "-+-", ws, i);
    if i + 1 < |ws| {
      OffsetNext(ws, 3, i);
    }
  }

  /** The header row and every row fit the widths `ws`. */
  predicate GridFits(headers: seq<string>, rows: seq<seq<string>>, ws: seq<nat>)
  {
    Fits(headers, ws) && forall k :: 0 <= k < |rows| ==> Fits(rows[k], ws)
  }

  /** No header and no cell holds a line break. */
  predicate GridSingleLine(headers: seq<string>, rows: seq<seq<string>>)
  {
    && (forall i :: 0 <= i < |headers| ==> NoNewline(headers[i]))
    && (forall k, i :: 0 <= k < |rows| && 0 <= i < |rows[k]| ==> NoNewline(rows[k][i]))
  }

  // ---------------------------------------------------------------------
  // Any table whose cells fit its widths

  /** Every line of such a table is as long as the widths together plus
      three characters for each column boundary. */
  lemma {:induction false} GridLineLength(headers: seq<string>, rows: seq<seq<string>>, ws: seq<nat>, j: nat)
    requires Rectangular(headers, rows) && |ws| == |headers| > 0 && GridFits(headers, rows, ws)
    requires j < |rows| + 2
    ensures |TableLines(headers, rows, ws)[j]| == Sum(ws) + 3 * (|ws| - 1)
  {
    if j == 0 {
      FormatRowLength(headers, ws);
    } else if j == 1 {
      SeparatorLength(ws);
    } else {
      FormatRowLength(rows[j - 2], ws);
    }
  }

  /** No line of a table of single-line cells holds a line break. */
  lemma {:induction false} GridLineNoNewline(headers: seq<string>, rows: seq<seq<string>>, ws: seq<nat>, j: nat)
    requires Rectangular(headers, rows) && |ws| == |headers| && GridSingleLine(headers, rows)
    requires j < |rows| + 2
    ensures NoNewline(TableLines(headers, rows, ws)[j])
  {
    var lines := TableLines(headers, rows, ws);
    if j == 0 {
      assert lines[0] == FormatRow(headers, ws);
      FormatRowNoNewline(headers, ws);
    } else if j == 1 {
      assert lines[1] == Separator(ws);
      SeparatorNoNewline(ws);
    } else {
      var row := rows[j - 2];
      assert lines[j] == FormatRow(row, ws);
      assert forall i :: 0 <= i < |row| ==> NoNewline(row[i]);
      FormatRowNoNewline(row, ws);
    }
  }

  /** A table of single-line cells splits back into its lines. */
  lemma {:induction false} GridLineCount(headers: seq<string>, rows: seq<seq<string>>, ws: seq<nat>)
    requires Rectangular(headers, rows) && |ws| == |headers| && GridSingleLine(headers, rows)
    ensures Split(Join(TableLines(headers, rows, ws), "\n"), '\n') == TableLines(headers, rows, ws)
  {
    var lines := TableLines(headers, rows, ws);
    forall j | 0 <= j < |lines| ensures '\n' !in lines[j] {
      GridLineNoNewline(headers, rows, ws, j);
    }
    SplitJoin(lines, '\n');
  }

  /** In line `j`, column `i` starts at the column's offset and spans its
      width: the padded header, a dash run, or the padded cell of row
      `j - 2`. */
  lemma {:induction false} GridColumnAt(headers: seq<string>, rows: seq<seq<string>>, ws: seq<nat>, i: nat, j: nat)
    requires Rectangular(headers, rows) && |ws| == |headers| && GridFits(headers, rows, ws)
    requires i < |ws| && j < |rows| + 2
    ensures var line := TableLines(headers, rows, ws)[j];
      var start := Offset(ws, 3, i);
      && start + ws[i] <= |line|
      && line[start..start + ws[i]] == (if j == 0 then PadEnd(headers[i], ws[i])
                                        else if j == 1 then Repeat('-', ws[i])
                                        else PadEnd(rows[j - 2][i], ws[i]))
  {
    if j == 0 {
      FormatRowAt(headers, ws, i);
    } else if j == 1 {
      SeparatorAt(ws, i);
    } else {
      FormatRowAt(rows[j - 2], ws, i);
    }
  }

  // ---------------------------------------------------------------------
  // The weather table

  /** The header row and every record's row fit the computed widths. */
  lemma {:induction false} HeadersFit(nt: NumberText, records: seq<WeatherData>, units: Units)
    ensures |TableWidths(nt, records, units)| == 5
    ensures GridFits(Headers, TableRows(nt, records, units), TableWidths(nt, records, units))
  {
  }

  /** Line `k + 2` of the table is the row of record `k`. */
  lemma {:induction false} TableRecordLine(nt: NumberText, records: seq<WeatherData>, units: Units, k: nat)
    requires k < |records|
    ensures var ws := TableWidths(nt, records, units);
      TableLines(Headers, TableRows(nt, records, units), ws)[k + 2] == FormatRow(TableRow(nt, records[k], units), ws)
  {
    var rows := TableRows(nt, records, units);
    assert rows[k] == TableRow(nt, records[k], units);
  }

  /** Every line of the table (header, separator and each record row) is as
      long as the column widths together plus 3 for each of the four column
      boundaries. */
  lemma {:induction false} TableLinesSameLength(nt: NumberText, records: seq<WeatherData>, units: Units)
    ensures var ws := TableWidths(nt, records, units);
      var lines := TableLines(Headers, TableRows(nt, records, units), ws);
      forall j :: 0 <= j < |lines| ==> |lines[j]| == Sum(ws) + 12
  {
    var rows := TableRows(nt, records, units);
    var ws := TableWidths(nt, records, units);
    HeadersFit(nt, records, units);
    forall j | 0 <= j < |rows| + 2 ensures |TableLines(Headers, rows, ws)[j]| == Sum(ws) + 12 {
      GridLineLength(Headers, rows, ws, j);
    }
  }

  /** None of a record's table cells holds a line break. */
  predicate TableFieldsSingleLine(nt: NumberText, data: WeatherData, units: Units)
  {
    && NoNewline(data.location)
    && NoNewline(nt.fixed1(data.temperature))
    && NoNewline(nt.plain(data.humidity))
    && NoNewline(nt.fixed1(data.windSpeed))
    && NoNewline(data.description)
  }

  lemma {:induction false} FormatRowNoNewline(row: seq<string>, ws: seq<nat>)
    requires |row| == |ws|
    requires forall i :: 0 <= i < |row| ==> NoNewline(row[i])
    ensures NoNewline(FormatRow(row, ws))
  {
    var p := (c: char) => c != '\n';
    var cells := PadCells(row, ws);
    forall i | 0 <= i < |cells| ensures AllChars(cells[i], p) {
      var cell := PadEnd(row[i], ws[i]);
      forall j | 0 <= j < |cell| ensures p(cell[j]) {
        if j < |row[i]| {
          assert cell[j] == cell[..|row[i]|][j];
        }
      }
    }
    assert AllChars(" | ", p);
    JoinAllChars(cells, " | ", p);
    var s := FormatRow(row, ws);
    assert forall j :: 0 <= j < |s| ==> s[j] != '\n';
  }

  lemma {:induction false} SeparatorNoNewline(ws: seq<nat>)
    ensures NoNewline(Separator(ws))
  {
    SeparatorChars(ws);
  }

  /** A record with single-line fields has single-line cells. */
  lemma {:induction false} RowCellsNoNewline(nt: NumberText, data: WeatherData, units: Units)
    requires TableFieldsSingleLine(nt, data, units)
    ensures forall i :: 0 <= i < 5 ==> NoNewline(TableRow(nt, data, units)[i])
  {
    DescriptionNoNewline(data.description);
    ConcatNoNewline(nt.fixed1(data.temperature), TemperatureSymbol(units));
    ConcatNoNewline(nt.plain(data.humidity), "%");
    ConcatNoNewline(nt.fixed1(data.windSpeed), " ");
    ConcatNoNewline(nt.fixed1(data.windSpeed) + " ", WindSpeedUnit(units));
  }

  /** The weather table's headers and cells are single-line when every
      record's fields are. */
  lemma {:induction false} TableSingleLine(nt: NumberText, records: seq<WeatherData>, units: Units)
    requires forall k :: 0 <= k < |records| ==> TableFieldsSingleLine(nt, records[k], units)
    ensures GridSingleLine(Headers, TableRows(nt, records, units))
  {
    var rows := TableRows(nt, records, units);
    forall k, i | 0 <= k < |rows| && 0 <= i < |rows[k]| ensures NoNewline(rows[k][i]) {
      assert rows[k] == TableRow(nt, records[k], units);
      RowCellsNoNewline(nt, records[k], units);
    }
    assert forall i :: 0 <= i < 5 ==> NoNewline(Headers[i]);
  }

  /** The table reads back as exactly N + 2 lines for N records: the header
      row, the separator, then each record's row in input order. */
  lemma {:induction false} TableLineCount(nt: NumberText, records: seq<WeatherData>, units: Units)
    requires forall k :: 0 <= k < |records| ==> TableFieldsSingleLine(nt, records[k], units)
    ensures var ws := TableWidths(nt, records, units);
      var lines := Split(CreateTableFormat(nt, records, units), '\n');
      && |lines| == |records| + 2
      && lines[0] == FormatRow(Headers, ws)
      && lines[1] == Separator(ws)
      && forall k :: 0 <= k < |records| ==> lines[k + 2] == FormatRow(TableRow(nt, records[k], units), ws)
  {
    var rows := TableRows(nt, records, units);
    var ws := TableWidths(nt, records, units);
    var lines := TableLines(Headers, rows, ws);
    TableSingleLine(nt, records, units);
    GridLineCount(Headers, rows, ws);
    assert CreateTableFormat(nt, records, units) == Join(lines, "\n");
    forall k | 0 <= k < |records| ensures lines[k + 2] == FormatRow(TableRow(nt, records[k], units), ws) {
      TableRecordLine(nt, records, units, k);
    }
  }

  /** Column `i` lines up across the whole table: in every line `j` it
      begins at the column's offset and spans the column's width, holding
      the padded header in the header row, dashes in the separator, and the
      padded cell of record `j - 2` in every record row. */
  lemma {:induction false} TableColumnAligned(nt: NumberText, records: seq<WeatherData>, units: Units, i: nat, j: nat)
    requires i < 5 && j < |records| + 2
    ensures var ws := TableWidths(nt, records, units);
      var line := TableLines(Headers, TableRows(nt, records, units), ws)[j];
      var start := Offset(ws, 3, i);
      && start + ws[i] <= |line|
      && line[start..start + ws[i]] == (if j == 0 then PadEnd(Headers[i], ws[i])
                                        else if j == 1 then Repeat('-', ws[i])
                                        else PadEnd(TableRow(nt, records[j - 2], units)[i], ws[i]))
  {
    var rows := TableRows(nt, records, units);
    HeadersFit(nt, records, units);
    GridColumnAt(Headers, rows, TableWidths(nt, records, units), i, j);
    if j >= 2 {
      assert rows[j - 2] == TableRow(nt, records[j - 2], units);
    }
  }
}
