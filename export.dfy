/** `exportToExcel`: the buckets and the nine report rows laid out as a
    worksheet of one description column, one column per active month and a
    yearly total, then formatted step by step. */
module Export {
  import opened Common
  import opened Records
  import opened Aggregation
  import opened Report
  import opened Sheet

  const SheetName: string := "Or\U{00E7}amento Familiar"
  const FileName: string := "or\U{00E7}amento.xlsx"
  const NoDataMessage: string := "N\U{00E3}o h\U{00E1} dados para exportar!"
  const DescHeader: string := "Descri\U{00E7}\U{00E3}o"
  const TotalHeader: string := "TOTAL ANO"

  /** The Brazilian-real number format; negative values in red. */
  const Currency: string := "R$ #,##0.00;[Red]-R$ #,##0.00"

  const HeaderBlue: string := "FF4F46E5"
  const LightGray: string := "FFF3F4F6"
  const White: string := "FFFFFFFF"

  const HeaderFont: Font := Font(true, White, 12)
  const Centered: Alignment := Alignment(Some(Center), Some(Middle))
  const RightMiddle: Alignment := Alignment(Some(Right), Some(Middle))
  const LeftOnly: Alignment := Alignment(Some(Left), None)

  const ThinEdge: Edge := Edge(Thin, "FFAAAAAA")
  const ThinBox: Border := Border(Some(ThinEdge), Some(ThinEdge), Some(ThinEdge), Some(ThinEdge))
  /** The heavier rule under the header: a bottom edge and nothing else. */
  const HeaderRule: Border := Border(None, None, Some(Edge(Thick, HeaderBlue)), None)

  /** What the export ends with: the alert when there is nothing to show, or
      the finished worksheet handed over under its file name. */
  datatype Outcome = NothingToExport(message: string) | Saved(sheet: Worksheet, fileName: string)

  /** `worksheet.columns`: the description, one column per active month keyed
      by its month key, and the yearly total. */
  function Columns(active: seq<nat>): (cols: seq<Column>)
    requires MonthList(active)
    ensures |cols| == |active| + 2
    ensures cols[0] == Column(DescHeader, "desc", 30, None)
    ensures forall i :: 0 <= i < |active| ==>
      cols[i + 1] == Column(MonthKeys[active[i]], MonthKeys[active[i]], 15, None)
    ensures cols[|active| + 1] == Column(TotalHeader, "total", 18, None)
  {
    [Column(DescHeader, "desc", 30, None)]
    + seq(|active|, i requires 0 <= i < |active| => Column(MonthKeys[active[i]], MonthKeys[active[i]], 15, None))
    + [Column(TotalHeader, "total", 18, None)]
  }

  /** Month columns of distinct months have distinct keys, and no month key
      is `desc` or `total`: `getColumn(key)` finds the column at the
      position the key was given. */
  lemma ColumnKeysDistinct(active: seq<nat>)
    requires MonthList(active) && Increasing(active)
    ensures forall i, j :: 0 <= i < j < |Columns(active)| ==> Columns(active)[i].key != Columns(active)[j].key
  {
    var cols := Columns(active);
    forall i, j | 0 <= i < j < |cols| ensures cols[i].key != cols[j].key {
      if 0 < i && j <= |active| {
        assert active[i - 1] < active[j - 1];
        MonthKeysDistinct(active[i - 1], active[j - 1]);
      } else if 0 < i {
        assert cols[i].key == MonthKeys[active[i - 1]];
      }
    }
  }

  /** `getColumn(key)` for the keys the export looks up: the only column
      with a month's key is that month's column, the only `total` column is
      the last and the only `desc` column is the first, so formatting the
      columns by position formats the columns the keys name. */
  lemma GetColumnFindsPosition(active: seq<nat>)
    requires MonthList(active) && Increasing(active)
    ensures forall i, k ::
      0 <= i < |active| && 0 <= k < |Columns(active)| && Columns(active)[k].key == MonthKeys[active[i]]
      ==> k == i + 1
    ensures forall k :: 0 <= k < |Columns(active)| && Columns(active)[k].key == "total" ==> k == |active| + 1
    ensures forall k :: 0 <= k < |Columns(active)| && Columns(active)[k].key == "desc" ==> k == 0
  {
    ColumnKeysDistinct(active);
  }

  lemma MonthKeysDistinct(m: nat, n: nat)
    requires m < n < 12
    ensures MonthKeys[m] != MonthKeys[n]
  {
    assert MonthKeys[m][0] != MonthKeys[n][0] || MonthKeys[m][1] != MonthKeys[n][1] || MonthKeys[m][2] != MonthKeys[n][2];
  }

  /** The header row's values. */
  function HeaderValues(cols: seq<Column>): seq<Value>
  {
    seq(|cols|, j requires 0 <= j < |cols| => Text(cols[j].header))
  }

  /** `addRow(dado)`: the description, the month values and the total, in the
      order of the columns. */
  function LineValues(l: Line): (v: seq<Value>)
    ensures |v| == |l.values| + 2
    ensures v[0] == Text(l.desc) && v[|v| - 1] == Number(l.total)
    ensures forall i :: 0 <= i < |l.values| ==> v[i + 1] == Number(l.values[i])
  {
    [Text(l.desc)] + seq(|l.values|, i requires 0 <= i < |l.values| => Number(l.values[i])) + [Number(l.total)]
  }

  /** `a` and `b` hold the same values in the same cells. */
  predicate SameValues(a: Worksheet, b: Worksheet)
  {
    |a.rows| == |b.rows| &&
    (forall q :: 0 <= q < |a.rows| ==> |a.rows[q].cells| == |b.rows[q].cells|) &&
    forall q, j :: 0 <= q < |a.rows| && 0 <= j < |a.rows[q].cells| ==>
      a.rows[q].cells[j].value == b.rows[q].cells[j].value
  }

  lemma SameRowValues(a: Worksheet, b: Worksheet)
    requires SameValues(a, b)
    ensures forall q :: 0 <= q < |a.rows| ==> RowValues(a.rows[q]) == RowValues(b.rows[q])
  {
    forall q | 0 <= q < |a.rows| ensures RowValues(a.rows[q]) == RowValues(b.rows[q]) {
      assert forall j :: 0 <= j < |a.rows[q].cells| ==> RowValues(a.rows[q])[j] == RowValues(b.rows[q])[j];
    }
  }

  /** Formatting a sheet built from `lines` leaves the header row showing
      the column headers and row `k + 1` showing line `k`. */
  lemma RowsShowLines(done: Worksheet, built: Worksheet, cols: seq<Column>, lines: seq<Line>)
    requires built.rows == [PlainRow(HeaderValues(cols))] + Stacked(lines, |lines|)
    requires SameValues(done, built)
    ensures |done.rows| == |lines| + 1
    ensures RowValues(done.rows[0]) == HeaderValues(cols)
    ensures forall k :: 0 <= k < |lines| ==> RowValues(done.rows[k + 1]) == LineValues(lines[k])
  {
    SameRowValues(done, built);
    assert RowValues(done.rows[0]) == RowValues(built.rows[0]);
    forall k | 0 <= k < |lines| ensures RowValues(done.rows[k + 1]) == LineValues(lines[k]) {
      assert built.rows[k + 1] == PlainRow(LineValues(lines[k]));
    }
  }

  /** A worksheet as it is before any formatting: a header row, as many
      cells in every row as there are columns, and no style anywhere. */
  predicate Unformatted(ws: Worksheet)
  {
    |ws.rows| > 0 && |ws.columns| > 0 && ws.views == [] &&
    (forall q :: 0 <= q < |ws.rows| ==> ws.rows[q].height == None && |ws.rows[q].cells| == |ws.columns|) &&
    forall q, j :: 0 <= q < |ws.rows| && 0 <= j < |ws.rows[q].cells| ==> ws.rows[q].cells[j].style == NoStyle
  }

  /** Creating the worksheet with its columns and adding `lines` below the
      header, unformatted. */
  method BuildSheet(cols: seq<Column>, lines: seq<Line>) returns (ws: Worksheet)
    requires |cols| > 0
    requires forall k :: 0 <= k < |lines| ==> |lines[k].values| + 2 == |cols|
    ensures ws.name == SheetName && ws.columns == cols
    ensures ws.rows == [PlainRow(HeaderValues(cols))] + Stacked(lines, |lines|)
    ensures Unformatted(ws)
  {
    ws := NewSheet(SheetName, cols);
    assert ws.rows == [PlainRow(HeaderValues(cols))];
    var k := 0;
    while k < |lines|
      invariant 0 <= k <= |lines|
      invariant ws.name == SheetName && ws.columns == cols && ws.views == []
      invariant ws.rows == [PlainRow(HeaderValues(cols))] + Stacked(lines, k)
    {
      ws := AddRow(ws, LineValues(lines[k]));
      assert Stacked(lines, k + 1) == Stacked(lines, k) + [PlainRow(LineValues(lines[k]))];
      k := k + 1;
    }
    assert Unformatted(ws) by {
      forall q | 0 <= q < |ws.rows| ensures |ws.rows[q].cells| == |cols| {
        if q > 0 {
          assert ws.rows[q] == PlainRow(LineValues(lines[q - 1]));
        }
      }
    }
  }

  /** The first `k` lines as unformatted rows. */
  function Stacked(lines: seq<Line>, k: nat): (rows: seq<Row>)
    requires k <= |lines|
    ensures |rows| == k && forall q :: 0 <= q < k ==> rows[q] == PlainRow(LineValues(lines[q]))
  {
    seq(k, q requires 0 <= q < k => PlainRow(LineValues(lines[q])))
  }

  /** The header row: bold white twelve-point font, centred, filled blue and
      taller; then the first row and column frozen. */
  method StyleHeader(ws: Worksheet) returns (r: Worksheet)
    requires |ws.rows| > 0
    ensures r.name == ws.name && r.columns == ws.columns && r.views == [Frozen(1, 1)]
    ensures SameValues(r, ws)
    ensures r.rows[0].height == Some(20)
    ensures forall q :: 1 <= q < |ws.rows| ==> r.rows[q] == ws.rows[q]
    ensures forall j :: 0 <= j < |ws.rows[0].cells| ==>
      r.rows[0].cells[j].style == ws.rows[0].cells[j].style.(
        font := Some(HeaderFont), alignment := Some(Centered), fill := Some(HeaderBlue))
  {
    r := RestyleRow(ws, 0, (s: Style) => s.(font := Some(HeaderFont)));
    r := RestyleRow(r, 0, (s: Style) => s.(alignment := Some(Centered)));
    r := RestyleRow(r, 0, (s: Style) => s.(fill := Some(HeaderBlue)));
    r := SetHeight(r, 0, 20);
    r := r.(views := [Frozen(1, 1)]);
  }

  /** The fill of row index `q` (row number `q + 1`) once the stripes are on:
      the header keeps its own, even row numbers are gray, odd ones white. */
  function StripeFill(q: nat, headerFill: Option<string>): Option<string>
  {
    if q == 0 then headerFill else if (q + 1) % 2 == 0 then Some(LightGray) else Some(White)
  }

  /** A cell's style once `eachRow` has passed over it: aligned right and
      middle unless it is the first cell, which is aligned left only; a thin
      gray border on all four sides; and the stripe fill of its row. */
  function Striped(s: Style, q: nat, j: nat): Style
  {
    s.(alignment := Some(if j == 0 then LeftOnly else RightMiddle), border := Some(ThinBox),
       fill := StripeFill(q, s.fill))
  }

  /** The `eachRow` callback on row index `n` (row number `n + 1`). */
  method StripeRow(ws: Worksheet, n: nat) returns (r: Worksheet)
    requires n < |ws.rows| && |ws.rows[n].cells| > 0
    ensures r.name == ws.name && r.columns == ws.columns && r.views == ws.views
    ensures |r.rows| == |ws.rows|
    ensures forall q :: 0 <= q < |ws.rows| && q != n ==> r.rows[q] == ws.rows[q]
    ensures r.rows[n].height == ws.rows[n].height && |r.rows[n].cells| == |ws.rows[n].cells|
    ensures forall j :: 0 <= j < |ws.rows[n].cells| ==>
      r.rows[n].cells[j] == ws.rows[n].cells[j].(style := Striped(ws.rows[n].cells[j].style, n, j))
  {
    r := RestyleRow(ws, n, (s: Style) => s.(alignment := Some(RightMiddle)));
    r := RestyleCell(r, n, 0, (s: Style) => s.(alignment := Some(LeftOnly)));
    r := RestyleRow(r, n, (s: Style) => s.(border := Some(ThinBox)));
    if n + 1 > 1 {
      var color := if (n + 1) % 2 == 0 then LightGray else White;
      r := RestyleRow(r, n, (s: Style) => s.(fill := Some(color)));
    }
  }

  /** `eachRow` over every row: the header keeps its fill, the rows below it
      alternate gray and white, and every cell gets its alignment and its
      thin border. */
  method StripeRows(ws: Worksheet) returns (r: Worksheet)
    requires forall q :: 0 <= q < |ws.rows| ==> |ws.rows[q].cells| > 0
    ensures r.name == ws.name && r.columns == ws.columns && r.views == ws.views
    ensures SameValues(r, ws)
    ensures forall q :: 0 <= q < |ws.rows| ==> r.rows[q].height == ws.rows[q].height
    ensures forall q, j :: 0 <= q < |ws.rows| && 0 <= j < |ws.rows[q].cells| ==>
      r.rows[q].cells[j].style == Striped(ws.rows[q].cells[j].style, q, j)
  {
    r := ws;
    var n := 0;
    while n < |r.rows|
      invariant 0 <= n <= |r.rows| == |ws.rows|
      invariant r.name == ws.name && r.columns == ws.columns && r.views == ws.views
      invariant SameValues(r, ws)
      invariant forall q :: 0 <= q < |ws.rows| ==> r.rows[q].height == ws.rows[q].height
      invariant forall q, j :: 0 <= q < n && 0 <= j < |ws.rows[q].cells| ==>
        r.rows[q].cells[j].style == Striped(ws.rows[q].cells[j].style, q, j)
      invariant forall q :: n <= q < |ws.rows| ==> r.rows[q] == ws.rows[q]
    {
      r := StripeRow(r, n);
      n := n + 1;
    }
  }

  /** Giving every month column and the total column the currency format. */
  method FormatMoneyColumns(ws: Worksheet) returns (r: Worksheet)
    requires |ws.columns| >= 1
    ensures r.name == ws.name && r.views == ws.views
    ensures |r.columns| == |ws.columns| && r.columns[0] == ws.columns[0]
    ensures forall j :: 1 <= j < |ws.columns| ==> r.columns[j] == ws.columns[j].(numFmt := Some(Currency))
    ensures SameValues(r, ws)
    ensures forall q :: 0 <= q < |ws.rows| ==> r.rows[q].height == ws.rows[q].height
    ensures forall q, j :: 0 <= q < |ws.rows| && 0 <= j < |ws.rows[q].cells| ==>
      r.rows[q].cells[j].style ==
        if 1 <= j < |ws.columns| then ws.rows[q].cells[j].style.(numFmt := Some(Currency))
        else ws.rows[q].cells[j].style
  {
    r := ws;
    var j := 1;
    while j < |ws.columns|
      invariant 1 <= j <= |ws.columns|
      invariant r.name == ws.name && r.views == ws.views
      invariant |r.columns| == |ws.columns| && r.columns[0] == ws.columns[0]
      invariant forall k :: 1 <= k < j ==> r.columns[k] == ws.columns[k].(numFmt := Some(Currency))
      invariant forall k :: j <= k < |ws.columns| ==> r.columns[k] == ws.columns[k]
      invariant SameValues(r, ws)
      invariant forall q :: 0 <= q < |ws.rows| ==> r.rows[q].height == ws.rows[q].height
      invariant forall q, k :: 0 <= q < |ws.rows| && 0 <= k < |ws.rows[q].cells| ==>
        r.rows[q].cells[k].style ==
          if 1 <= k < j then ws.rows[q].cells[k].style.(numFmt := Some(Currency))
          else ws.rows[q].cells[k].style
    {
      r := SetColumnFormat(r, j, Currency);
      j := j + 1;
    }
  }

  /** The final formatting of the cell in row index `q` and column `j`. */
  predicate FinalStyle(s: Style, q: nat, j: nat)
  {
    s.font == (if q == 0 then Some(HeaderFont) else None) &&
    s.alignment == Some(if j == 0 then LeftOnly else RightMiddle) &&
    s.fill == Some(if q == 0 then HeaderBlue else if (q + 1) % 2 == 0 then LightGray else White) &&
    s.border == Some(if q == 0 then HeaderRule else ThinBox) &&
    s.numFmt == (if j == 0 then None else Some(Currency))
  }

  /** The content of the finished worksheet for the buckets `b`. */
  predicate Laid(ws: Worksheet, b: Buckets)
    requires WellShaped(b)
  {
    var active := ActiveMonths(b);
    ws.name == SheetName &&
    |ws.columns| == |active| + 2 &&
    ws.columns[0] == Column(DescHeader, "desc", 35, None) &&
    (forall i :: 0 <= i < |active| ==>
      ws.columns[i + 1] == Column(MonthKeys[active[i]], MonthKeys[active[i]], 15, Some(Currency))) &&
    ws.columns[|active| + 1] == Column(TotalHeader, "total", 18, Some(Currency)) &&
    |ws.rows| == 10 &&
    RowValues(ws.rows[0]) == HeaderValues(Columns(active)) &&
    forall k :: 0 <= k < 9 ==> RowValues(ws.rows[k + 1]) == LineValues(ReportLines(b, active)[k])
  }

  /** The columns and rows the export leaves are the content `Laid` names. */
  lemma FinishedIsLaid(ws: Worksheet, b: Buckets, active: seq<nat>, cols: seq<Column>, lines: seq<Line>)
    requires WellShaped(b) && active == ActiveMonths(b)
    requires cols == Columns(active) && lines == ReportLines(b, active)
    requires ws.name == SheetName && |ws.columns| == |cols|
    requires ws.columns[0] == cols[0].(width := 35)
    requires forall j :: 1 <= j < |cols| ==> ws.columns[j] == cols[j].(numFmt := Some(Currency))
    requires |ws.rows| == 10 && RowValues(ws.rows[0]) == HeaderValues(cols)
    requires forall k :: 0 <= k < 9 ==> RowValues(ws.rows[k + 1]) == LineValues(lines[k])
    ensures Laid(ws, b)
  {
    assert ws.columns[|active| + 1] == cols[|active| + 1].(numFmt := Some(Currency));
  }

  /** The formatting of the finished worksheet. */
  predicate Styled(ws: Worksheet)
  {
    ws.views == [Frozen(1, 1)] &&
    |ws.rows| > 0 && ws.rows[0].height == Some(20) &&
    (forall q :: 1 <= q < |ws.rows| ==> ws.rows[q].height == None) &&
    forall q, j :: 0 <= q < |ws.rows| && 0 <= j < |ws.rows[q].cells| ==>
      FinalStyle(ws.rows[q].cells[j].style, q, j)
  }

  /** The formatting that follows the rows: the header style and the frozen
      panes, the stripes and borders of every row, the currency format of
      every column after the first, the wider description column and the
      heavier rule under the header. */
  method FormatSheet(ws: Worksheet) returns (r: Worksheet)
    requires Unformatted(ws)
    ensures r.name == ws.name && SameValues(r, ws)
    ensures |r.columns| == |ws.columns| && r.columns[0] == ws.columns[0].(width := 35)
    ensures forall j :: 1 <= j < |ws.columns| ==> r.columns[j] == ws.columns[j].(numFmt := Some(Currency))
    ensures Styled(r)
  {
    var headed := StyleHeader(ws);
    var striped := StripeRows(headed);
    var formatted := FormatMoneyColumns(striped);
    formatted := SetColumnWidth(formatted, 0, 35);
    r := RestyleRow(formatted, 0, (s: Style) => s.(border := Some(HeaderRule)));
    forall q, j | 0 <= q < |r.rows| && 0 <= j < |r.rows[q].cells|
      ensures FinalStyle(r.rows[q].cells[j].style, q, j)
    {
      var s0 := ws.rows[q].cells[j].style;
      assert s0 == NoStyle;
      var s1 := headed.rows[q].cells[j].style;
      assert s1 == if q == 0 then s0.(font := Some(HeaderFont), alignment := Some(Centered), fill := Some(HeaderBlue)) else s0;
      var s2 := striped.rows[q].cells[j].style;
      assert s2 == Striped(s1, q, j);
      var s3 := formatted.rows[q].cells[j].style;
      assert s3 == if 1 <= j then s2.(numFmt := Some(Currency)) else s2;
    }
  }

  /** `exportToExcel(transactions)`. */
  method ExportToExcel(txs: seq<Transaction>) returns (r: Outcome)
    ensures r.NothingToExport? <==> ActiveMonths(BucketsOf(txs)) == []
    ensures r.NothingToExport? ==> r.message == NoDataMessage
    ensures r.Saved? ==> r.fileName == FileName && Laid(r.sheet, BucketsOf(txs)) && Styled(r.sheet)
  {
    var b := Aggregate(txs);
    var active := ActiveMonths(b);
    if |active| == 0 {
      return NothingToExport(NoDataMessage);
    }
    var cols := Columns(active);
    var lines := ReportLines(b, active);
    var built := BuildSheet(cols, lines);
    var done := FormatSheet(built);
    RowsShowLines(done, built, cols, lines);
    FinishedIsLaid(done, b, active, cols, lines);
    r := Saved(done, FileName);
  }
}
