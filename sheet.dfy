/** The part of the spreadsheet library the export uses, as plain values:
    a worksheet is its columns, its rows of styled cells and its panes.
    Setting a style on a row or a column sets it on every cell it holds. */
module Sheet {
  import opened Common

  datatype Value = Text(text: string) | Number(number: real)

  datatype HAlign = Left | Center | Right
  datatype VAlign = Middle
  datatype Alignment = Alignment(horizontal: Option<HAlign>, vertical: Option<VAlign>)

  datatype LineStyle = Thin | Thick
  /** One side of a cell border: its style and ARGB colour. */
  datatype Edge = Edge(style: LineStyle, color: string)
  datatype Border = Border(top: Option<Edge>, left: Option<Edge>, bottom: Option<Edge>, right: Option<Edge>)

  datatype Font = Font(bold: bool, color: string, size: nat)

  /** A cell's formatting. `fill` is the ARGB colour of a solid pattern
      fill, the only kind of fill the export uses. */
  datatype Style = Style(
    font: Option<Font>, alignment: Option<Alignment>, fill: Option<string>,
    border: Option<Border>, numFmt: Option<string>)

  const NoStyle: Style := Style(None, None, None, None, None)

  datatype Cell = Cell(value: Value, style: Style)

  datatype Row = Row(cells: seq<Cell>, height: Option<nat>)

  datatype Column = Column(header: string, key: string, width: nat, numFmt: Option<string>)

  /** A view frozen after `xSplit` columns and `ySplit` rows. */
  datatype Pane = Frozen(xSplit: nat, ySplit: nat)

  /** Row `n` of `rows` is the sheet's row number `n + 1`. */
  datatype Worksheet = Worksheet(name: string, columns: seq<Column>, rows: seq<Row>, views: seq<Pane>)

  /** The values of a row, without their formatting. */
  function RowValues(row: Row): (v: seq<Value>)
    ensures |v| == |row.cells|
    ensures forall j :: 0 <= j < |v| ==> v[j] == row.cells[j].value
  {
    seq(|row.cells|, j requires 0 <= j < |row.cells| => row.cells[j].value)
  }

  /** Unformatted cells holding `values`. */
  function PlainRow(values: seq<Value>): (row: Row)
    ensures RowValues(row) == values && row.height == None
    ensures forall j :: 0 <= j < |row.cells| ==> row.cells[j].style == NoStyle
  {
    Row(seq(|values|, j requires 0 <= j < |values| => Cell(values[j], NoStyle)), None)
  }

  /** `addWorksheet(name)` followed by `columns = cols`: the columns, and a
      first row holding their headers. */
  function NewSheet(name: string, cols: seq<Column>): (ws: Worksheet)
    ensures ws.name == name && ws.columns == cols && ws.views == []
    ensures |ws.rows| == 1
    ensures RowValues(ws.rows[0]) == seq(|cols|, j requires 0 <= j < |cols| => Text(cols[j].header))
    ensures ws.rows[0].height == None
    ensures forall j :: 0 <= j < |ws.rows[0].cells| ==> ws.rows[0].cells[j].style == NoStyle
  {
    Worksheet(name, cols, [PlainRow(seq(|cols|, j requires 0 <= j < |cols| => Text(cols[j].header)))], [])
  }

  /** `addRow`: a new last row of unformatted cells. */
  function AddRow(ws: Worksheet, values: seq<Value>): (r: Worksheet)
    ensures r.name == ws.name && r.columns == ws.columns && r.views == ws.views
    ensures |r.rows| == |ws.rows| + 1 && r.rows[..|ws.rows|] == ws.rows
    ensures RowValues(r.rows[|ws.rows|]) == values && r.rows[|ws.rows|].height == None
    ensures forall j :: 0 <= j < |r.rows[|ws.rows|].cells| ==> r.rows[|ws.rows|].cells[j].style == NoStyle
  {
    ws.(rows := ws.rows + [PlainRow(values)])
  }

  /** Applies `f` to the style of every cell of row `n`: what the row setters
      `font`, `alignment`, `fill` and `eachCell` do. */
  function RestyleRow(ws: Worksheet, n: nat, f: Style -> Style): (r: Worksheet)
    requires n < |ws.rows|
    ensures r.name == ws.name && r.columns == ws.columns && r.views == ws.views
    ensures |r.rows| == |ws.rows|
    ensures forall q :: 0 <= q < |ws.rows| && q != n ==> r.rows[q] == ws.rows[q]
    ensures r.rows[n].height == ws.rows[n].height && |r.rows[n].cells| == |ws.rows[n].cells|
    ensures forall j :: 0 <= j < |ws.rows[n].cells| ==>
      r.rows[n].cells[j] == ws.rows[n].cells[j].(style := f(ws.rows[n].cells[j].style))
  {
    var row := ws.rows[n];
    var cells := seq(|row.cells|, j requires 0 <= j < |row.cells| =>
      row.cells[j].(style := f(row.cells[j].style)));
    ws.(rows := ws.rows[n := row.(cells := cells)])
  }

  /** Applies `f` to the style of cell `j` of row `n`: `getCell(j + 1)`. */
  function RestyleCell(ws: Worksheet, n: nat, j: nat, f: Style -> Style): (r: Worksheet)
    requires n < |ws.rows| && j < |ws.rows[n].cells|
    ensures r.name == ws.name && r.columns == ws.columns && r.views == ws.views
    ensures |r.rows| == |ws.rows|
    ensures forall q :: 0 <= q < |ws.rows| && q != n ==> r.rows[q] == ws.rows[q]
    ensures r.rows[n].height == ws.rows[n].height && |r.rows[n].cells| == |ws.rows[n].cells|
    ensures forall k :: 0 <= k < |ws.rows[n].cells| && k != j ==> r.rows[n].cells[k] == ws.rows[n].cells[k]
    ensures r.rows[n].cells[j] == ws.rows[n].cells[j].(style := f(ws.rows[n].cells[j].style))
  {
    var row := ws.rows[n];
    var cell := row.cells[j];
    ws.(rows := ws.rows[n := row.(cells := row.cells[j := cell.(style := f(cell.style))])])
  }

  /** The row setter `height`. */
  function SetHeight(ws: Worksheet, n: nat, h: nat): (r: Worksheet)
    requires n < |ws.rows|
    ensures r.name == ws.name && r.columns == ws.columns && r.views == ws.views
    ensures |r.rows| == |ws.rows|
    ensures forall q :: 0 <= q < |ws.rows| && q != n ==> r.rows[q] == ws.rows[q]
    ensures r.rows[n] == ws.rows[n].(height := Some(h))
  {
    ws.(rows := ws.rows[n := ws.rows[n].(height := Some(h))])
  }

  /** The column setter `numFmt`: the column's format, and the format of the
      cell in that column of every row. */
  function SetColumnFormat(ws: Worksheet, j: nat, fmt: string): (r: Worksheet)
    requires j < |ws.columns|
    ensures r.name == ws.name && r.views == ws.views
    ensures |r.columns| == |ws.columns| && r.columns[j] == ws.columns[j].(numFmt := Some(fmt))
    ensures forall k :: 0 <= k < |ws.columns| && k != j ==> r.columns[k] == ws.columns[k]
    ensures |r.rows| == |ws.rows|
    ensures forall q :: 0 <= q < |ws.rows| ==>
      r.rows[q].height == ws.rows[q].height && |r.rows[q].cells| == |ws.rows[q].cells|
    ensures forall q, k :: 0 <= q < |ws.rows| && 0 <= k < |ws.rows[q].cells| ==>
      r.rows[q].cells[k] ==
        if k == j then ws.rows[q].cells[k].(style := ws.rows[q].cells[k].style.(numFmt := Some(fmt)))
        else ws.rows[q].cells[k]
  {
    var rows := seq(|ws.rows|, q requires 0 <= q < |ws.rows| =>
      var row := ws.rows[q];
      if j < |row.cells| then
        var cell := row.cells[j];
        row.(cells := row.cells[j := cell.(style := cell.style.(numFmt := Some(fmt)))])
      else row);
    ws.(columns := ws.columns[j := ws.columns[j].(numFmt := Some(fmt))], rows := rows)
  }

  /** The column setter `width`. */
  function SetColumnWidth(ws: Worksheet, j: nat, w: nat): (r: Worksheet)
    requires j < |ws.columns|
    ensures r.name == ws.name && r.rows == ws.rows && r.views == ws.views
    ensures |r.columns| == |ws.columns| && r.columns[j] == ws.columns[j].(width := w)
    ensures forall k :: 0 <= k < |ws.columns| && k != j ==> r.columns[k] == ws.columns[k]
  {
    ws.(columns := ws.columns[j := ws.columns[j].(width := w)])
  }
}
