/** An abstract worksheet and workbook: the part of the spreadsheet library's behaviour
    that the marksheet builders rely on. A worksheet is its cell values, the styles set
    on cells, the data-validation and conditional-format records attached to it, the
    column widths and the freeze-pane anchor. */
module Spreadsheet {

  datatype Option<T> = None | Some(value: T)

  /** A cell coordinate, 1-based; column 1 is "A". */
  datatype Cell = Cell(row: nat, col: nat)

  /** A cell value: absent (the library's None), text, an integer, or formula text. */
  datatype Value = Empty | Text(s: string) | Int(n: int) | Formula(f: string)

  datatype Font = Font(bold: bool, size: Option<nat>)

  /** An inclusive rectangle of cells, "B8" being Range(B8, B8) and "D8:D13" Range(D8, D13). */
  datatype Range = Range(first: Cell, last: Cell)

  /** Whether a range contains a cell. */
  predicate Covers(r: Range, c: Cell) {
    r.first.row <= c.row <= r.last.row && r.first.col <= c.col <= r.last.col
  }

  /** What a data validation admits: a decimal between two bounds, or one entry of a list. */
  datatype Check = DecimalBetween(lower: int, upper: Value) | Choice(list: string, allowBlank: bool)

  datatype Validation = Validation(check: Check, range: Range)

  /** A conditional-format rule "cell is <operator> <formula>" that fills matching cells. */
  datatype Highlight = CellIs(target: Range, operator: string, formula: string, fill: string)

  /** Everything a worksheet holds, as one value. */
  datatype SheetState = SheetState(
    title: string,
    cells: map<Cell, Value>,
    fonts: map<Cell, Font>,
    centered: set<Cell>,
    fills: map<Cell, string>,
    formats: map<Cell, string>,
    borders: set<Cell>,
    validations: seq<Validation>,
    highlights: seq<Highlight>,
    widths: map<nat, nat>,
    freeze: Option<Cell>,
    maxRow: nat)

  function Max(a: nat, b: nat): nat { if a < b then b else a }

  /** The value of a cell: what was written there, or Empty. */
  function ValueAt(m: map<Cell, Value>, c: Cell): Value {
    if c in m then m[c] else Empty
  }

  /** The state of a sheet just created with the given title. */
  function Blank(title: string): SheetState {
    SheetState(title, map[], map[], {}, map[], map[], {}, [], [], map[], None, 0)
  }

  /** m with the cells (row, col), (row, col + 1), ... set to vals[0], vals[1], ... in turn. */
  function PutRow<T>(m: map<Cell, T>, row: nat, col: nat, vals: seq<T>): map<Cell, T>
    decreases |vals|
  {
    if |vals| == 0 then m
    else
      var n := |vals| - 1;
      PutRow(m, row, col, vals[..n])[Cell(row, col + n) := vals[n]]
  }

  lemma {:induction false} PutRowAt<T>(m: map<Cell, T>, row: nat, col: nat, vals: seq<T>, c: Cell)
    ensures c in PutRow(m, row, col, vals) <==> c in m || (c.row == row && col <= c.col < col + |vals|)
    ensures c.row == row && col <= c.col < col + |vals| ==> PutRow(m, row, col, vals)[c] == vals[c.col - col]
    ensures !(c.row == row && col <= c.col < col + |vals|) && c in m ==> PutRow(m, row, col, vals)[c] == m[c]
    decreases |vals|
  {
    if |vals| > 0 {
      var n := |vals| - 1;
      PutRowAt(m, row, col, vals[..n], c);
    }
  }

  /** m with the n cells (row, col), ..., (row, col + n - 1) all set to x. */
  function PutSame<T>(m: map<Cell, T>, row: nat, col: nat, n: nat, x: T): map<Cell, T>
  {
    if n == 0 then m else PutSame(m, row, col, n - 1, x)[Cell(row, col + n - 1) := x]
  }

  lemma {:induction false} PutSameAt<T>(m: map<Cell, T>, row: nat, col: nat, n: nat, x: T, c: Cell)
    ensures c in PutSame(m, row, col, n, x) <==> c in m || (c.row == row && col <= c.col < col + n)
    ensures c.row == row && col <= c.col < col + n ==> PutSame(m, row, col, n, x)[c] == x
    ensures !(c.row == row && col <= c.col < col + n) && c in m ==> PutSame(m, row, col, n, x)[c] == m[c]
  {
    if n > 0 {
      PutSameAt(m, row, col, n - 1, x, c);
    }
  }

  /** m with rows[0] written from column 1 of row `start`, rows[1] of row start + 1, ... */
  function PutRows(m: map<Cell, Value>, start: nat, rows: seq<seq<Value>>): map<Cell, Value>
    decreases |rows|
  {
    if |rows| == 0 then m
    else
      var n := |rows| - 1;
      PutRow(PutRows(m, start, rows[..n]), start + n, 1, rows[n])
  }

  /** Inside the written block a cell holds what its row lists for it, and elsewhere what m held. */
  predicate InRows(start: nat, rows: seq<seq<Value>>, c: Cell) {
    start <= c.row < start + |rows| && 1 <= c.col <= |rows[c.row - start]|
  }

  lemma {:induction false} PutRowsAt(m: map<Cell, Value>, start: nat, rows: seq<seq<Value>>, c: Cell)
    ensures InRows(start, rows, c) ==>
              c in PutRows(m, start, rows) && PutRows(m, start, rows)[c] == rows[c.row - start][c.col - 1]
    ensures (c.row < start || start + |rows| <= c.row) ==>
              (c in PutRows(m, start, rows) <==> c in m) &&
              (c in m ==> PutRows(m, start, rows)[c] == m[c])
    decreases |rows|
  {
    if |rows| > 0 {
      var n := |rows| - 1;
      var prev := PutRows(m, start, rows[..n]);
      PutRowAt(prev, start + n, 1, rows[n], c);
      PutRowsAt(m, start, rows[..n], c);
      if start <= c.row < start + n {
        assert rows[..n][c.row - start] == rows[c.row - start];
      }
    }
  }

  /** A cell of the written rows that is past the end of its row, or left of column 1, keeps
      what m held there. */
  lemma {:induction false} PutRowsBeside(m: map<Cell, Value>, start: nat, rows: seq<seq<Value>>, c: Cell)
    requires start <= c.row < start + |rows| && !InRows(start, rows, c)
    ensures c in PutRows(m, start, rows) <==> c in m
    ensures c in m ==> PutRows(m, start, rows)[c] == m[c]
    decreases |rows|
  {
    var n := |rows| - 1;
    var prev := PutRows(m, start, rows[..n]);
    PutRowAt(prev, start + n, 1, rows[n], c);
    if c.row < start + n {
      assert rows[..n][c.row - start] == rows[c.row - start];
      PutRowsBeside(m, start, rows[..n], c);
    } else {
      PutRowsAt(m, start, rows[..n], c);
    }
  }

  /** s with the n cells (row, col), ..., (row, col + n - 1) added one by one. */
  function AddRow(s: set<Cell>, row: nat, col: nat, n: nat): set<Cell>
  {
    if n == 0 then s else AddRow(s, row, col, n - 1) + {Cell(row, col + n - 1)}
  }

  /** s with the rows row0 .. row0 + rows - 1 of columns col0 .. col0 + cols - 1 added row by row. */
  function AddRect(s: set<Cell>, row0: nat, rows: nat, col0: nat, cols: nat): set<Cell>
  {
    if rows == 0 then s else AddRow(AddRect(s, row0, rows - 1, col0, cols), row0 + rows - 1, col0, cols)
  }

  lemma {:induction false} AddRowHas(s: set<Cell>, row: nat, col: nat, n: nat)
    ensures forall c :: c in AddRow(s, row, col, n) <==> c in s || (c.row == row && col <= c.col < col + n)
  {
    if n > 0 {
      AddRowHas(s, row, col, n - 1);
    }
  }

  lemma {:induction false} AddRowSize(s: set<Cell>, row: nat, col: nat, n: nat)
    requires forall c :: c in s ==> c.row != row
    ensures |AddRow(s, row, col, n)| == |s| + n
  {
    if n > 0 {
      AddRowSize(s, row, col, n - 1);
      AddRowHas(s, row, col, n - 1);
      assert Cell(row, col + n - 1) !in AddRow(s, row, col, n - 1);
    }
  }

  lemma {:induction false} AddRectHas(s: set<Cell>, row0: nat, rows: nat, col0: nat, cols: nat)
    ensures forall c :: c in AddRect(s, row0, rows, col0, cols) <==>
              c in s || (row0 <= c.row < row0 + rows && col0 <= c.col < col0 + cols)
  {
    if rows > 0 {
      AddRectHas(s, row0, rows - 1, col0, cols);
      AddRowHas(AddRect(s, row0, rows - 1, col0, cols), row0 + rows - 1, col0, cols);
    }
  }

  lemma {:induction false} AddRectSize(s: set<Cell>, row0: nat, rows: nat, col0: nat, cols: nat)
    requires forall c :: c in s ==> c.row < row0 || row0 + rows <= c.row
    ensures |AddRect(s, row0, rows, col0, cols)| == |s| + rows * cols
  {
    if rows > 0 {
      var prev := AddRect(s, row0, rows - 1, col0, cols);
      AddRectSize(s, row0, rows - 1, col0, cols);
      AddRectHas(s, row0, rows - 1, col0, cols);
      AddRowSize(prev, row0 + rows - 1, col0, cols);
      assert (rows - 1) * cols + cols == rows * cols;
    }
  }

  /** A worksheet, updated in place by the builders. */
  class Sheet {
    var title: string
    var cells: map<Cell, Value>
    var fonts: map<Cell, Font>
    var centered: set<Cell>
    var fills: map<Cell, string>
    var formats: map<Cell, string>
    var borders: set<Cell>
    var validations: seq<Validation>
    var highlights: seq<Highlight>
    var widths: map<nat, nat>
    var freeze: Option<Cell>
    /** The highest row of any cell accessed so far; `Append` writes the row after it. */
    var maxRow: nat

    function State(): SheetState
      reads this
    {
      SheetState(title, cells, fonts, centered, fills, formats, borders,
                 validations, highlights, widths, freeze, maxRow)
    }

    constructor (title: string)
      ensures State() == Blank(title)
    {
      this.title := title;
      cells, fonts, centered, fills, formats, borders := map[], map[], {}, map[], map[], {};
      validations, highlights, widths, freeze, maxRow := [], [], map[], None, 0;
    }

    /** ws[c] = v */
    method Put(c: Cell, v: Value)
      modifies this
      ensures State() == old(State()).(cells := old(cells)[c := v], maxRow := Max(old(maxRow), c.row))
    {
      cells := cells[c := v];
      maxRow := Max(maxRow, c.row);
    }

    /** ws[c].value: the value written there, or Empty; reading creates the cell. */
    method Get(c: Cell) returns (v: Value)
      modifies this
      ensures v == ValueAt(old(cells), c)
      ensures State() == old(State()).(maxRow := Max(old(maxRow), c.row))
    {
      v := ValueAt(cells, c);
      maxRow := Max(maxRow, c.row);
    }

    method SetFont(c: Cell, f: Font)
      modifies this
      ensures State() == old(State()).(fonts := old(fonts)[c := f], maxRow := Max(old(maxRow), c.row))
    {
      fonts := fonts[c := f];
      maxRow := Max(maxRow, c.row);
    }

    /** Alignment(horizontal='center') */
    method Center(c: Cell)
      modifies this
      ensures State() == old(State()).(centered := old(centered) + {c}, maxRow := Max(old(maxRow), c.row))
    {
      centered := centered + {c};
      maxRow := Max(maxRow, c.row);
    }

    /** a solid PatternFill of the given colour */
    method Fill(c: Cell, colour: string)
      modifies this
      ensures State() == old(State()).(fills := old(fills)[c := colour], maxRow := Max(old(maxRow), c.row))
    {
      fills := fills[c := colour];
      maxRow := Max(maxRow, c.row);
    }

    /** number_format */
    method SetFormat(c: Cell, format: string)
      modifies this
      ensures State() == old(State()).(formats := old(formats)[c := format], maxRow := Max(old(maxRow), c.row))
    {
      formats := formats[c := format];
      maxRow := Max(maxRow, c.row);
    }

    /** a thin border on all four sides */
    method Border(c: Cell)
      modifies this
      ensures State() == old(State()).(borders := old(borders) + {c}, maxRow := Max(old(maxRow), c.row))
    {
      borders := borders + {c};
      maxRow := Max(maxRow, c.row);
    }

    /** add_data_validation */
    method AddValidation(v: Validation)
      modifies this
      ensures State() == old(State()).(validations := old(validations) + [v])
    {
      validations := validations + [v];
    }

    /** conditional_formatting.add */
    method AddHighlight(h: Highlight)
      modifies this
      ensures State() == old(State()).(highlights := old(highlights) + [h])
    {
      highlights := highlights + [h];
    }

    /** column_dimensions[col].width = w */
    method SetWidth(col: nat, w: nat)
      modifies this
      ensures State() == old(State()).(widths := old(widths)[col := w])
    {
      widths := widths[col := w];
    }

    /** freeze_panes = c */
    method Freeze(c: Cell)
      modifies this
      ensures State() == old(State()).(freeze := Some(c))
    {
      freeze := Some(c);
    }

    /** ws.append(vals): vals[k] goes to column k + 1 of the row after the highest row
        accessed so far, which then becomes the highest row. */
    method Append(vals: seq<Value>)
      modifies this
      ensures State() == old(State()).(cells := PutRow(old(cells), old(maxRow) + 1, 1, vals),
                                        maxRow := old(maxRow) + 1)
    {
      var row := maxRow + 1;
      ghost var before := cells;
      var i := 0;
      while i < |vals|
        invariant 0 <= i <= |vals|
        invariant cells == PutRow(before, row, 1, vals[..i])
        invariant State() == old(State()).(cells := cells)
      {
        assert vals[..i + 1][..i] == vals[..i];
        cells := cells[Cell(row, 1 + i) := vals[i]];
        i := i + 1;
      }
      assert vals[..i] == vals;
      maxRow := row;
    }
  }

  /** A workbook: its sheets in order and the paths it was saved to. */
  class Workbook {
    var sheets: seq<Sheet>
    var saves: seq<string>

    /** openpyxl.Workbook(): a workbook holding one default sheet, which is active. */
    constructor ()
      ensures |sheets| == 1 && fresh(sheets[0]) && sheets[0].State() == Blank("Sheet")
      ensures saves == []
    {
      var first := new Sheet("Sheet");
      sheets := [first];
      saves := [];
    }

    /** wb.remove(wb.active): the active sheet is the first one. */
    method RemoveActive()
      modifies this
      ensures sheets == if old(sheets) == [] then [] else old(sheets)[1..]
      ensures saves == old(saves)
    {
      if sheets != [] {
        sheets := sheets[1..];
      }
    }

    /** The sheet wb.create_sheet(title) adds, after the others. */
    method Attach(ws: Sheet)
      modifies this
      ensures sheets == old(sheets) + [ws] && saves == old(saves)
    {
      sheets := sheets + [ws];
    }

    /** wb.save(path): the file format itself is not modelled. */
    method Save(path: string)
      modifies this
      ensures sheets == old(sheets) && saves == old(saves) + [path]
    {
      saves := saves + [path];
    }
  }
}
