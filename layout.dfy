/** The per-subject worksheet that create_marksheet_template writes, in App_v3.py and in
    create_marksheet_enhanced.py alike: identity rows 1-5, a header row 7, the twelve
    component rows 8-19, totals in rows 20-21, attendance in rows 23-26, the grade in row
    28, borders, data validations, grade highlights, column widths and a frozen pane. The
    two scripts differ only in what B2, B3 and B4 hold, so that text is a parameter here. */
module Layout {
  import opened Spreadsheet
  import opened Grading

  datatype Component = Component(name: string, maxMarks: nat)

  const Headers: seq<string> := ["Component", "Marks Obtained", "Max Marks", "Submission Status", "Remarks"]

  /** The assessed components, written to rows 8 to 19 in this order. */
  const Catalogue: seq<Component> := [
    Component("Assignment 1", 5), Component("Assignment 2", 5),
    Component("Assignment 3", 5), Component("Assignment 4", 5),
    Component("Quiz 1", 5), Component("Quiz 2", 5), Component("Quiz 3", 5), Component("Quiz 4", 5),
    Component("Term Paper", 10), Component("CP Marks/Bonus", 5),
    Component("Midterms", 20), Component("Finals", 25)
  ]

  const FirstComponentRow: nat := 8
  const TitleFont: Font := Font(true, Some(14))
  const HeaderFont: Font := Font(true, None)
  const HeaderFill: string := "D3D3D3"
  const PercentFormat: string := "0.00%"

  /** label.startswith(("Assignment", "Term Paper")) */
  predicate CountsSubmission(text: string) {
    "Assignment" <= text || "Term Paper" <= text
  }

  /** What column D of a component row holds. */
  function Status(text: string): string {
    if CountsSubmission(text) then "Yes" else ""
  }

  function Texts(ss: seq<string>): (r: seq<Value>)
    ensures |r| == |ss|
    ensures forall k :: 0 <= k < |ss| ==> r[k] == Text(ss[k])
  {
    seq(|ss|, k requires 0 <= k < |ss| => Text(ss[k]))
  }

  // ---- The cells each block writes, as updates of the cells before it ----

  function IdentityCells(m: map<Cell, Value>, subject: string, b2: string, b3: string, b4: string,
                         stamp: string): map<Cell, Value>
  {
    m[Cell(1, 1) := Text("Marksheet for " + subject)]
     [Cell(2, 1) := Text("Student Name:")][Cell(2, 2) := Text(b2)]
     [Cell(3, 1) := Text("Student ID:")][Cell(3, 2) := Text(b3)]
     [Cell(4, 1) := Text("Semester:")][Cell(4, 2) := Text(b4)]
     [Cell(5, 1) := Text("Last Modified:")][Cell(5, 2) := Text(stamp)]
  }

  /** The first n components, cs[k] written to row start + k: its name in A, its maximum
      in C, its status in D. */
  function ComponentCells(m: map<Cell, Value>, cs: seq<Component>, start: nat, n: nat): map<Cell, Value>
    requires n <= |cs|
  {
    if n == 0 then m
    else
      var row := start + n - 1;
      ComponentCells(m, cs, start, n - 1)
        [Cell(row, 1) := Text(cs[n - 1].name)]
        [Cell(row, 3) := Int(cs[n - 1].maxMarks)]
        [Cell(row, 4) := Text(Status(cs[n - 1].name))]
  }

  function TotalsCells(m: map<Cell, Value>): map<Cell, Value> {
    m[Cell(20, 1) := Text("Pre-Mids Total")][Cell(20, 2) := Formula("=SUM(B8:B17)")][Cell(20, 3) := Int(55)]
     [Cell(21, 1) := Text("Final Total")][Cell(21, 2) := Formula("=SUM(B18:B20)")][Cell(21, 3) := Int(100)]
  }

  function AttendanceCells(m: map<Cell, Value>): map<Cell, Value> {
    m[Cell(23, 1) := Text("Attendance Tracking")]
     [Cell(24, 1) := Text("Total Classes")][Cell(24, 2) := Int(30)]
     [Cell(25, 1) := Text("Classes Attended")][Cell(25, 2) := Text("")]
     [Cell(26, 1) := Text("Attendance %")][Cell(26, 2) := Formula(AttendanceFormula)]
  }

  function GradeCells(m: map<Cell, Value>): map<Cell, Value> {
    m[Cell(28, 1) := Text("Grade")][GradeCell := Formula(GradeFormula)]
  }

  /** A decimal validation [0, C{row}] on B{row} for each of the n rows from start, the upper
      bound being the value found in column C when the validation is made. */
  function MarksValidations(cells: map<Cell, Value>, start: nat, n: nat): seq<Validation> {
    if n == 0 then []
    else
      var row := start + n - 1;
      MarksValidations(cells, start, n - 1) +
        [Validation(DecimalBetween(0, ValueAt(cells, Cell(row, 3))), Range(Cell(row, 2), Cell(row, 2)))]
  }

  /** The Yes/No list on D8:D13, blanks allowed. */
  const StatusValidation: Validation := Validation(Choice("\"Yes,No\"", true), Range(Cell(8, 4), Cell(13, 4)))

  /** Thin borders on A7:E21, A24:B26 and B28. */
  function BorderCells(s: set<Cell>): set<Cell> {
    AddRect(AddRect(s, 7, 15, 1, 5), 24, 3, 1, 2) + {GradeCell}
  }

  // ---- The whole sheet ----

  /** The cells once row 7 is written. */
  function HeadedCells(subject: string, b2: string, b3: string, b4: string, stamp: string): map<Cell, Value> {
    PutRow(IdentityCells(map[], subject, b2, b3, b4, stamp), 7, 1, Texts(Headers))
  }

  function LayoutCells(subject: string, b2: string, b3: string, b4: string, stamp: string): map<Cell, Value> {
    var headed := HeadedCells(subject, b2, b3, b4, stamp);
    GradeCells(AttendanceCells(TotalsCells(ComponentCells(headed, Catalogue, FirstComponentRow, |Catalogue|))))
  }

  // ---- The builder, block by block ----

  /** A1 to B5: the title (bold, size 14) and the four labelled identity rows. */
  method WriteIdentity(ws: Sheet, subject: string, b2: string, b3: string, b4: string, stamp: string)
    modifies ws
    ensures ws.State() == old(ws.State()).(cells := IdentityCells(old(ws.cells), subject, b2, b3, b4, stamp),
                                           fonts := old(ws.fonts)[Cell(1, 1) := TitleFont],
                                           maxRow := Max(old(ws.maxRow), 5))
  {
    ws.Put(Cell(1, 1), Text("Marksheet for " + subject));
    ws.SetFont(Cell(1, 1), TitleFont);
    ws.Put(Cell(2, 1), Text("Student Name:"));
    ws.Put(Cell(2, 2), Text(b2));
    ws.Put(Cell(3, 1), Text("Student ID:"));
    ws.Put(Cell(3, 2), Text(b3));
    ws.Put(Cell(4, 1), Text("Semester:"));
    ws.Put(Cell(4, 2), Text(b4));
    ws.Put(Cell(5, 1), Text("Last Modified:"));
    ws.Put(Cell(5, 2), Text(stamp));
  }

  /** Row 7: each header bold, centred and filled grey. */
  method WriteHeaders(ws: Sheet)
    modifies ws
    ensures ws.State() == old(ws.State()).(cells := PutRow(old(ws.cells), 7, 1, Texts(Headers)),
                                           fonts := PutSame(old(ws.fonts), 7, 1, |Headers|, HeaderFont),
                                           centered := AddRow(old(ws.centered), 7, 1, |Headers|),
                                           fills := PutSame(old(ws.fills), 7, 1, |Headers|, HeaderFill),
                                           maxRow := Max(old(ws.maxRow), 7))
  {
    var values := Texts(Headers);
    var i := 0;
    while i < |Headers|
      invariant 0 <= i <= |Headers|
      invariant ws.cells == PutRow(old(ws.cells), 7, 1, values[..i])
      invariant ws.fonts == PutSame(old(ws.fonts), 7, 1, i, HeaderFont)
      invariant ws.centered == AddRow(old(ws.centered), 7, 1, i)
      invariant ws.fills == PutSame(old(ws.fills), 7, 1, i, HeaderFill)
      invariant ws.maxRow == if i == 0 then old(ws.maxRow) else Max(old(ws.maxRow), 7)
      invariant ws.State() == old(ws.State()).(cells := ws.cells, fonts := ws.fonts, centered := ws.centered,
                                               fills := ws.fills, maxRow := ws.maxRow)
    {
      assert values[..i + 1][..i] == values[..i];
      var c := Cell(7, 1 + i);
      ws.Put(c, Text(Headers[i]));
      ws.SetFont(c, HeaderFont);
      ws.Center(c);
      ws.Fill(c, HeaderFill);
      i := i + 1;
    }
    assert values[..i] == values;
  }

  /** Rows 8 to 19: label, maximum and submission status of each component. */
  method WriteComponents(ws: Sheet)
    modifies ws
    ensures ws.State() == old(ws.State()).(cells := ComponentCells(old(ws.cells), Catalogue, FirstComponentRow, |Catalogue|),
                                           maxRow := Max(old(ws.maxRow), FirstComponentRow + |Catalogue| - 1))
  {
    var i := 0;
    while i < |Catalogue|
      invariant 0 <= i <= |Catalogue|
      invariant ws.cells == ComponentCells(old(ws.cells), Catalogue, FirstComponentRow, i)
      invariant ws.maxRow == if i == 0 then old(ws.maxRow) else Max(old(ws.maxRow), FirstComponentRow + i - 1)
      invariant ws.State() == old(ws.State()).(cells := ws.cells, maxRow := ws.maxRow)
    {
      var row := FirstComponentRow + i;
      var component := Catalogue[i];
      ws.Put(Cell(row, 1), Text(component.name));
      ws.Put(Cell(row, 3), Int(component.maxMarks));
      ws.Put(Cell(row, 4), Text(Status(component.name)));
      i := i + 1;
    }
  }

  /** Rows 20 and 21: the two totals with their formulas and maxima. */
  method WriteTotals(ws: Sheet)
    modifies ws
    ensures ws.State() == old(ws.State()).(cells := TotalsCells(old(ws.cells)), maxRow := Max(old(ws.maxRow), 21))
  {
    ws.Put(Cell(20, 1), Text("Pre-Mids Total"));
    ws.Put(Cell(20, 2), Formula("=SUM(B8:B17)"));
    ws.Put(Cell(20, 3), Int(55));
    ws.Put(Cell(21, 1), Text("Final Total"));
    ws.Put(Cell(21, 2), Formula("=SUM(B18:B20)"));
    ws.Put(Cell(21, 3), Int(100));
  }

  /** Rows 23 to 26: the attendance block, B26 shown as a percentage. */
  method WriteAttendance(ws: Sheet)
    modifies ws
    ensures ws.State() == old(ws.State()).(cells := AttendanceCells(old(ws.cells)),
                                           formats := old(ws.formats)[Cell(26, 2) := PercentFormat],
                                           maxRow := Max(old(ws.maxRow), 26))
  {
    ws.Put(Cell(23, 1), Text("Attendance Tracking"));
    ws.Put(Cell(24, 1), Text("Total Classes"));
    ws.Put(Cell(24, 2), Int(30));
    ws.Put(Cell(25, 1), Text("Classes Attended"));
    ws.Put(Cell(25, 2), Text(""));
    ws.Put(Cell(26, 1), Text("Attendance %"));
    ws.Put(Cell(26, 2), Formula(AttendanceFormula));
    ws.SetFormat(Cell(26, 2), PercentFormat);
  }

  /** Row 28: the grade label and formula. */
  method WriteGrade(ws: Sheet)
    modifies ws
    ensures ws.State() == old(ws.State()).(cells := GradeCells(old(ws.cells)), maxRow := Max(old(ws.maxRow), 28))
  {
    ws.Put(Cell(28, 1), Text("Grade"));
    ws.Put(GradeCell, Formula(GradeFormula));
  }

  /** for row in range(row0, row0 + rows): for col in range(col0, col0 + cols): border */
  method BorderRect(ws: Sheet, row0: nat, rows: nat, col0: nat, cols: nat)
    modifies ws
    ensures ws.State() == old(ws.State()).(borders := AddRect(old(ws.borders), row0, rows, col0, cols),
                                           maxRow := if rows == 0 || cols == 0 then old(ws.maxRow)
                                                     else Max(old(ws.maxRow), row0 + rows - 1))
  {
    var i := 0;
    while i < rows
      invariant 0 <= i <= rows
      invariant ws.borders == AddRect(old(ws.borders), row0, i, col0, cols)
      invariant ws.maxRow == if i == 0 || cols == 0 then old(ws.maxRow) else Max(old(ws.maxRow), row0 + i - 1)
      invariant ws.State() == old(ws.State()).(borders := ws.borders, maxRow := ws.maxRow)
    {
      var j := 0;
      ghost var rowStart := ws.borders;
      ghost var maxBefore := ws.maxRow;
      while j < cols
        invariant 0 <= j <= cols
        invariant ws.borders == AddRow(rowStart, row0 + i, col0, j)
        invariant ws.maxRow == if j == 0 then maxBefore else Max(maxBefore, row0 + i)
        invariant ws.State() == old(ws.State()).(borders := ws.borders, maxRow := ws.maxRow)
      {
        ws.Border(Cell(row0 + i, col0 + j));
        j := j + 1;
      }
      i := i + 1;
    }
  }

  method DrawBorders(ws: Sheet)
    modifies ws
    ensures ws.State() == old(ws.State()).(borders := BorderCells(old(ws.borders)), maxRow := Max(old(ws.maxRow), 28))
  {
    BorderRect(ws, 7, 15, 1, 5);
    BorderRect(ws, 24, 3, 1, 2);
    ws.Border(GradeCell);
  }

  /** B8 to B19: each gets a decimal validation bounded by the value read back from column C. */
  method AddMarksValidations(ws: Sheet)
    modifies ws
    ensures ws.State() == old(ws.State()).(
              validations := old(ws.validations) + MarksValidations(old(ws.cells), FirstComponentRow, |Catalogue|),
              maxRow := Max(old(ws.maxRow), FirstComponentRow + |Catalogue| - 1))
  {
    var i := 0;
    while i < |Catalogue|
      invariant 0 <= i <= |Catalogue|
      invariant ws.validations == old(ws.validations) + MarksValidations(old(ws.cells), FirstComponentRow, i)
      invariant ws.maxRow == if i == 0 then old(ws.maxRow) else Max(old(ws.maxRow), FirstComponentRow + i - 1)
      invariant ws.State() == old(ws.State()).(validations := ws.validations, maxRow := ws.maxRow)
    {
      var row := FirstComponentRow + i;
      var upper := ws.Get(Cell(row, 3));
      ws.AddValidation(Validation(DecimalBetween(0, upper), Range(Cell(row, 2), Cell(row, 2))));
      i := i + 1;
    }
  }

  method AddGradeHighlights(ws: Sheet)
    modifies ws
    ensures ws.State() == old(ws.State()).(highlights := old(ws.highlights) + GradeHighlights)
  {
    ws.AddHighlight(GradeHighlights[0]);
    ws.AddHighlight(GradeHighlights[1]);
    ws.AddHighlight(GradeHighlights[2]);
    ws.AddHighlight(GradeHighlights[3]);
    ws.AddHighlight(GradeHighlights[4]);
    assert ws.highlights == old(ws.highlights) + GradeHighlights;
  }

  method SetWidths(ws: Sheet)
    modifies ws
    ensures ws.State() == old(ws.State()).(widths := old(ws.widths)[1 := 20][2 := 15][3 := 10][4 := 15][5 := 25])
  {
    ws.SetWidth(1, 20);
    ws.SetWidth(2, 15);
    ws.SetWidth(3, 10);
    ws.SetWidth(4, 15);
    ws.SetWidth(5, 25);
  }

  /** The sheet once every value of the layout is written, before borders, validations,
      highlights, widths and the frozen pane are added. */
  function WrittenState(subject: string, b2: string, b3: string, b4: string, stamp: string): SheetState {
    var blank := Blank(subject);
    blank.(cells := LayoutCells(subject, b2, b3, b4, stamp),
           fonts := PutSame(blank.fonts[Cell(1, 1) := TitleFont], 7, 1, |Headers|, HeaderFont),
           centered := AddRow(blank.centered, 7, 1, |Headers|),
           fills := PutSame(blank.fills, 7, 1, |Headers|, HeaderFill),
           formats := blank.formats[Cell(26, 2) := PercentFormat],
           maxRow := 28)
  }

  /** What Decorate adds to a sheet. */
  function Decorated(w: SheetState): SheetState {
    w.(borders := BorderCells(w.borders),
       validations := w.validations + MarksValidations(w.cells, FirstComponentRow, |Catalogue|) + [StatusValidation],
       highlights := w.highlights + GradeHighlights,
       widths := w.widths[1 := 20][2 := 15][3 := 10][4 := 15][5 := 25],
       freeze := Some(Cell(8, 1)),
       maxRow := Max(w.maxRow, 28))
  }

  /** The sheet for one subject once the builder is done with it. */
  function LayoutState(subject: string, b2: string, b3: string, b4: string, stamp: string): SheetState {
    Decorated(WrittenState(subject, b2, b3, b4, stamp))
  }

  method WriteValues(ws: Sheet, subject: string, b2: string, b3: string, b4: string, stamp: string)
    requires ws.State() == Blank(subject)
    modifies ws
    ensures ws.State() == WrittenState(subject, b2, b3, b4, stamp)
  {
    WriteIdentity(ws, subject, b2, b3, b4, stamp);
    WriteHeaders(ws);
    WriteComponents(ws);
    WriteTotals(ws);
    WriteAttendance(ws);
    WriteGrade(ws);
  }

  /** Borders, validations, highlights, widths and the frozen pane, on the values written. */
  method Decorate(ws: Sheet)
    modifies ws
    ensures ws.State() == Decorated(old(ws.State()))
  {
    DrawBorders(ws);
    AddMarksValidations(ws);
    ws.AddValidation(StatusValidation);
    AddGradeHighlights(ws);
    SetWidths(ws);
    ws.Freeze(Cell(8, 1));
  }

  /** The body of the per-subject loop of create_marksheet_template, on a sheet just created
      for the subject. */
  method BuildSheet(ws: Sheet, subject: string, b2: string, b3: string, b4: string, stamp: string)
    requires ws.State() == Blank(subject)
    modifies ws
    ensures ws.State() == LayoutState(subject, b2, b3, b4, stamp)
  {
    WriteValues(ws, subject, b2, b3, b4, stamp);
    Decorate(ws);
  }

  // ---- What the finished sheet holds ----

  /** Inside the component block a cell of column A, C or D holds its component's name,
      maximum or status; every other cell keeps what it held before the block. */
  lemma {:induction false} ComponentCellsAt(m: map<Cell, Value>, cs: seq<Component>, start: nat, n: nat, c: Cell)
    requires n <= |cs|
    ensures start <= c.row < start + n && c.col == 1 ==>
              ValueAt(ComponentCells(m, cs, start, n), c) == Text(cs[c.row - start].name)
    ensures start <= c.row < start + n && c.col == 3 ==>
              ValueAt(ComponentCells(m, cs, start, n), c) == Int(cs[c.row - start].maxMarks)
    ensures start <= c.row < start + n && c.col == 4 ==>
              ValueAt(ComponentCells(m, cs, start, n), c) == Text(Status(cs[c.row - start].name))
    ensures !(start <= c.row < start + n && (c.col == 1 || c.col == 3 || c.col == 4)) ==>
              (c in ComponentCells(m, cs, start, n) <==> c in m) &&
              ValueAt(ComponentCells(m, cs, start, n), c) == ValueAt(m, c)
  {
    if n > 0 {
      ComponentCellsAt(m, cs, start, n - 1, c);
    }
  }

  lemma TotalsAt(m: map<Cell, Value>, c: Cell)
    requires c.row < 20
    ensures ValueAt(TotalsCells(m), c) == ValueAt(m, c)
  {
  }

  lemma AttendanceAt(m: map<Cell, Value>, c: Cell)
    requires c.row < 20
    ensures ValueAt(AttendanceCells(m), c) == ValueAt(m, c)
  {
  }

  lemma GradeAt(m: map<Cell, Value>, c: Cell)
    requires c.row < 20
    ensures ValueAt(GradeCells(m), c) == ValueAt(m, c)
  {
  }

  /** The writes after the component block are all below row 19. */
  lemma TailAt(m: map<Cell, Value>, c: Cell)
    requires c.row < 20
    ensures ValueAt(GradeCells(AttendanceCells(TotalsCells(m))), c) == ValueAt(m, c)
  {
    TotalsAt(m, c);
    AttendanceAt(TotalsCells(m), c);
    GradeAt(AttendanceCells(TotalsCells(m)), c);
  }

  lemma LayoutAbove20(subject: string, b2: string, b3: string, b4: string, stamp: string, c: Cell)
    requires c.row < 20
    ensures ValueAt(LayoutCells(subject, b2, b3, b4, stamp), c) ==
            ValueAt(ComponentCells(HeadedCells(subject, b2, b3, b4, stamp), Catalogue, FirstComponentRow, |Catalogue|), c)
  {
    TailAt(ComponentCells(HeadedCells(subject, b2, b3, b4, stamp), Catalogue, FirstComponentRow, |Catalogue|), c);
  }

  /** Rows 1 to 6 hold what the identity writes left there. */
  lemma LayoutTop(subject: string, b2: string, b3: string, b4: string, stamp: string, c: Cell)
    requires c.row < 7
    ensures ValueAt(LayoutCells(subject, b2, b3, b4, stamp), c) ==
            ValueAt(IdentityCells(map[], subject, b2, b3, b4, stamp), c)
  {
    LayoutAbove20(subject, b2, b3, b4, stamp, c);
    ComponentCellsAt(HeadedCells(subject, b2, b3, b4, stamp), Catalogue, FirstComponentRow, |Catalogue|, c);
    PutRowAt(IdentityCells(map[], subject, b2, b3, b4, stamp), 7, 1, Texts(Headers), c);
  }

  lemma IdentityAt(m: map<Cell, Value>, subject: string, b2: string, b3: string, b4: string, stamp: string)
    ensures var cells := IdentityCells(m, subject, b2, b3, b4, stamp);
            ValueAt(cells, Cell(1, 1)) == Text("Marksheet for " + subject) &&
            ValueAt(cells, Cell(2, 2)) == Text(b2) && ValueAt(cells, Cell(3, 2)) == Text(b3) &&
            ValueAt(cells, Cell(4, 2)) == Text(b4) && ValueAt(cells, Cell(5, 2)) == Text(stamp)
  {
  }

  /** A1 names the subject and B2 to B5 hold the text given for them. */
  lemma LayoutIdentity(subject: string, b2: string, b3: string, b4: string, stamp: string)
    ensures var cells := LayoutCells(subject, b2, b3, b4, stamp);
            ValueAt(cells, Cell(1, 1)) == Text("Marksheet for " + subject) &&
            ValueAt(cells, Cell(2, 2)) == Text(b2) && ValueAt(cells, Cell(3, 2)) == Text(b3) &&
            ValueAt(cells, Cell(4, 2)) == Text(b4) && ValueAt(cells, Cell(5, 2)) == Text(stamp)
  {
    IdentityAt(map[], subject, b2, b3, b4, stamp);
    LayoutTop(subject, b2, b3, b4, stamp, Cell(1, 1));
    LayoutTop(subject, b2, b3, b4, stamp, Cell(2, 2));
    LayoutTop(subject, b2, b3, b4, stamp, Cell(3, 2));
    LayoutTop(subject, b2, b3, b4, stamp, Cell(4, 2));
    LayoutTop(subject, b2, b3, b4, stamp, Cell(5, 2));
  }

  /** The labels the writes after the component block put in column A. */
  lemma TailLabels(m: map<Cell, Value>)
    ensures var cells := GradeCells(AttendanceCells(TotalsCells(m)));
            ValueAt(cells, Cell(20, 1)) == Text("Pre-Mids Total") &&
            ValueAt(cells, Cell(21, 1)) == Text("Final Total") &&
            ValueAt(cells, Cell(23, 1)) == Text("Attendance Tracking") &&
            ValueAt(cells, Cell(24, 1)) == Text("Total Classes") &&
            ValueAt(cells, Cell(25, 1)) == Text("Classes Attended") &&
            ValueAt(cells, Cell(26, 1)) == Text("Attendance %") &&
            ValueAt(cells, Cell(28, 1)) == Text("Grade")
  {
  }

  /** Column A labels the identity rows 2 to 5, the totals, the attendance block and the grade. */
  lemma LayoutLabels(subject: string, b2: string, b3: string, b4: string, stamp: string)
    ensures var cells := LayoutCells(subject, b2, b3, b4, stamp);
            ValueAt(cells, Cell(2, 1)) == Text("Student Name:") &&
            ValueAt(cells, Cell(3, 1)) == Text("Student ID:") &&
            ValueAt(cells, Cell(4, 1)) == Text("Semester:") &&
            ValueAt(cells, Cell(5, 1)) == Text("Last Modified:") &&
            ValueAt(cells, Cell(20, 1)) == Text("Pre-Mids Total") &&
            ValueAt(cells, Cell(21, 1)) == Text("Final Total") &&
            ValueAt(cells, Cell(23, 1)) == Text("Attendance Tracking") &&
            ValueAt(cells, Cell(24, 1)) == Text("Total Classes") &&
            ValueAt(cells, Cell(25, 1)) == Text("Classes Attended") &&
            ValueAt(cells, Cell(26, 1)) == Text("Attendance %") &&
            ValueAt(cells, Cell(28, 1)) == Text("Grade")
  {
    var id := IdentityCells(map[], subject, b2, b3, b4, stamp);
    assert ValueAt(id, Cell(2, 1)) == Text("Student Name:") && ValueAt(id, Cell(3, 1)) == Text("Student ID:") &&
           ValueAt(id, Cell(4, 1)) == Text("Semester:") && ValueAt(id, Cell(5, 1)) == Text("Last Modified:");
    LayoutTop(subject, b2, b3, b4, stamp, Cell(2, 1));
    LayoutTop(subject, b2, b3, b4, stamp, Cell(3, 1));
    LayoutTop(subject, b2, b3, b4, stamp, Cell(4, 1));
    LayoutTop(subject, b2, b3, b4, stamp, Cell(5, 1));
    TailLabels(ComponentCells(HeadedCells(subject, b2, b3, b4, stamp), Catalogue, FirstComponentRow, |Catalogue|));
  }

  /** Row 7 holds the five headers from column A on. */
  lemma LayoutHeaders(subject: string, b2: string, b3: string, b4: string, stamp: string)
    ensures forall k :: 0 <= k < |Headers| ==>
              ValueAt(LayoutCells(subject, b2, b3, b4, stamp), Cell(7, 1 + k)) == Text(Headers[k])
  {
    forall k | 0 <= k < |Headers|
      ensures ValueAt(LayoutCells(subject, b2, b3, b4, stamp), Cell(7, 1 + k)) == Text(Headers[k])
    {
      var c := Cell(7, 1 + k);
      LayoutAbove20(subject, b2, b3, b4, stamp, c);
      ComponentCellsAt(HeadedCells(subject, b2, b3, b4, stamp), Catalogue, FirstComponentRow, |Catalogue|, c);
      PutRowAt(IdentityCells(map[], subject, b2, b3, b4, stamp), 7, 1, Texts(Headers), c);
    }
  }

  /** What a component block that ends above row 20 leaves in row start + i, column col, once
      the totals, attendance and grade are written after it. */
  function BlockValue(h: map<Cell, Value>, cs: seq<Component>, start: nat, i: nat, col: nat): Value
    requires i < |cs|
  {
    if col == 1 then Text(cs[i].name)
    else if col == 3 then Int(cs[i].maxMarks)
    else if col == 4 then Text(Status(cs[i].name))
    else ValueAt(h, Cell(start + i, col))
  }

  lemma BlockCellAt(h: map<Cell, Value>, cs: seq<Component>, start: nat, i: nat, col: nat)
    requires i < |cs| && start + |cs| <= 20
    ensures ValueAt(GradeCells(AttendanceCells(TotalsCells(ComponentCells(h, cs, start, |cs|)))), Cell(start + i, col)) ==
            BlockValue(h, cs, start, i, col)
  {
    TailAt(ComponentCells(h, cs, start, |cs|), Cell(start + i, col));
    ComponentCellsAt(h, cs, start, |cs|, Cell(start + i, col));
  }

  /** Row start + i of such a block. */
  lemma BlockRowAt(h: map<Cell, Value>, cs: seq<Component>, start: nat, i: nat)
    requires i < |cs| && start + |cs| <= 20
    ensures var cells := GradeCells(AttendanceCells(TotalsCells(ComponentCells(h, cs, start, |cs|))));
            ValueAt(cells, Cell(start + i, 1)) == Text(cs[i].name) &&
            ValueAt(cells, Cell(start + i, 2)) == ValueAt(h, Cell(start + i, 2)) &&
            ValueAt(cells, Cell(start + i, 3)) == Int(cs[i].maxMarks) &&
            ValueAt(cells, Cell(start + i, 4)) == Text(Status(cs[i].name))
  {
    BlockCellAt(h, cs, start, i, 1);
    BlockCellAt(h, cs, start, i, 2);
    BlockCellAt(h, cs, start, i, 3);
    BlockCellAt(h, cs, start, i, 4);
  }

  /** Row 8 + i holds component i of the catalogue: its name in A, nothing in B for the mark
      to be entered, its maximum in C and its submission status in D. */
  lemma LayoutComponentRow(subject: string, b2: string, b3: string, b4: string, stamp: string, i: nat)
    requires i < |Catalogue|
    ensures var cells := LayoutCells(subject, b2, b3, b4, stamp);
            ValueAt(cells, Cell(FirstComponentRow + i, 1)) == Text(Catalogue[i].name) &&
            ValueAt(cells, Cell(FirstComponentRow + i, 2)) == Empty &&
            ValueAt(cells, Cell(FirstComponentRow + i, 3)) == Int(Catalogue[i].maxMarks) &&
            ValueAt(cells, Cell(FirstComponentRow + i, 4)) == Text(Status(Catalogue[i].name))
  {
    BlockRowAt(HeadedCells(subject, b2, b3, b4, stamp), Catalogue, FirstComponentRow, i);
    PutRowAt(IdentityCells(map[], subject, b2, b3, b4, stamp), 7, 1, Texts(Headers), Cell(FirstComponentRow + i, 2));
  }

  lemma LayoutComponents(subject: string, b2: string, b3: string, b4: string, stamp: string)
    ensures forall i :: 0 <= i < |Catalogue| ==>
              var cells := LayoutCells(subject, b2, b3, b4, stamp);
              ValueAt(cells, Cell(FirstComponentRow + i, 1)) == Text(Catalogue[i].name) &&
              ValueAt(cells, Cell(FirstComponentRow + i, 2)) == Empty &&
              ValueAt(cells, Cell(FirstComponentRow + i, 3)) == Int(Catalogue[i].maxMarks) &&
              ValueAt(cells, Cell(FirstComponentRow + i, 4)) == Text(Status(Catalogue[i].name))
  {
    forall i | 0 <= i < |Catalogue|
      ensures var cells := LayoutCells(subject, b2, b3, b4, stamp);
              ValueAt(cells, Cell(FirstComponentRow + i, 1)) == Text(Catalogue[i].name) &&
              ValueAt(cells, Cell(FirstComponentRow + i, 2)) == Empty &&
              ValueAt(cells, Cell(FirstComponentRow + i, 3)) == Int(Catalogue[i].maxMarks) &&
              ValueAt(cells, Cell(FirstComponentRow + i, 4)) == Text(Status(Catalogue[i].name))
    {
      LayoutComponentRow(subject, b2, b3, b4, stamp, i);
    }
  }

  /** Exactly the four assignments and the term paper are marked as submissions. */
  lemma CatalogueStatus(i: nat)
    requires i < |Catalogue|
    ensures Status(Catalogue[i].name) == (if i < 4 || i == 8 then "Yes" else "")
  {
    var text := Catalogue[i].name;
    if i < 4 {
      assert text[..10] == "Assignment";
    } else if i == 8 {
      assert text[..10] == "Term Paper";
    } else {
      assert text[0] != 'A' && text[0] != 'T';
    }
  }

  /** What row 16 says about the status list: D16 (Term Paper) reads "Yes" but lies outside
      D8:D13, while D12 and D13 (Quiz 1 and Quiz 2) lie inside it and read "". */
  lemma StatusListGap(subject: string, b2: string, b3: string, b4: string, stamp: string)
    ensures ValueAt(LayoutCells(subject, b2, b3, b4, stamp), Cell(16, 4)) == Text("Yes")
    ensures !Covers(StatusValidation.range, Cell(16, 4))
    ensures ValueAt(LayoutCells(subject, b2, b3, b4, stamp), Cell(12, 4)) == Text("")
    ensures Covers(StatusValidation.range, Cell(12, 4))
  {
    LayoutComponentRow(subject, b2, b3, b4, stamp, 8);
    CatalogueStatus(8);
    LayoutComponentRow(subject, b2, b3, b4, stamp, 4);
    CatalogueStatus(4);
  }

  /** Column D reads "Yes" for the four assignments and the term paper, and is blank
      (the empty string) for every other component. */
  lemma LayoutStatusColumn(subject: string, b2: string, b3: string, b4: string, stamp: string)
    ensures forall row :: 8 <= row < 20 ==>
              ValueAt(LayoutCells(subject, b2, b3, b4, stamp), Cell(row, 4)) ==
              Text(if row < 12 || row == 16 then "Yes" else "")
  {
    forall row | 8 <= row < 20
      ensures ValueAt(LayoutCells(subject, b2, b3, b4, stamp), Cell(row, 4)) ==
              Text(if row < 12 || row == 16 then "Yes" else "")
    {
      LayoutComponentRow(subject, b2, b3, b4, stamp, row - 8);
      CatalogueStatus(row - 8);
    }
  }

  // ---- Totals ----

  /** The number a cell contributes to a SUM: its integer, or nothing for text and blanks. */
  function IntAt(m: map<Cell, Value>, c: Cell): int {
    match ValueAt(m, c)
    case Int(n) => n
    case _ => 0
  }

  /** SUM over column col, rows lo .. lo + n - 1. */
  function ColumnSum(m: map<Cell, Value>, col: nat, lo: nat, n: nat): int {
    if n == 0 then 0 else ColumnSum(m, col, lo, n - 1) + IntAt(m, Cell(lo + n - 1, col))
  }

  /** The sum of the maxima of the first n components. */
  function MaxSum(cs: seq<Component>, n: nat): nat
    requires n <= |cs|
  {
    if n == 0 then 0 else MaxSum(cs, n - 1) + cs[n - 1].maxMarks
  }

  /** Sums over rows above 20 are not changed by the writes after the component block. */
  lemma {:induction false} ColumnSumTail(m: map<Cell, Value>, col: nat, lo: nat, n: nat)
    requires lo + n <= 20
    ensures ColumnSum(GradeCells(AttendanceCells(TotalsCells(m))), col, lo, n) == ColumnSum(m, col, lo, n)
  {
    if n > 0 {
      ColumnSumTail(m, col, lo, n - 1);
      TailAt(m, Cell(lo + n - 1, col));
    }
  }

  /** Down column C of a component block, n rows from row lo = start + a sum to the maxima
      of the components written there. */
  lemma {:induction false} BlockColumnSum(h: map<Cell, Value>, cs: seq<Component>, start: nat, a: nat, lo: nat, n: nat)
    requires a + n <= |cs| && lo == start + a
    ensures ColumnSum(ComponentCells(h, cs, start, |cs|), 3, lo, n) == MaxSum(cs[a..], n)
  {
    if n > 0 {
      BlockColumnSum(h, cs, start, a, lo, n - 1);
      ComponentCellsAt(h, cs, start, |cs|, Cell(lo + n - 1, 3));
      assert cs[a..][n - 1] == cs[a + n - 1];
    }
  }

  /** The maxima of rows 8 to 17 add up to 55. */
  lemma PreMidsMaxima()
    ensures MaxSum(Catalogue[0..], 10) == 55
  {
    assert Catalogue[0..] == Catalogue;
  }

  /** The maxima of rows 18 and 19 (the two exams) add up to 45. */
  lemma FinalMaxima()
    ensures MaxSum(Catalogue[10..], 2) == 45
  {
    var exams := Catalogue[10..];
    assert exams[0].maxMarks == 20 && exams[1].maxMarks == 25;
    assert MaxSum(exams, 1) == 20;
  }

  /** The formula SUM(colN:colM) as written. */
  function SumFormula(col: string, lo: nat, hi: nat): string {
    "=SUM(" + col + NatText(lo) + ":" + col + NatText(hi) + ")"
  }

  lemma PreMidsFormula()
    ensures "=SUM(B8:B17)" == SumFormula("B", 8, 17)
  {
    assert NatText(8) == "8";
    assert NatText(17) == "17";
  }

  lemma FinalFormula()
    ensures "=SUM(B18:B20)" == SumFormula("B", 18, 20)
  {
    assert NatText(18) == "18";
    assert NatText(20) == "20";
  }

  // What rows 20 to 28 hold once the tail blocks are written, whatever came before.

  lemma TotalsTail(m: map<Cell, Value>)
    ensures var cells := GradeCells(AttendanceCells(TotalsCells(m)));
            ValueAt(cells, Cell(20, 2)) == Formula("=SUM(B8:B17)") && ValueAt(cells, Cell(20, 3)) == Int(55) &&
            ValueAt(cells, Cell(21, 2)) == Formula("=SUM(B18:B20)") && ValueAt(cells, Cell(21, 3)) == Int(100)
  {
  }

  lemma AttendanceTail(m: map<Cell, Value>)
    ensures var cells := GradeCells(AttendanceCells(TotalsCells(m)));
            ValueAt(cells, Cell(24, 2)) == Int(30) && ValueAt(cells, Cell(25, 2)) == Text("") &&
            ValueAt(cells, Cell(26, 2)) == Formula(AttendanceFormula)
  {
  }

  lemma GradeTail(m: map<Cell, Value>)
    ensures ValueAt(GradeCells(AttendanceCells(TotalsCells(m))), GradeCell) == Formula(GradeFormula)
  {
  }

  /** B20 sums the marks of rows 8 to 17 (the assignments, quizzes, term paper and CP marks)
      and the maximum beside it, 55, is the sum of those rows' maxima. */
  lemma LayoutPreMidsTotal(subject: string, b2: string, b3: string, b4: string, stamp: string)
    ensures var cells := LayoutCells(subject, b2, b3, b4, stamp);
            ValueAt(cells, Cell(20, 2)) == Formula(SumFormula("B", 8, 17)) &&
            ValueAt(cells, Cell(20, 3)) == Int(55) &&
            ColumnSum(cells, 3, 8, 10) == 55
  {
    PreMidsTail(HeadedCells(subject, b2, b3, b4, stamp));
    PreMidsFormula();
  }

  /** The same, whatever the cells above the component block hold. */
  lemma PreMidsTail(h: map<Cell, Value>)
    ensures var cells := GradeCells(AttendanceCells(TotalsCells(ComponentCells(h, Catalogue, FirstComponentRow, |Catalogue|))));
            ValueAt(cells, Cell(20, 2)) == Formula("=SUM(B8:B17)") &&
            ValueAt(cells, Cell(20, 3)) == Int(55) &&
            ColumnSum(cells, 3, 8, 10) == 55
  {
    TotalsTail(ComponentCells(h, Catalogue, FirstComponentRow, |Catalogue|));
    ColumnSumTail(ComponentCells(h, Catalogue, FirstComponentRow, |Catalogue|), 3, 8, 10);
    BlockColumnSum(h, Catalogue, FirstComponentRow, 0, 8, 10);
    PreMidsMaxima();
  }

  /** B21 sums rows 18 to 20 (midterms, finals and the pre-mids total) and the maximum beside
      it, 100, is the sum of C18 to C20. */
  lemma LayoutFinalTotal(subject: string, b2: string, b3: string, b4: string, stamp: string)
    ensures var cells := LayoutCells(subject, b2, b3, b4, stamp);
            ValueAt(cells, Cell(21, 2)) == Formula(SumFormula("B", 18, 20)) &&
            ValueAt(cells, Cell(21, 3)) == Int(100) &&
            ColumnSum(cells, 3, 18, 3) == 100
  {
    FinalTail(HeadedCells(subject, b2, b3, b4, stamp));
    FinalFormula();
  }

  /** The same, whatever the cells above the component block hold. */
  lemma FinalTail(h: map<Cell, Value>)
    ensures var cells := GradeCells(AttendanceCells(TotalsCells(ComponentCells(h, Catalogue, FirstComponentRow, |Catalogue|))));
            ValueAt(cells, Cell(21, 2)) == Formula("=SUM(B18:B20)") &&
            ValueAt(cells, Cell(21, 3)) == Int(100) &&
            ColumnSum(cells, 3, 18, 3) == 100
  {
    var cells := GradeCells(AttendanceCells(TotalsCells(ComponentCells(h, Catalogue, FirstComponentRow, |Catalogue|))));
    TotalsTail(ComponentCells(h, Catalogue, FirstComponentRow, |Catalogue|));
    ColumnSumTail(ComponentCells(h, Catalogue, FirstComponentRow, |Catalogue|), 3, 18, 2);
    BlockColumnSum(h, Catalogue, FirstComponentRow, 10, 18, 2);
    FinalMaxima();
    assert ColumnSum(cells, 3, 18, 3) == ColumnSum(cells, 3, 18, 2) + IntAt(cells, Cell(20, 3));
  }

  // ---- Attendance and grade ----

  /** B24 holds 30 classes and B25 is left blank, so B26 starts at 0; once a count of classes
      attended is entered B26 holds that count as a share of 30, times 100 (see
      AttendanceShown for what the percentage format then displays). */
  lemma LayoutAttendance(subject: string, b2: string, b3: string, b4: string, stamp: string, attended: int)
    ensures var cells := LayoutCells(subject, b2, b3, b4, stamp);
            ValueAt(cells, Cell(26, 2)) == Formula(AttendanceFormula) &&
            Attendance(ValueAt(cells, Cell(25, 2)), ValueAt(cells, Cell(24, 2))) == Some(0.0) &&
            Attendance(Int(attended), ValueAt(cells, Cell(24, 2))) == Some(attended as real / 30.0 * 100.0)
  {
    var cells := LayoutCells(subject, b2, b3, b4, stamp);
    AttendanceTail(ComponentCells(HeadedCells(subject, b2, b3, b4, stamp), Catalogue, FirstComponentRow, |Catalogue|));
    assert ValueAt(cells, Cell(24, 2)) == Int(30) && ValueAt(cells, Cell(25, 2)) == Text("");
    AttendanceOfThirty(attended);
  }

  /** Over 30 classes, a blank count gives 0 and a count gives its share of 30. */
  lemma AttendanceOfThirty(attended: int)
    ensures Attendance(Text(""), Int(30)) == Some(0.0)
    ensures Attendance(Int(attended), Int(30)) == Some(attended as real / 30.0 * 100.0)
  {
    var r := Attendance(Int(attended), Int(30));
    assert r.Some? && r.value == attended as real / (30 as real) * 100.0;
    assert (30 as real) == 30.0;
    assert r.value == attended as real / 30.0 * 100.0;
  }

  /** The figure a cell with the 0.00% number format displays before its % sign: 100 times
      its value. */
  function PercentShown(v: real): real {
    v * 100.0
  }

  /** B26 already multiplies by 100 and is also formatted as a percentage, so 15 classes out of
      30 hold 50 and display as 5000.00%; a full count displays as 10000.00%. */
  lemma AttendanceShown()
    ensures Attendance(Int(15), Int(30)).Some? && Attendance(Int(15), Int(30)).value == 50.0
    ensures PercentShown(Attendance(Int(15), Int(30)).value) == 5000.0
    ensures PercentShown(Attendance(Int(30), Int(30)).value) == 10000.0
  {
    AttendanceOfThirty(15);
    AttendanceOfThirty(30);
  }

  /** B28 holds the grade scale rendered over the final total in B21. */
  lemma LayoutGrade(subject: string, b2: string, b3: string, b4: string, stamp: string)
    ensures ValueAt(LayoutCells(subject, b2, b3, b4, stamp), GradeCell) == Formula("=" + Render(GradeScale, "B21"))
  {
    GradeTail(ComponentCells(HeadedCells(subject, b2, b3, b4, stamp), Catalogue, FirstComponentRow, |Catalogue|));
    GradeFormulaIsScale();
  }

  // ---- The rest of the finished sheet ----

  /** Decorate leaves the title, the cells and the styles as it found them. */
  lemma DecoratedFields(w: SheetState)
    ensures var d := Decorated(w);
            d.title == w.title && d.cells == w.cells && d.fonts == w.fonts && d.centered == w.centered &&
            d.fills == w.fills && d.formats == w.formats &&
            d.borders == BorderCells(w.borders) &&
            d.validations == w.validations + MarksValidations(w.cells, FirstComponentRow, |Catalogue|) + [StatusValidation] &&
            d.highlights == w.highlights + GradeHighlights &&
            d.widths == w.widths[1 := 20][2 := 15][3 := 10][4 := 15][5 := 25] &&
            d.freeze == Some(Cell(8, 1)) && d.maxRow == Max(w.maxRow, 28)
  {
  }

  /** What the writes leave on the blank sheet besides the styles. */
  lemma WrittenFields(subject: string, b2: string, b3: string, b4: string, stamp: string)
    ensures var w := WrittenState(subject, b2, b3, b4, stamp);
            w.title == subject && w.cells == LayoutCells(subject, b2, b3, b4, stamp) &&
            w.borders == {} && w.validations == [] && w.highlights == [] && w.widths == map[] &&
            w.formats == map[Cell(26, 2) := PercentFormat] && w.maxRow == 28
  {
  }

  /** The finished sheet is titled after its subject, holds the layout's cells, shows B26 as
      a percentage and carries the five grade rules. */
  lemma LayoutFields(subject: string, b2: string, b3: string, b4: string, stamp: string)
    ensures var w := LayoutState(subject, b2, b3, b4, stamp);
            w.title == subject && w.cells == LayoutCells(subject, b2, b3, b4, stamp) &&
            w.formats == map[Cell(26, 2) := PercentFormat] && w.highlights == GradeHighlights
  {
    DecoratedFields(WrittenState(subject, b2, b3, b4, stamp));
    WrittenFields(subject, b2, b3, b4, stamp);
    assert [] + GradeHighlights == GradeHighlights;
  }

  /** Columns A to E are 20, 15, 10, 15 and 25 wide, the pane is frozen at A8 (rows 1 to 7
      stay in view) and row 28 is the last row touched. */
  lemma LayoutView(subject: string, b2: string, b3: string, b4: string, stamp: string)
    ensures var w := LayoutState(subject, b2, b3, b4, stamp);
            w.widths == map[1 := 20, 2 := 15, 3 := 10, 4 := 15, 5 := 25] &&
            w.freeze == Some(Cell(8, 1)) && w.maxRow == 28
  {
    DecoratedFields(WrittenState(subject, b2, b3, b4, stamp));
    WrittenFields(subject, b2, b3, b4, stamp);
  }

  // Each of the following exposes one field of the finished sheet.

  lemma BordersOf(subject: string, b2: string, b3: string, b4: string, stamp: string)
    ensures LayoutState(subject, b2, b3, b4, stamp).borders == BorderCells({})
  {
    DecoratedFields(WrittenState(subject, b2, b3, b4, stamp));
    WrittenFields(subject, b2, b3, b4, stamp);
  }

  lemma ValidationsOf(subject: string, b2: string, b3: string, b4: string, stamp: string)
    ensures LayoutState(subject, b2, b3, b4, stamp).validations ==
            [] + MarksValidations(LayoutCells(subject, b2, b3, b4, stamp), FirstComponentRow, |Catalogue|) + [StatusValidation]
  {
    DecoratedFields(WrittenState(subject, b2, b3, b4, stamp));
    WrittenFields(subject, b2, b3, b4, stamp);
  }

  lemma FontsOf(subject: string, b2: string, b3: string, b4: string, stamp: string)
    ensures LayoutState(subject, b2, b3, b4, stamp).fonts == PutSame(map[Cell(1, 1) := TitleFont], 7, 1, |Headers|, HeaderFont)
  {
    DecoratedFields(WrittenState(subject, b2, b3, b4, stamp));
  }

  lemma CenteredOf(subject: string, b2: string, b3: string, b4: string, stamp: string)
    ensures LayoutState(subject, b2, b3, b4, stamp).centered == AddRow({}, 7, 1, |Headers|)
  {
    DecoratedFields(WrittenState(subject, b2, b3, b4, stamp));
  }

  lemma FillsOf(subject: string, b2: string, b3: string, b4: string, stamp: string)
    ensures LayoutState(subject, b2, b3, b4, stamp).fills == PutSame(map[], 7, 1, |Headers|, HeaderFill)
  {
    DecoratedFields(WrittenState(subject, b2, b3, b4, stamp));
  }

  lemma BorderCellsHas(s: set<Cell>)
    ensures forall c :: c in BorderCells(s) <==>
              (c in s || (7 <= c.row <= 21 && 1 <= c.col <= 5) || (24 <= c.row <= 26 && 1 <= c.col <= 2) || c == GradeCell)
  {
    AddRectHas(s, 7, 15, 1, 5);
    AddRectHas(AddRect(s, 7, 15, 1, 5), 24, 3, 1, 2);
  }

  lemma BorderCellsSize(s: set<Cell>)
    requires forall c :: c in s ==> c.row < 7
    ensures |BorderCells(s)| == |s| + 82
  {
    var upper := AddRect(s, 7, 15, 1, 5);
    AddRectHas(s, 7, 15, 1, 5);
    AddRectSize(s, 7, 15, 1, 5);
    AddRectHas(upper, 24, 3, 1, 2);
    AddRectSize(upper, 24, 3, 1, 2);
    assert GradeCell !in AddRect(upper, 24, 3, 1, 2);
  }

  /** The cells DrawBorders draws on: A7:E21, A24:B26 and B28. */
  predicate Bordered(c: Cell) {
    (7 <= c.row <= 21 && 1 <= c.col <= 5) || (24 <= c.row <= 26 && 1 <= c.col <= 2) || c == GradeCell
  }

  lemma BordersExactly(b: set<Cell>)
    requires b == BorderCells({})
    ensures forall c :: c in b <==> Bordered(c)
  {
    BorderCellsHas({});
  }

  lemma BorderCount()
    ensures |BorderCells({})| == 82
  {
    BorderCellsSize({});
  }

  /** Borders are drawn on exactly A7:E21, A24:B26 and B28: 82 cells. */
  lemma LayoutBorders(subject: string, b2: string, b3: string, b4: string, stamp: string)
    ensures forall c :: c in LayoutState(subject, b2, b3, b4, stamp).borders <==> Bordered(c)
  {
    BordersOf(subject, b2, b3, b4, stamp);
    BordersExactly(LayoutState(subject, b2, b3, b4, stamp).borders);
  }

  lemma LayoutBorderCount(subject: string, b2: string, b3: string, b4: string, stamp: string)
    ensures |LayoutState(subject, b2, b3, b4, stamp).borders| == 82
  {
    BordersOf(subject, b2, b3, b4, stamp);
    BorderCount();
  }

  /** Validation i of MarksValidations bounds B(start + i) by what C(start + i) held. */
  lemma {:induction false} MarksValidationsAt(cells: map<Cell, Value>, start: nat, n: nat)
    ensures |MarksValidations(cells, start, n)| == n
    ensures forall i :: 0 <= i < n ==>
              MarksValidations(cells, start, n)[i] ==
              Validation(DecimalBetween(0, ValueAt(cells, Cell(start + i, 3))), Range(Cell(start + i, 2), Cell(start + i, 2)))
  {
    if n > 0 {
      MarksValidationsAt(cells, start, n - 1);
    }
  }

  /** Thirteen validations: B8 to B19 each take a decimal from 0 to its component's maximum,
      then the Yes/No list on D8:D13. */
  predicate MarksBounded(vs: seq<Validation>) {
    |vs| == |Catalogue| + 1 &&
    (forall i :: 0 <= i < |Catalogue| ==>
       vs[i] == Validation(DecimalBetween(0, Int(Catalogue[i].maxMarks)),
                           Range(Cell(FirstComponentRow + i, 2), Cell(FirstComponentRow + i, 2)))) &&
    vs[|Catalogue|] == StatusValidation
  }

  /** The validations Decorate adds to a blank sheet whose column C holds the maxima. */
  lemma ValidationsOverMaxima(cells: map<Cell, Value>)
    requires forall i :: 0 <= i < |Catalogue| ==> ValueAt(cells, Cell(FirstComponentRow + i, 3)) == Int(Catalogue[i].maxMarks)
    ensures MarksBounded([] + MarksValidations(cells, FirstComponentRow, |Catalogue|) + [StatusValidation])
  {
    MarksValidationsAt(cells, FirstComponentRow, |Catalogue|);
  }

  lemma LayoutValidations(subject: string, b2: string, b3: string, b4: string, stamp: string)
    ensures MarksBounded(LayoutState(subject, b2, b3, b4, stamp).validations)
  {
    ValidationsOf(subject, b2, b3, b4, stamp);
    LayoutComponents(subject, b2, b3, b4, stamp);
    ValidationsOverMaxima(LayoutCells(subject, b2, b3, b4, stamp));
  }

  /** The fonts, centring and fills WriteIdentity and WriteHeaders leave on a blank sheet. */
  lemma HeaderStyles()
    ensures forall c :: c in PutSame(map[Cell(1, 1) := TitleFont], 7, 1, |Headers|, HeaderFont) <==>
              (c == Cell(1, 1) || (c.row == 7 && 1 <= c.col <= 5))
    ensures Cell(1, 1) in PutSame(map[Cell(1, 1) := TitleFont], 7, 1, |Headers|, HeaderFont) &&
            PutSame(map[Cell(1, 1) := TitleFont], 7, 1, |Headers|, HeaderFont)[Cell(1, 1)] == TitleFont
    ensures forall k :: 1 <= k <= 5 ==>
              Cell(7, k) in PutSame(map[Cell(1, 1) := TitleFont], 7, 1, |Headers|, HeaderFont) &&
              PutSame(map[Cell(1, 1) := TitleFont], 7, 1, |Headers|, HeaderFont)[Cell(7, k)] == HeaderFont
    ensures forall c :: c in AddRow({}, 7, 1, |Headers|) <==> (c.row == 7 && 1 <= c.col <= 5)
    ensures forall c :: c in PutSame(map[], 7, 1, |Headers|, HeaderFill) <==> (c.row == 7 && 1 <= c.col <= 5)
    ensures forall k :: 1 <= k <= 5 ==>
              Cell(7, k) in PutSame(map[], 7, 1, |Headers|, HeaderFill) &&
              PutSame(map[], 7, 1, |Headers|, HeaderFill)[Cell(7, k)] == HeaderFill
  {
    var fonts := PutSame(map[Cell(1, 1) := TitleFont], 7, 1, |Headers|, HeaderFont);
    var fills := PutSame(map[], 7, 1, |Headers|, HeaderFill);
    AddRowHas({}, 7, 1, |Headers|);
    forall c
      ensures (c in fonts <==> (c == Cell(1, 1) || (c.row == 7 && 1 <= c.col <= 5)))
      ensures (c in fills <==> (c.row == 7 && 1 <= c.col <= 5))
      ensures c.row == 7 && 1 <= c.col <= 5 ==> fonts[c] == HeaderFont && fills[c] == HeaderFill
    {
      PutSameAt(map[Cell(1, 1) := TitleFont], 7, 1, |Headers|, HeaderFont, c);
      PutSameAt(map[], 7, 1, |Headers|, HeaderFill, c);
    }
    PutSameAt(map[Cell(1, 1) := TitleFont], 7, 1, |Headers|, HeaderFont, Cell(1, 1));
    forall k | 1 <= k <= 5
      ensures fonts[Cell(7, k)] == HeaderFont && fills[Cell(7, k)] == HeaderFill
    {
      PutSameAt(map[Cell(1, 1) := TitleFont], 7, 1, |Headers|, HeaderFont, Cell(7, k));
      PutSameAt(map[], 7, 1, |Headers|, HeaderFill, Cell(7, k));
    }
  }

  /** A1 is bold at size 14; the five header cells of row 7, and only they, are bold,
      centred and filled grey. */
  ghost predicate HeaderStyled(w: SheetState) {
    (forall c :: c in w.fonts <==> (c == Cell(1, 1) || (c.row == 7 && 1 <= c.col <= 5))) &&
    Cell(1, 1) in w.fonts && w.fonts[Cell(1, 1)] == TitleFont &&
    (forall k :: 1 <= k <= 5 ==> Cell(7, k) in w.fonts && w.fonts[Cell(7, k)] == HeaderFont) &&
    (forall c :: c in w.centered <==> (c.row == 7 && 1 <= c.col <= 5)) &&
    (forall c :: c in w.fills <==> (c.row == 7 && 1 <= c.col <= 5)) &&
    (forall k :: 1 <= k <= 5 ==> Cell(7, k) in w.fills && w.fills[Cell(7, k)] == HeaderFill)
  }

  lemma StylesFrom(w: SheetState)
    requires w.fonts == PutSame(map[Cell(1, 1) := TitleFont], 7, 1, |Headers|, HeaderFont)
    requires w.centered == AddRow({}, 7, 1, |Headers|)
    requires w.fills == PutSame(map[], 7, 1, |Headers|, HeaderFill)
    ensures HeaderStyled(w)
  {
    HeaderStyles();
  }

  lemma LayoutStyles(subject: string, b2: string, b3: string, b4: string, stamp: string)
    ensures HeaderStyled(LayoutState(subject, b2, b3, b4, stamp))
  {
    FontsOf(subject, b2, b3, b4, stamp);
    CenteredOf(subject, b2, b3, b4, stamp);
    FillsOf(subject, b2, b3, b4, stamp);
    StylesFrom(LayoutState(subject, b2, b3, b4, stamp));
  }
}
