/** create_marksheet.py: six sheets "Subject 1" to "Subject 6", each with fixed identity and
    header cells and then seventeen rows added with append, saved once at the end. append
    writes to the row after the highest row accessed so far (see Sheet.Append). */
module Minimal {
  import opened Spreadsheet
  import opened Layout
  import opened Builder
  import opened Grading

  const MinimalSubjects: seq<string> := ["Subject 1", "Subject 2", "Subject 3", "Subject 4", "Subject 5", "Subject 6"]

  /** The table headers, written to A6:C6 and appended again. */
  const TableHeaders: seq<string> := ["Component", "Marks Obtained", "Max Marks"]

  /** The fourteen appended components: the twelve of the full layout and then the two totals. */
  const MinimalCatalogue: seq<Component> := [
    Component("Assignment 1", 5), Component("Assignment 2", 5),
    Component("Assignment 3", 5), Component("Assignment 4", 5),
    Component("Quiz 1", 5), Component("Quiz 2", 5), Component("Quiz 3", 5), Component("Quiz 4", 5),
    Component("Term Paper", 10), Component("CP Marks/Bonus", 5),
    Component("Midterms", 20), Component("Finals", 25),
    Component("Pre-Mids Total", 55), Component("Final Total", 100)
  ]

  const BoldFont: Font := Font(true, None)

  /** The first twelve appended components are the catalogue of the full layout. */
  lemma CatalogueExtends()
    ensures |MinimalCatalogue| == |Catalogue| + 2
    ensures MinimalCatalogue[..|Catalogue|] == Catalogue
  {
  }

  /** A1 to B4 and A6 to C6, written by assignment before any append. */
  function FixedCells(subject: string): map<Cell, Value> {
    map[Cell(1, 1) := Text("Marksheet for " + subject),
        Cell(2, 1) := Text("Student Name:"), Cell(2, 2) := Text("[Enter Name]"),
        Cell(3, 1) := Text("Student ID:"), Cell(3, 2) := Text("[Enter ID]"),
        Cell(4, 1) := Text("Semester:"), Cell(4, 2) := Text("[Enter Semester]"),
        Cell(6, 1) := Text("Component"), Cell(6, 2) := Text("Marks Obtained"), Cell(6, 3) := Text("Max Marks")]
  }

  /** [component, "", max_marks] */
  function ComponentRow(c: Component): seq<Value> {
    [Text(c.name), Text(""), Int(c.maxMarks)]
  }

  function ComponentRows(cs: seq<Component>): (r: seq<seq<Value>>)
    ensures |r| == |cs| && forall k :: 0 <= k < |cs| ==> r[k] == ComponentRow(cs[k])
  {
    seq(|cs|, k requires 0 <= k < |cs| => ComponentRow(cs[k]))
  }

  const PreMidsRow: seq<Value> := [Text("Pre-Mids Total"), Formula("=SUM(B7:B10)"), Int(55)]
  const FinalRow: seq<Value> := [Text("Final Total"), Formula("=SUM(B11:B13)"), Int(100)]

  /** The rows appended, in order. */
  function Appended(): seq<seq<Value>> {
    [Texts(TableHeaders)] + ComponentRows(MinimalCatalogue) + [PreMidsRow, FinalRow]
  }

  /** The sheet once the builder is done with it. */
  function MinimalState(subject: string): SheetState {
    Blank(subject).(cells := PutRows(FixedCells(subject), 7, Appended()),
                    fonts := PutSame(map[], 6, 1, 3, BoldFont),
                    centered := AddRow({}, 6, 1, 3),
                    widths := map[1 := 20, 2 := 15, 3 := 15],
                    maxRow := 23)
  }

  /** Writing rows a and then rows b after them is writing a + b. */
  lemma {:induction false} PutRowsConcat(m: map<Cell, Value>, start: nat, a: seq<seq<Value>>, b: seq<seq<Value>>)
    ensures PutRows(m, start, a + b) == PutRows(PutRows(m, start, a), start + |a|, b)
    decreases |b|
  {
    if |b| == 0 {
      assert a + b == a;
    } else {
      var n := |b| - 1;
      assert (a + b)[..|a| + n] == a + b[..n];
      assert (a + b)[|a| + n] == b[n];
      PutRowsConcat(m, start, a, b[..n]);
    }
  }

  /** One row more. */
  lemma PutRowsStep(m: map<Cell, Value>, start: nat, rows: seq<seq<Value>>, n: nat)
    requires n < |rows|
    ensures PutRows(m, start, rows[..n + 1]) == PutRow(PutRows(m, start, rows[..n]), start + n, 1, rows[n])
  {
    assert rows[..n + 1][..n] == rows[..n];
  }

  /** for component, max_marks in components: ws.append([component, "", max_marks]) */
  method AppendComponents(ws: Sheet, cs: seq<Component>)
    modifies ws
    ensures ws.State() == old(ws.State()).(cells := PutRows(old(ws.cells), old(ws.maxRow) + 1, ComponentRows(cs)),
                                           maxRow := old(ws.maxRow) + |cs|)
  {
    var rows := ComponentRows(cs);
    var i := 0;
    while i < |cs|
      invariant 0 <= i <= |cs|
      invariant ws.State() == old(ws.State()).(cells := PutRows(old(ws.cells), old(ws.maxRow) + 1, rows[..i]),
                                               maxRow := old(ws.maxRow) + i)
    {
      PutRowsStep(old(ws.cells), old(ws.maxRow) + 1, rows, i);
      ws.Append(ComponentRow(cs[i]));
      i := i + 1;
    }
    assert rows[..i] == rows;
  }

  /** The header cells A1 to C6, by assignment. */
  method WriteFixed(ws: Sheet, subject: string)
    requires ws.State() == Blank(subject)
    modifies ws
    ensures ws.State() == Blank(subject).(cells := FixedCells(subject), maxRow := 6)
  {
    ws.Put(Cell(1, 1), Text("Marksheet for " + subject));
    ws.Put(Cell(2, 1), Text("Student Name:"));
    ws.Put(Cell(2, 2), Text("[Enter Name]"));
    ws.Put(Cell(3, 1), Text("Student ID:"));
    ws.Put(Cell(3, 2), Text("[Enter ID]"));
    ws.Put(Cell(4, 1), Text("Semester:"));
    ws.Put(Cell(4, 2), Text("[Enter Semester]"));
    ws.Put(Cell(6, 1), Text("Component"));
    ws.Put(Cell(6, 2), Text("Marks Obtained"));
    ws.Put(Cell(6, 3), Text("Max Marks"));
  }

  /** Writing a header row, a block of rows and two closing rows is writing them one after
      the other. */
  lemma TableRows(m: map<Cell, Value>, start: nat, h: seq<Value>, rows: seq<seq<Value>>, p: seq<Value>, f: seq<Value>)
    ensures PutRows(m, start, [h] + rows + [p, f]) ==
            PutRow(PutRow(PutRows(PutRow(m, start, 1, h), start + 1, rows), start + 1 + |rows|, 1, p),
                   start + 2 + |rows|, 1, f)
  {
    assert [h][..0] == [];
    assert PutRows(m, start, [h]) == PutRow(m, start, 1, h);
    PutRowsConcat(m, start, [h], rows);
    var x := PutRows(m, start, [h] + rows);
    var s := start + 1 + |rows|;
    assert [p, f][..1] == [p];
    assert [p][..0] == [];
    assert PutRows(x, s, [p]) == PutRow(x, s, 1, p);
    assert PutRows(x, s, [p, f]) == PutRow(PutRow(x, s, 1, p), s + 1, 1, f);
    PutRowsConcat(m, start, [h] + rows, [p, f]);
  }

  /** The appends of the body: a header row, one row per component and two closing rows,
      each on the row after the highest so far. */
  method AppendTable(ws: Sheet, header: seq<Value>, cs: seq<Component>, preMids: seq<Value>, final: seq<Value>)
    modifies ws
    ensures ws.State() == old(ws.State()).(
              cells := PutRows(old(ws.cells), old(ws.maxRow) + 1, [header] + ComponentRows(cs) + [preMids, final]),
              maxRow := old(ws.maxRow) + |cs| + 3)
  {
    ws.Append(header);
    AppendComponents(ws, cs);
    ws.Append(preMids);
    ws.Append(final);
    TableRows(old(ws.cells), old(ws.maxRow) + 1, header, ComponentRows(cs), preMids, final);
  }

  /** A6 to C6 bold and centred. */
  method StyleHeaders(ws: Sheet)
    requires ws.maxRow >= 6
    modifies ws
    ensures ws.State() == old(ws.State()).(fonts := PutSame(old(ws.fonts), 6, 1, 3, BoldFont),
                                           centered := AddRow(old(ws.centered), 6, 1, 3))
  {
    var col := 1;
    while col <= 3
      invariant 1 <= col <= 4
      invariant ws.State() == old(ws.State()).(fonts := PutSame(old(ws.fonts), 6, 1, col - 1, BoldFont),
                                               centered := AddRow(old(ws.centered), 6, 1, col - 1))
    {
      ws.SetFont(Cell(6, col), BoldFont);
      ws.Center(Cell(6, col));
      col := col + 1;
    }
  }

  /** The body of the loop over subjects, on a sheet just created for the subject. */
  method BuildMinimalSheet(ws: Sheet, subject: string)
    requires ws.State() == Blank(subject)
    modifies ws
    ensures ws.State() == MinimalState(subject)
  {
    WriteFixed(ws, subject);
    // the seventeen appends: the header, the fourteen components and the two totals
    AppendTable(ws, Texts(TableHeaders), MinimalCatalogue, PreMidsRow, FinalRow);
    StyleHeaders(ws);
    ws.SetWidth(1, 20);
    ws.SetWidth(2, 15);
    ws.SetWidth(3, 15);
  }

  // ---- The finished sheet ----

  /** The appended rows by position: the header, the fourteen components, then the totals. */
  lemma AppendedAt(k: nat)
    requires k < 17
    ensures |Appended()| == 17 && |Appended()[k]| == 3
    ensures k == 0 ==> Appended()[k] == Texts(TableHeaders)
    ensures 1 <= k <= 14 ==> Appended()[k] == ComponentRow(MinimalCatalogue[k - 1])
    ensures k == 15 ==> Appended()[k] == PreMidsRow
    ensures k == 16 ==> Appended()[k] == FinalRow
  {
    var rows := ComponentRows(MinimalCatalogue);
    assert Appended() == [Texts(TableHeaders)] + rows + [PreMidsRow, FinalRow];
    if 1 <= k <= 14 {
      assert Appended()[k] == rows[k - 1];
    }
  }

  /** The cells of the finished sheet: A1 to C6 as assigned, then the appended rows 7 to 23
      in columns A to C, and nothing else. */
  lemma MinimalCellAt(subject: string, c: Cell)
    ensures c in MinimalState(subject).cells <==> c in FixedCells(subject) || (7 <= c.row <= 23 && 1 <= c.col <= 3)
    ensures c.row < 7 ==> ValueAt(MinimalState(subject).cells, c) == ValueAt(FixedCells(subject), c)
    ensures 7 <= c.row <= 23 && 1 <= c.col <= 3 ==>
              ValueAt(MinimalState(subject).cells, c) == Appended()[c.row - 7][c.col - 1]
  {
    AppendedAt(0);
    if 7 <= c.row <= 23 {
      AppendedAt(c.row - 7);
      if !(1 <= c.col <= 3) {
        PutRowsBeside(FixedCells(subject), 7, Appended(), c);
      }
    }
    PutRowsAt(FixedCells(subject), 7, Appended(), c);
  }

  /** Row r of the sheet, for r from 7 to 23, is appended row r - 7. */
  lemma AppendedRow(subject: string, r: nat, vals: seq<Value>)
    requires 7 <= r <= 23 && Appended()[r - 7] == vals
    ensures |vals| == 3
    ensures ValueAt(MinimalState(subject).cells, Cell(r, 1)) == vals[0]
    ensures ValueAt(MinimalState(subject).cells, Cell(r, 2)) == vals[1]
    ensures ValueAt(MinimalState(subject).cells, Cell(r, 3)) == vals[2]
  {
    AppendedAt(r - 7);
    MinimalCellAt(subject, Cell(r, 1));
    MinimalCellAt(subject, Cell(r, 2));
    MinimalCellAt(subject, Cell(r, 3));
  }

  /** The title and the placeholder identity cells, whatever the subject. */
  lemma MinimalIdentity(subject: string)
    ensures ValueAt(MinimalState(subject).cells, Cell(1, 1)) == Text("Marksheet for " + subject)
    ensures ValueAt(MinimalState(subject).cells, Cell(2, 2)) == Text("[Enter Name]")
    ensures ValueAt(MinimalState(subject).cells, Cell(3, 2)) == Text("[Enter ID]")
    ensures ValueAt(MinimalState(subject).cells, Cell(4, 2)) == Text("[Enter Semester]")
    ensures ValueAt(MinimalState(subject).cells, Cell(5, 1)) == Empty
  {
    MinimalCellAt(subject, Cell(1, 1));
    MinimalCellAt(subject, Cell(2, 2));
    MinimalCellAt(subject, Cell(3, 2));
    MinimalCellAt(subject, Cell(4, 2));
    MinimalCellAt(subject, Cell(5, 1));
  }

  /** The table header is written to row 6 by assignment and appended again to row 7. */
  lemma HeaderTwice(subject: string, col: nat)
    requires 1 <= col <= 3
    ensures ValueAt(MinimalState(subject).cells, Cell(6, col)) == Text(TableHeaders[col - 1])
    ensures ValueAt(MinimalState(subject).cells, Cell(7, col)) == Text(TableHeaders[col - 1])
  {
    MinimalCellAt(subject, Cell(6, col));
    MinimalCellAt(subject, Cell(7, col));
    AppendedAt(0);
  }

  /** Component i of the catalogue lands on row 8 + i, one row below where the full layout
      puts it: name, an empty mark and its maximum. */
  lemma MinimalComponentRow(subject: string, i: nat)
    requires i < |MinimalCatalogue|
    ensures ValueAt(MinimalState(subject).cells, Cell(8 + i, 1)) == Text(MinimalCatalogue[i].name)
    ensures ValueAt(MinimalState(subject).cells, Cell(8 + i, 2)) == Text("")
    ensures ValueAt(MinimalState(subject).cells, Cell(8 + i, 3)) == Int(MinimalCatalogue[i].maxMarks)
  {
    AppendedAt(i + 1);
    AppendedRow(subject, 8 + i, ComponentRow(MinimalCatalogue[i]));
  }

  /** Both total labels appear twice, with the same maximum: as the last two components on
      rows 20 and 21 and as the appended totals on rows 22 and 23. */
  lemma TotalLabelsTwice(subject: string)
    ensures ValueAt(MinimalState(subject).cells, Cell(20, 1)) == ValueAt(MinimalState(subject).cells, Cell(22, 1)) == Text("Pre-Mids Total")
    ensures ValueAt(MinimalState(subject).cells, Cell(21, 1)) == ValueAt(MinimalState(subject).cells, Cell(23, 1)) == Text("Final Total")
    ensures ValueAt(MinimalState(subject).cells, Cell(20, 3)) == ValueAt(MinimalState(subject).cells, Cell(22, 3)) == Int(55)
    ensures ValueAt(MinimalState(subject).cells, Cell(21, 3)) == ValueAt(MinimalState(subject).cells, Cell(23, 3)) == Int(100)
  {
    MinimalComponentRow(subject, 12);
    MinimalComponentRow(subject, 13);
    AppendedAt(15);
    AppendedAt(16);
    MinimalCellAt(subject, Cell(22, 1));
    MinimalCellAt(subject, Cell(22, 3));
    MinimalCellAt(subject, Cell(23, 1));
    MinimalCellAt(subject, Cell(23, 3));
  }

  /** B22 and B23 hold the two literal formulas, and the rest of rows 20 to 23 of column B
      is the empty text. */
  lemma TotalFormulas(subject: string)
    ensures ValueAt(MinimalState(subject).cells, Cell(22, 2)) == Formula("=SUM(B7:B10)")
    ensures ValueAt(MinimalState(subject).cells, Cell(23, 2)) == Formula("=SUM(B11:B13)")
  {
    AppendedAt(15);
    AppendedAt(16);
    MinimalCellAt(subject, Cell(22, 2));
    MinimalCellAt(subject, Cell(23, 2));
  }

  const SummedLabels: seq<string> :=
    ["Component", "Assignment 1", "Assignment 2", "Assignment 3", "Assignment 4", "Quiz 1", "Quiz 2"]

  /** The labels beside the cells the two formulas sum. B7:B10 starts at the appended header,
      so it sums "Marks Obtained" and the marks of Assignments 1 to 3; B11:B13 sums Assignment 4
      and Quizzes 1 and 2. Neither range reaches row 14, where Quiz 3 is. */
  lemma SumRangeLabels(subject: string)
    ensures ValueAt(MinimalState(subject).cells, Cell(7, 2)) == Text("Marks Obtained")
    ensures forall r :: 7 <= r <= 13 ==>
              ValueAt(MinimalState(subject).cells, Cell(r, 1)) == Text(SummedLabels[r - 7])
    ensures ValueAt(MinimalState(subject).cells, Cell(14, 1)) == Text("Quiz 3")
  {
    HeaderTwice(subject, 1);
    HeaderTwice(subject, 2);
    forall r | 8 <= r <= 14
      ensures ValueAt(MinimalState(subject).cells, Cell(r, 1)) == Text(MinimalCatalogue[r - 8].name)
    {
      MinimalComponentRow(subject, r - 8);
    }
  }

  /** Only A6, B6 and C6 are styled: bold and centred. */
  lemma MinimalStyles(subject: string, c: Cell)
    ensures c in MinimalState(subject).fonts <==> c.row == 6 && 1 <= c.col <= 3
    ensures c in MinimalState(subject).fonts ==> MinimalState(subject).fonts[c] == BoldFont
    ensures c in MinimalState(subject).centered <==> c.row == 6 && 1 <= c.col <= 3
  {
    PutSameAt(map[], 6, 1, 3, BoldFont, c);
    AddRowHas({}, 6, 1, 3);
  }

  // ---- The workbook ----

  function MinimalPlan(): nat -> SheetState {
    (k: nat) => if k < |MinimalSubjects| then MinimalState(MinimalSubjects[k]) else Blank("")
  }

  /** The finished sheets of the first n subjects. */
  function MinimalSheets(n: nat): (r: seq<SheetState>)
    ensures |r| == n
  {
    Tabulate(n, MinimalPlan())
  }

  method MinimalStep(wb: Workbook, i: nat)
    requires i < |MinimalSubjects|
    requires StatesOf(wb.sheets) == MinimalSheets(i)
    modifies wb
    ensures StatesOf(wb.sheets) == MinimalSheets(i + 1)
    ensures wb.saves == old(wb.saves)
  {
    label turn:
    var ws := new Sheet(MinimalSubjects[i]);
    BuildMinimalSheet(ws, MinimalSubjects[i]);
    StatesKept@turn(wb.sheets);
    AddSheet(wb, ws);
    TabulateStep(i, MinimalPlan());
  }

  /** The six sheets, in order, and one save after all of them; the line printed. An
      exception is not caught here and is not modelled. */
  method CreateMarksheetTemplate(outputFile: string) returns (wb: Workbook, console: string)
    ensures fresh(wb)
    ensures StatesOf(wb.sheets) == MinimalSheets(|MinimalSubjects|)
    ensures wb.saves == [outputFile]
    ensures console == "Marksheet template saved as " + outputFile
  {
    wb := new Workbook();
    wb.RemoveActive();
    var i := 0;
    while i < |MinimalSubjects|
      invariant 0 <= i <= |MinimalSubjects|
      invariant fresh(wb) && wb.saves == []
      invariant StatesOf(wb.sheets) == MinimalSheets(i)
    {
      MinimalStep(wb, i);
      i := i + 1;
    }
    wb.Save(outputFile);
    console := "Marksheet template saved as " + outputFile;
  }

  lemma MinimalSheetAt(k: nat)
    requires k < |MinimalSubjects|
    ensures MinimalSheets(|MinimalSubjects|)[k] == MinimalState(MinimalSubjects[k])
    ensures MinimalSheets(|MinimalSubjects|)[k].title == "Subject " + [Digit(k + 1)]
  {
    assert MinimalSubjects[k] == "Subject " + [Digit(k + 1)];
  }
}
