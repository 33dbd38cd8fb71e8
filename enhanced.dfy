/** create_marksheet_enhanced.py: the same per-subject layout as App_v3.py, for six fixed
    subjects, with the three identity placeholders always written to B2, B3 and B4; any
    exception is caught and only reported on the console. */
module Enhanced {
  import opened Spreadsheet
  import opened Layout
  import opened Builder
  import opened App

  const EnhancedSubjects: seq<string> := [
    "Statistical Inferences", "Intro to Macroeconomics", "Cal-1", "Philosophy", "Psychology", "IST"
  ]

  /** The finished sheets, the paths saved to and the line printed. Nothing is returned on
      either path; an exception while creating a sheet, or while saving when `at` is at or
      past six, is printed and nothing is saved. */
  method CreateMarksheetTemplate(outputFile: string, clock: nat -> string, failure: Option<Fault>)
    returns (wb: Workbook, console: string)
    ensures fresh(wb)
    ensures StatesOf(wb.sheets) ==
            Layouts(EnhancedSubjects, NamePlaceholder, IdPlaceholder, SemesterPlaceholder, clock,
                    SheetsBuilt(|EnhancedSubjects|, failure))
    ensures wb.saves == if failure.None? then [outputFile] else []
    ensures console == if failure.None? then "Marksheet template saved as " + outputFile
                       else "Error creating marksheet: " + failure.value.message
  {
    var fault;
    wb, fault := BuildSheets(EnhancedSubjects, NamePlaceholder, IdPlaceholder, SemesterPlaceholder, clock, failure);
    if fault.Some? {
      return wb, "Error creating marksheet: " + fault.value;
    }
    if failure.Some? {
      return wb, "Error creating marksheet: " + failure.value.message;
    }
    wb.Save(outputFile);
    console := "Marksheet template saved as " + outputFile;
  }

  /** Without an exception there are six sheets; sheet k is titled EnhancedSubjects[k], names
      it in A1, and holds the three placeholders and its own timestamp in B2 to B5. */
  lemma EnhancedSheet(clock: nat -> string, k: nat)
    requires k < |EnhancedSubjects|
    ensures var w := Layouts(EnhancedSubjects, NamePlaceholder, IdPlaceholder, SemesterPlaceholder, clock, |EnhancedSubjects|)[k];
            w == LayoutState(EnhancedSubjects[k], "[Enter Name]", "[Enter ID]", "[Enter Semester]", clock(k)) &&
            w.title == EnhancedSubjects[k] &&
            ValueAt(w.cells, Cell(1, 1)) == Text("Marksheet for " + EnhancedSubjects[k]) &&
            ValueAt(w.cells, Cell(2, 2)) == Text("[Enter Name]") &&
            ValueAt(w.cells, Cell(3, 2)) == Text("[Enter ID]") &&
            ValueAt(w.cells, Cell(4, 2)) == Text("[Enter Semester]") &&
            ValueAt(w.cells, Cell(5, 2)) == Text(clock(k))
  {
    var subject := EnhancedSubjects[k];
    LayoutsAt(EnhancedSubjects, NamePlaceholder, IdPlaceholder, SemesterPlaceholder, clock, |EnhancedSubjects|, k);
    LayoutFields(subject, NamePlaceholder, IdPlaceholder, SemesterPlaceholder, clock(k));
    LayoutIdentity(subject, NamePlaceholder, IdPlaceholder, SemesterPlaceholder, clock(k));
  }

  /** The enhanced script builds what App_v3.py builds for the same six subjects when the
      name, ID and semester are left empty. */
  lemma SameAsEmptyApp(clock: nat -> string, failure: Option<Fault>)
    ensures Layouts(EnhancedSubjects, NamePlaceholder, IdPlaceholder, SemesterPlaceholder, clock,
                    SheetsBuilt(|EnhancedSubjects|, failure)) ==
            Layouts(EnhancedSubjects, OrPlaceholder("", NamePlaceholder), OrPlaceholder("", IdPlaceholder),
                    OrPlaceholder("", SemesterPlaceholder), clock, SheetsBuilt(|EnhancedSubjects|, failure))
  {
    assert OrPlaceholder("", NamePlaceholder) == NamePlaceholder;
    assert OrPlaceholder("", IdPlaceholder) == IdPlaceholder;
    assert OrPlaceholder("", SemesterPlaceholder) == SemesterPlaceholder;
  }
}
