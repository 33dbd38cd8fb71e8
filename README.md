# Marksheet generator, modelled in Dafny

The Marksheet Generator writes Excel workbooks with one marksheet per course. This project models
the three scripts that build those workbooks and proves properties of the model:

- `App_v3.py`
  - `sanitize_filename`.
  - `create_marksheet_template`. For each subject it builds the same 28-row sheet layout: identity cells, the marks table, totals, attendance, the grade formula, borders, data validations, grade highlights, column widths and a frozen pane.
  - The parts of the `MarksheetApp` GUI that decide things. These are the course-entry list (`add_course`/`remove_course`) and the checks, file name and status text of `generate_marksheet`.
- `create_marksheet_enhanced.py`: the same layout over six fixed subjects, with placeholder identity cells.
- `create_marksheet.py`: a minimal variant. It assigns a few header cells and then builds the table with `ws.append`.

The files and their modules:

- `spreadsheet.dfy` (`Spreadsheet`): the openpyxl objects the scripts use.
  - A `Sheet` class whose fields are the cells, styles, validations, rules, widths, frozen pane and highest row accessed. `State()` returns all of them as one value.
  - A `Workbook` class holding its sheets and the paths it was saved to.
  - Helpers that describe rows of writes as maps.
- `filename.dfy` (`Filename`): `sanitize_filename`. Python's `str.strip` whitespace is the exact set of code points `str.isspace` accepts.
- `grading.dfy` (`Grading`): evaluates the only two formulas that are modelled. These are the nested-IF grade in B28, written out as a data structure, and the blank guard of the attendance percentage in B26.
- `layout.dfy` (`Layout`): the loop body shared by the two full builders.
  - One method per block of writes, each proved against a function of the sheet state.
  - `LayoutState`, the finished sheet, and lemmas about its cells, totals, borders, validations and styles.
- `builder.dfy` (`Builder`): the loop over subjects. It starts from a fresh workbook with its default sheet removed, adds one laid-out sheet per subject in order, and stops at an exception.
- `app.dfy` (`App`): `create_marksheet_template` of `App_v3.py`, the file-name pattern, the `generate_marksheet` decision and the `MarksheetApp` course list.
- `enhanced.dfy` (`Enhanced`): `create_marksheet_enhanced.py`.
- `minimal.dfy` (`Minimal`): `create_marksheet.py`.

Two facts about `sanitize_filename` that follow from the order of its steps:

- `sanitize_filename` is idempotent when the input's only whitespace is `' '` (`Filename.SanitizeIdempotent`), but not in general.
  - With a tab next to a removed character, a second pass changes the result: `"?\tx"` gives `"\tx"`, which then gives `"x"` (`Filename.SanitizeNotIdempotent`).
  - The cause is that stripping happens before forbidden characters are deleted.
- `" a/b:c "` sanitises to `"abc"`: the deleted `/` and `:` leave no gap (`Filename.SanitizeJoinsPieces`).

## Model

| member | source | states |
|---|---|---|
| Filename.Strip | App_v3.py:23 | the result is the input without its leading and trailing whitespace; it is empty exactly when the input is all whitespace, and otherwise it starts and ends with a non-space |
| Filename.RemoveForbidden | App_v3.py:23 | no character of `<>:"/\|?*` survives; an input without them is unchanged; the result is empty exactly when every character was forbidden |
| Filename.ReplaceSpaces | App_v3.py:24 | same length; each `' '` becomes `'_'` and every other character, including a tab, is kept |
| Filename.Truncate | App_v3.py:26 | the result is the prefix of the text of length min(length, 50) |
| Filename.Sanitize | App_v3.py:20-26 | always 1 to 50 characters, none of them forbidden and none `' '`; the fallback `"Unknown"` when nothing is left after stripping and deleting (a cleaned text that is itself `"Unknown"` gives the same name, `Filename.FallbackCollides`); otherwise the first 50 characters of the cleaned text with spaces replaced |
| Filename.StripIdempotent | App_v3.py:23 | stripping twice is stripping once |
| Filename.RemoveForbiddenConcat | App_v3.py:23 | deleting characters distributes over concatenation |
| Filename.SanitizeClean | App_v3.py:20-26 | a text of 1 to 50 characters with no whitespace and no forbidden character is its own sanitisation |
| Filename.SanitizeShort | App_v3.py:24-26 | when the cleaned text is at most 50 characters long, nothing is cut |
| Filename.SanitizeIdempotent | App_v3.py:23-26 | when the input's only whitespace is `' '`, sanitising the result again leaves it unchanged |
| Filename.SanitizeNotIdempotent | App_v3.py:23-26 | with a tab next to a deleted character, a second pass changes the result |
| Filename.SanitizeOrderExample | App_v3.py:23-24 | strip, then delete, then replace: `" a / b "` becomes `"a__b"` |
| Filename.SanitizeKeepsInnerTab | App_v3.py:24 | only `' '` becomes `'_'`: an inner tab survives |
| Filename.SanitizeFallbackExample | App_v3.py:26 | a text that is only whitespace and forbidden characters becomes `"Unknown"` |
| Filename.SanitizeJoinsPieces | App_v3.py:23-24 | deleted characters leave no separator: `" a/b:c "` becomes `"abc"` |
| Filename.FallbackCollides | App_v3.py:26 | an input with nothing usable and the literal `"Unknown"` give the same name |
| Grading.GradeFormulaIsScale | App_v3.py:83 | the literal B28 formula is the rendering of the threshold scale A 90, B 80, C 70, D 60, else F over B21 |
| Grading.EvaluateInLetters | App_v3.py:83 | whatever the total, a scale gives one of its own letters |
| Grading.GradeBands | App_v3.py:83 | each letter is given on exactly its band of totals |
| Grading.GradeOfZero | App_v3.py:83 | a total of 0 is graded F |
| Grading.GradeMonotone | App_v3.py:83 | raising the total never lowers the grade |
| Grading.HighlightsFollowScale | App_v3.py:105-114 | five rules, all on B28 and all "equal", one per letter of the scale in order, with distinct fills |
| Grading.OneHighlightPerTotal | App_v3.py:83-114 | whatever the total, exactly one of the five rules matches the letter B28 shows |
| Grading.AttendanceFormulaIsGuard | App_v3.py:79 | the literal B26 formula is the rendering of the blank guard over B25 and B24 with fallback 0 and scale 100 |
| Grading.Attendance | App_v3.py:79 | the value of that guard: a blank B25 gives 0; an integer count over a non-zero number of classes gives count / classes * 100, which lies between 0 and 100 whenever the count is between 0 and the number of classes; for any other operands the model gives no value |
| Grading.AttendanceMonotone | App_v3.py:79 | more classes attended never lowers the value of B26 |
| Layout.WriteIdentity | App_v3.py:36-45 | writes A1 (bold, size 14) and A2 to B5, and nothing else |
| Layout.WriteHeaders | App_v3.py:47-53 | row 7 holds the five headers, each bold, centred and filled D3D3D3 |
| Layout.WriteComponents | App_v3.py:55-64 | rows 8 to 19 hold the twelve components, their maxima and their submission status |
| Layout.WriteTotals | App_v3.py:66-71 | A20 to C21 hold the two totals |
| Layout.WriteAttendance | App_v3.py:73-80 | A23 to B26 hold the attendance block, with B26 shown as a percentage |
| Layout.WriteGrade | App_v3.py:82-83 | A28 and B28 hold the grade label and formula |
| Layout.DrawBorders | App_v3.py:85-93 | borders on A7:E21, A24:B26 and B28 are added to those already there |
| Layout.AddMarksValidations | App_v3.py:95-99 | one decimal validation per row 8 to 19 of column B, in order, each between 0 and the value read back from column C of its row |
| Layout.AddGradeHighlights | App_v3.py:105-114 | the five grade rules are added after those already there |
| Layout.SetWidths | App_v3.py:116-120 | columns A to E get the widths 20, 15, 10, 15 and 25 |
| Layout.BuildSheet | App_v3.py:35-121 | on a blank sheet titled after the subject, the body of the loop leaves exactly `LayoutState` |
| Layout.LayoutIdentity | App_v3.py:36-45 | A1 names the subject; B2, B3, B4 and B5 hold the given name, id, semester and timestamp |
| Layout.LayoutLabels | App_v3.py:38-82 | column A holds the labels of the identity rows 2 to 5, of the two totals in rows 20 and 21, of the attendance block in rows 23 to 26 and of the grade in row 28 |
| Layout.LayoutHeaders | App_v3.py:47-53 | row 7 holds the five headers from column A on |
| Layout.LayoutComponents | App_v3.py:55-64 | row 8 + i holds component i: its name in A, its maximum in C and its status in D |
| Layout.LayoutStatusColumn | App_v3.py:64 | D8 to D19 say "Yes" exactly on rows 8 to 11 and 16, and are empty text elsewhere |
| Layout.StatusListGap | App_v3.py:64-102 | D16 says "Yes" but lies outside the Yes/No list on D8:D13, and D12 is empty but inside it |
| Layout.LayoutPreMidsTotal | App_v3.py:66-68 | B20 sums B8:B17, and C20 = 55 is the sum of the maxima C8:C17 |
| Layout.LayoutFinalTotal | App_v3.py:69-71 | B21 sums B18:B20, and C21 = 100 is the sum of C18:C20 |
| Layout.LayoutAttendance | App_v3.py:73-80 | B24 is 30 and B25 is blank, so B26 evaluates to 0; once a count n is entered B26 evaluates to n / 30 * 100 |
| Layout.AttendanceOfThirty | App_v3.py:75-79 | over 30 classes a blank count gives 0 and a count n gives n / 30 * 100 |
| Layout.AttendanceShown | App_v3.py:79-80 | B26 is scaled by 100 and also formatted as a percentage: 15 of 30 holds 50 and displays as 5000.00%, a full count as 10000.00% |
| Layout.LayoutGrade | App_v3.py:83 | B28 holds the rendering of the grade scale over B21 |
| Layout.LayoutFields | App_v3.py:35-114 | the finished sheet has the subject as title, the layout's cells, B26 as its only number format and the five grade rules |
| Layout.LayoutView | App_v3.py:116-121 | the widths of columns A to E are 20, 15, 10, 15 and 25; A8 is the frozen pane; row 28 is the last row touched |
| Layout.LayoutBorders | App_v3.py:85-93 | a cell has a border exactly when it lies in A7:E21, A24:B26 or is B28 |
| Layout.LayoutBorderCount | App_v3.py:85-93 | 82 cells have a border |
| Layout.ValidationsOverMaxima | App_v3.py:95-103 | when column C holds the maxima, validation i bounds B(8 + i) between 0 and component i's maximum, and the status list comes last |
| Layout.LayoutValidations | App_v3.py:95-103 | the finished sheet has thirteen validations: twelve mark ranges over the catalogue's maxima, then the status list |
| Layout.LayoutStyles | App_v3.py:37-53 | only A1 and row 7 have a font (A1 bold size 14, headers bold); only A7:E7 are centred and filled D3D3D3 |
| Builder.StopsAtFault | App_v3.py:30-35 | the loop reports an exception exactly when it stops short of the last subject, and then it stops at the exception's subject with the exception's message |
| Builder.LayoutsAt | App_v3.py:34-35 | sheet k of the built workbook is the layout of subject k with timestamp k |
| Builder.Step | App_v3.py:34-121 | one turn of the loop adds the next subject's sheet and changes none of the sheets already there |
| Builder.BuildSheets | App_v3.py:31-121 | a fresh workbook whose sheets are the layouts of the subjects, in order, up to the first exception; nothing is saved |
| App.OrPlaceholder | App_v3.py:39-43 | a non-empty value is kept and an empty one is replaced by the placeholder; the result is empty only when both are |
| App.CreateMarksheetTemplate | App_v3.py:28-128 | the sheets, with empty identity fields replaced by their placeholders; one save and a success result when nothing fails; otherwise the exception's message and no save |
| App.Subjects | App_v3.py:226 | every subject is a non-empty stripped entry, and the list is empty exactly when every entry strips to nothing |
| App.SubjectsConcat | App_v3.py:226 | subjects keep the entries' order: the subjects of two lists of entries are those of the first followed by those of the second |
| App.SubjectsOfClean | App_v3.py:226 | entries that are already stripped and non-empty are the subjects unchanged |
| App.FileNameShape | App_v3.py:241 | `marksheet_<name>_<semester>.xlsx` with both pieces sanitised: 18 to 116 characters, none forbidden and none a space |
| App.FileNameCollision | App_v3.py:241 | different name and semester pairs can give the same file: "a b"/"c" and "a"/"b c" |
| App.Decide | App_v3.py:223-241 | no courses exactly when every entry strips to nothing; otherwise missing exactly when the stripped name or semester is empty; otherwise a build with the stripped fields and the file name made from them |
| App.AcceptedIdentity | App_v3.py:223-244 | with at least one subject and a non-empty stripped name and semester the request is built; the name and semester are then written as stripped and only an empty id falls back to its placeholder |
| App.Without | App_v3.py:212 | list.remove drops one occurrence of the entry and keeps the others |
| App.FirstIndex | App_v3.py:212 | the position of the entry that list.remove drops: an occurrence with none before it |
| App.WithoutFirst | App_v3.py:212 | list.remove drops the first occurrence of the entry and keeps the elements before it and after it in order |
| App.WithoutDistinct | App_v3.py:212 | on a list without repeats the removed entry is gone and the list keeps no repeats |
| App.MarksheetApp.constructor | App_v3.py:196 | the list starts with exactly one entry |
| App.MarksheetApp.AddCourse | App_v3.py:198-207 | exactly one new entry is added, at the end |
| App.MarksheetApp.RemoveCourse | App_v3.py:209-219 | with more than one entry the given entry is removed; with one the list is unchanged; either way at least one entry remains |
| App.MarksheetApp.GenerateMarksheet | App_v3.py:221-251 | the status line and workbook the entries lead to: the two errors without a build, otherwise the build into the sanitised file name and its success or error line |
| Enhanced.CreateMarksheetTemplate | create_marksheet_enhanced.py:9-144 | the six subjects' sheets with the placeholder identity; one save and the saved line when nothing fails, otherwise the error line and no save |
| Enhanced.EnhancedSheet | create_marksheet_enhanced.py:16-39 | sheet k is titled after subject k of the six in order, and B2, B3 and B4 are the placeholders whatever the timestamp |
| Enhanced.SameAsEmptyApp | create_marksheet_enhanced.py:32-37 | the sheets are those the App_v3 builder makes when name, id and semester are empty |
| Minimal.CatalogueExtends | create_marksheet.py:33-48 | the fourteen appended components are the full layout's twelve followed by the two totals |
| Minimal.WriteFixed | create_marksheet.py:19-30 | A1 to B4 and A6 to C6 are assigned and row 6 is the highest row touched |
| Minimal.AppendComponents | create_marksheet.py:57-58 | each component is appended as [name, "", maximum] on the next row |
| Minimal.AppendTable | create_marksheet.py:53-62 | after the highest row touched come the header row, then one [name, "", maximum] row per component, then the two total rows, each on its own row |
| Minimal.StyleHeaders | create_marksheet.py:65-67 | A6, B6 and C6 become bold and centred |
| Minimal.BuildMinimalSheet | create_marksheet.py:16-72 | on a blank sheet the loop body leaves exactly `MinimalState` |
| Minimal.MinimalCellAt | create_marksheet.py:19-62 | the sheet's cells are those assigned in rows 1 to 6 and the appended rows 7 to 23 in columns A to C, and nothing else |
| Minimal.MinimalIdentity | create_marksheet.py:19-25 | A1 names the subject and B2 to B4 are the placeholders; row 5 is empty |
| Minimal.HeaderTwice | create_marksheet.py:28-54 | the table header appears on both row 6 and row 7 |
| Minimal.MinimalComponentRow | create_marksheet.py:57-58 | component i is on row 8 + i with an empty mark and its maximum |
| Minimal.TotalLabelsTwice | create_marksheet.py:46-62 | "Pre-Mids Total" is on rows 20 and 22 and "Final Total" on rows 21 and 23, each time with maximum 55 and 100 |
| Minimal.TotalFormulas | create_marksheet.py:61-62 | B22 and B23 hold `=SUM(B7:B10)` and `=SUM(B11:B13)` |
| Minimal.SumRangeLabels | create_marksheet.py:54-62 | the summed rows are the appended header and Assignments 1 to 3, then Assignment 4 and Quizzes 1 and 2; Quiz 3 is on row 14, outside both |
| Minimal.MinimalStyles | create_marksheet.py:65-67 | exactly A6, B6 and C6 are styled, bold and centred |
| Minimal.MinimalStep | create_marksheet.py:14-72 | one turn of the loop adds the next subject's sheet and changes none of the others |
| Minimal.CreateMarksheetTemplate | create_marksheet.py:4-76 | the six sheets in order, one save after all of them, and the saved line |
| Minimal.MinimalSheetAt | create_marksheet.py:12-16 | sheet k is the finished sheet of "Subject k+1" |
| Spreadsheet.Sheet.Append | create_marksheet.py:54-62 | the values go to columns A, B, ... of the row after the highest row touched, which becomes the highest row |
| Spreadsheet.Workbook.constructor | App_v3.py:31 | a new workbook holds one blank default sheet titled "Sheet" and has not been saved |
| Spreadsheet.Workbook.RemoveActive | App_v3.py:32 | the first (active) sheet is removed and the others keep their order |
| Spreadsheet.Workbook.Save | App_v3.py:123 | the path is recorded after the earlier saves and the list of sheets is unchanged |

## Left out

- The tkinter GUI is not modelled: widgets, canvas and scrolling, message boxes, colours and status label colours. `generate_marksheet` keeps only the status text it sets.
- `logging` is not modelled. The enhanced and minimal scripts' `print` is modelled as the returned console line.
- The xlsx file format is not modelled, and nor is the writing of the file. `Workbook.Save` records the path.
- `os.path.join(os.path.dirname(__file__), filename)` is the `pathOf` parameter of `GenerateMarksheet`.
- `datetime.now()` is the `clock` parameter. Sheet k gets `clock(k)` in B5.
- openpyxl's own checks are not modelled: sheet-title validity, renaming of duplicate titles and the exception types. Any exception raised while a sheet is created or written, or while the workbook is saved, is the `failure` parameter.
  - A fault at index k stops the loop before sheet k.
  - A fault at an index past the last subject stands for a failed save.
- An exception raised while the workbook is created or its default sheet removed is not separately modelled.
- `create_marksheet.py` catches no exception, so its model has no failure path.
- The Python builders write into a sheet that is already attached to the workbook. In the model, the sheet is built first and then attached. Nothing reads the workbook in between, so the states are the same.
- `Builder.Plan` gives a blank sheet past the last subject. `Layouts` never asks for one.
- Formula evaluation is left out except for the grade and the attendance blank guard.
  - The SUM totals are checked against the maxima in column C, not evaluated over the marks.
  - The `0.00%` display format is kept as a recorded string. `Layout.AttendanceShown` only states the figure it displays for B26, 100 times the value.
  - `DataValidation` and `CellIsRule` objects are recorded as data, without openpyxl's meaning of them.
- Grading.Attendance: only a blank count, or an integer count over a non-zero integer number of classes, is evaluated. Excel would also convert a numeric text such as `"15"` in B25 and evaluate a formula there; the model gives no value (`None`) for those operands, as it does for a division by zero.
- Spreadsheet.Sheet.Append: models openpyxl's append target as the row after the highest row accessed by any cell write or read. openpyxl is not part of this model.
- App.MarksheetApp.RemoveCourse: when there is more than one entry and the given one is not in the list, Python's `list.remove` raises `ValueError`. The model returns `NotListed` and changes nothing. The GUI cannot reach this case, because each Remove button passes its own entry.
- Enhanced.SameAsEmptyApp: a lemma about the model with no counterpart in the code; it documents that the two full builders share one layout.
