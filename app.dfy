/** App_v3.py: what the Generate button decides from the entry fields, the file name it
    builds, create_marksheet_template with the student's details, and the list of course
    entry fields behind the Add Course and Remove buttons. */
module App {
  import opened Spreadsheet
  import opened Filename
  import opened Layout
  import opened Builder

  const NamePlaceholder: string := "[Enter Name]"
  const IdPlaceholder: string := "[Enter ID]"
  const SemesterPlaceholder: string := "[Enter Semester]"

  /** Python's `value or placeholder` on strings. */
  function OrPlaceholder(value: string, placeholder: string): (r: string)
    ensures r == value || r == placeholder
    ensures r == "" <==> value == "" && placeholder == ""
    ensures value != "" ==> r == value
    ensures value == "" ==> r == placeholder
  {
    if value != "" then value else placeholder
  }

  // ---- The generate request ----

  /** The stripped text of each entry. */
  function StripAll(entries: seq<string>): (r: seq<string>)
    ensures |r| == |entries| && forall j :: 0 <= j < |r| ==> r[j] == Strip(entries[j])
  {
    seq(|entries|, j requires 0 <= j < |entries| => Strip(entries[j]))
  }

  /** The texts that are not empty, in order. */
  function NonEmpty(xs: seq<string>): (r: seq<string>)
    ensures |r| <= |xs|
    ensures forall k :: 0 <= k < |r| ==> r[k] != "" && r[k] in xs
    ensures r == [] <==> forall j :: 0 <= j < |xs| ==> xs[j] == ""
  {
    if xs == [] then []
    else
      assert forall j :: 0 <= j < |xs[1..]| ==> xs[1..][j] == xs[j + 1];
      (if xs[0] != "" then [xs[0]] else []) + NonEmpty(xs[1..])
  }

  lemma {:induction false} NonEmptyConcat(a: seq<string>, b: seq<string>)
    ensures NonEmpty(a + b) == NonEmpty(a) + NonEmpty(b)
  {
    if a == [] {
      assert a + b == b;
    } else {
      assert (a + b)[0] == a[0];
      assert (a + b)[1..] == a[1..] + b;
      NonEmptyConcat(a[1..], b);
    }
  }

  lemma {:induction false} NonEmptyOfFull(xs: seq<string>)
    requires forall j :: 0 <= j < |xs| ==> xs[j] != ""
    ensures NonEmpty(xs) == xs
  {
    if xs != [] {
      NonEmptyOfFull(xs[1..]);
    }
  }

  /** Each text kept comes from some entry. */
  lemma KeptFromEntries(entries: seq<string>)
    ensures forall k :: 0 <= k < |NonEmpty(StripAll(entries))| ==>
              exists j :: 0 <= j < |entries| && NonEmpty(StripAll(entries))[k] == Strip(entries[j])
  {
    var stripped := StripAll(entries);
    var r := NonEmpty(stripped);
    forall k | 0 <= k < |r|
      ensures exists j :: 0 <= j < |entries| && r[k] == Strip(entries[j])
    {
      var j :| 0 <= j < |stripped| && stripped[j] == r[k];
    }
  }

  /** [e.strip() for e in entries if e.strip()] */
  function Subjects(entries: seq<string>): (r: seq<string>)
    ensures |r| <= |entries|
    ensures forall k :: 0 <= k < |r| ==> r[k] != "" && exists j :: 0 <= j < |entries| && r[k] == Strip(entries[j])
    ensures r == [] <==> forall j :: 0 <= j < |entries| ==> Strip(entries[j]) == ""
  {
    KeptFromEntries(entries);
    NonEmpty(StripAll(entries))
  }

  lemma StripAllConcat(a: seq<string>, b: seq<string>)
    ensures StripAll(a + b) == StripAll(a) + StripAll(b)
  {
    forall j | 0 <= j < |a + b|
      ensures StripAll(a + b)[j] == (StripAll(a) + StripAll(b))[j]
    {
      if j < |a| {
        assert (a + b)[j] == a[j];
      } else {
        assert (a + b)[j] == b[j - |a|];
      }
    }
  }

  /** The entries are read in order: the subjects of two runs of fields are those of the
      first run followed by those of the second. */
  lemma SubjectsConcat(a: seq<string>, b: seq<string>)
    ensures Subjects(a + b) == Subjects(a) + Subjects(b)
  {
    StripAllConcat(a, b);
    NonEmptyConcat(StripAll(a), StripAll(b));
  }

  /** Entries that are already stripped and non-empty are taken as they are, all of them. */
  lemma SubjectsOfClean(entries: seq<string>)
    requires forall j :: 0 <= j < |entries| ==> entries[j] != "" && Strip(entries[j]) == entries[j]
    ensures Subjects(entries) == entries
  {
    assert StripAll(entries) == entries;
    NonEmptyOfFull(entries);
  }

  /** marksheet_{n}_{s}.xlsx */
  function Pattern(n: string, s: string): string {
    "marksheet_" + n + "_" + s + ".xlsx"
  }

  /** marksheet_{sanitize(name)}_{sanitize(semester)}.xlsx */
  function FileName(name: string, semester: string): string {
    Pattern(Sanitize(name), Sanitize(semester))
  }

  /** A clean piece: 1 to 50 characters, none forbidden, no space. */
  predicate CleanPiece(p: string) {
    1 <= |p| <= MaxLength && forall k :: 0 <= k < |p| ==> !IsForbidden(p[k]) && p[k] != ' '
  }

  lemma PatternShape(n: string, s: string)
    requires CleanPiece(n) && CleanPiece(s)
    ensures var f := Pattern(n, s);
            18 <= |f| <= 116 && f[..10] == "marksheet_" && f[|f| - 5..] == ".xlsx" &&
            f[10..10 + |n|] == n && f[10 + |n|] == '_' && f[11 + |n|..|f| - 5] == s &&
            forall k :: 0 <= k < |f| ==> !IsForbidden(f[k]) && f[k] != ' '
  {
    var f := Pattern(n, s);
    forall k | 0 <= k < |f|
      ensures !IsForbidden(f[k]) && f[k] != ' '
    {
      if 10 <= k < 10 + |n| {
        assert f[k] == n[k - 10];
      } else if 11 + |n| <= k < 11 + |n| + |s| {
        assert f[k] == s[k - 11 - |n|];
      }
    }
  }

  /** The name starts with "marksheet_", holds the sanitised name, "_" and the sanitised
      semester, ends in ".xlsx", is 18 to 116 characters long, and holds neither a forbidden
      character nor a space, whatever the details typed. */
  lemma FileNameShape(name: string, semester: string)
    ensures var f := FileName(name, semester);
            18 <= |f| <= 116 && f[..10] == "marksheet_" && f[|f| - 5..] == ".xlsx" &&
            f[10..10 + |Sanitize(name)|] == Sanitize(name) && f[10 + |Sanitize(name)|] == '_' &&
            f[11 + |Sanitize(name)|..|f| - 5] == Sanitize(semester) &&
            forall k :: 0 <= k < |f| ==> !IsForbidden(f[k]) && f[k] != ' '
  {
    PatternShape(Sanitize(name), Sanitize(semester));
  }

  /** Two characters around a space, neither whitespace nor forbidden, keep their places
      and the space becomes '_'. */
  lemma SanitizeSpaced(x: char, y: char)
    requires !IsSpace(x) && !IsForbidden(x) && !IsSpace(y) && !IsForbidden(y)
    ensures Sanitize([x, ' ', y]) == [x, '_', y]
  {
    var t := [x, ' ', y];
    assert LeadingSpaces(t) == 0;
    assert TrailingSpaces(t) == 0;
    assert Strip(t) == t;
    assert RemoveForbidden(t) == t;
    SanitizeShort(t);
  }

  lemma SanitizeLetter(x: char)
    requires !IsSpace(x) && !IsForbidden(x) && x != ' '
    ensures Sanitize([x]) == [x]
  {
    SanitizeClean([x]);
  }

  lemma PatternCollision()
    ensures Pattern("a_b", "c") == Pattern("a", "b_c")
  {
  }

  /** Two different students can be given the same file, the later save replacing the
      earlier: "a b" in semester "c" and "a" in semester "b c". */
  lemma FileNameCollision()
    ensures FileName("a b", "c") == FileName("a", "b c")
  {
    SanitizeSpaced('a', 'b');
    SanitizeSpaced('b', 'c');
    SanitizeLetter('a');
    SanitizeLetter('c');
    PatternCollision();
  }

  /** What generate_marksheet does with the fields it reads. */
  datatype Decision =
    | NoCourses
    | MissingNameOrSemester
    | Build(subjects: seq<string>, name: string, id: string, semester: string, fileName: string)

  function Decide(name: string, id: string, semester: string, entries: seq<string>): (d: Decision)
    ensures d.NoCourses? <==> forall j :: 0 <= j < |entries| ==> Strip(entries[j]) == ""
    ensures d.MissingNameOrSemester? <==> Subjects(entries) != [] && (Strip(name) == "" || Strip(semester) == "")
    ensures d.Build? ==>
              d.subjects == Subjects(entries) && d.subjects != [] &&
              d.name == Strip(name) && d.name != "" && d.id == Strip(id) &&
              d.semester == Strip(semester) && d.semester != "" &&
              d.fileName == FileName(d.name, d.semester)
  {
    var subjects := Subjects(entries);
    var n, i, s := Strip(name), Strip(id), Strip(semester);
    if subjects == [] then NoCourses
    else if n == "" || s == "" then MissingNameOrSemester
    else Build(subjects, n, i, s, FileName(n, s))
  }

  /** Once the request is accepted, the name and semester written to B2 and B4 are the
      stripped entries themselves; only the student ID can fall back to its placeholder. */
  lemma AcceptedIdentity(name: string, id: string, semester: string, entries: seq<string>)
    requires Subjects(entries) != [] && Strip(name) != "" && Strip(semester) != ""
    ensures var d := Decide(name, id, semester, entries);
            d.Build? &&
            OrPlaceholder(d.name, NamePlaceholder) == Strip(name) &&
            OrPlaceholder(d.semester, SemesterPlaceholder) == Strip(semester) &&
            OrPlaceholder(d.id, IdPlaceholder) == (if Strip(id) == "" then IdPlaceholder else Strip(id))
  {
  }

  // ---- create_marksheet_template ----

  /** True, or the text of the exception. */
  datatype BuildResult = Saved | Failed(message: string)

  /** A workbook with one laid-out sheet per subject, saved to outputFile. An exception while
      creating sheet `at` or, with `at` at or past the number of subjects, while saving,
      stops the work and is returned; nothing is saved then. */
  method CreateMarksheetTemplate(outputFile: string, subjects: seq<string>, name: string, id: string,
                                 semester: string, clock: nat -> string, failure: Option<Fault>)
    returns (wb: Workbook, result: BuildResult)
    ensures fresh(wb)
    ensures StatesOf(wb.sheets) ==
            Layouts(subjects, OrPlaceholder(name, NamePlaceholder), OrPlaceholder(id, IdPlaceholder),
                    OrPlaceholder(semester, SemesterPlaceholder), clock, SheetsBuilt(|subjects|, failure))
    ensures result == if failure.None? then Saved else Failed(failure.value.message)
    ensures wb.saves == if failure.None? then [outputFile] else []
  {
    var fault;
    wb, fault := BuildSheets(subjects, OrPlaceholder(name, NamePlaceholder), OrPlaceholder(id, IdPlaceholder),
                             OrPlaceholder(semester, SemesterPlaceholder), clock, failure);
    if fault.Some? {
      return wb, Failed(fault.value);
    }
    if failure.Some? {
      return wb, Failed(failure.value.message);
    }
    wb.Save(outputFile);
    result := Saved;
  }

  // ---- The window ----

  /** The result of pressing a Remove button. */
  datatype Removal = Removed | KeptLast | NotListed

  /** The position of the first occurrence of x in s. */
  function FirstIndex(s: seq<nat>, x: nat): (i: nat)
    requires x in s
    ensures i < |s| && s[i] == x && x !in s[..i]
  {
    if s[0] == x then 0
    else
      var j := FirstIndex(s[1..], x);
      assert s[..j + 1] == [s[0]] + s[1..][..j];
      j + 1
  }

  /** s without its first occurrence of x: the elements before it and after it, in order. */
  function Without(s: seq<nat>, x: nat): (r: seq<nat>)
    ensures x in s ==> |r| == |s| - 1
    ensures x !in s ==> r == s
    ensures forall y :: y in r ==> y in s
    ensures forall y :: y in s && y != x ==> y in r
  {
    if s == [] then []
    else if s[0] == x then s[1..]
    else
      [s[0]] + Without(s[1..], x)
  }

  /** list.remove drops the first occurrence and keeps the order of everything else. */
  lemma {:induction false} WithoutFirst(s: seq<nat>, x: nat)
    requires x in s
    ensures Without(s, x) == s[..FirstIndex(s, x)] + s[FirstIndex(s, x) + 1..]
  {
    if s[0] != x {
      WithoutFirst(s[1..], x);
      var j := FirstIndex(s[1..], x);
      assert s[1..][..j] == s[1..j + 1];
      assert s[1..][j + 1..] == s[j + 2..];
      assert s[..j + 1] == [s[0]] + s[1..j + 1];
    }
  }

  lemma {:induction false} WithoutDistinct(s: seq<nat>, x: nat)
    requires forall i, j :: 0 <= i < j < |s| ==> s[i] != s[j]
    ensures x !in Without(s, x)
    ensures forall i, j :: 0 <= i < j < |Without(s, x)| ==> Without(s, x)[i] != Without(s, x)[j]
  {
    if s != [] && s[0] != x {
      WithoutDistinct(s[1..], x);
      var r := Without(s, x);
      forall i, j | 0 <= i < j < |r|
        ensures r[i] != r[j]
      {
        if i == 0 {
          assert r[j] in Without(s[1..], x);
          assert s[0] !in s[1..];
        } else {
          assert r[i] == Without(s[1..], x)[i - 1] && r[j] == Without(s[1..], x)[j - 1];
        }
      }
    }
  }

  /** The course entry fields of the window, by identity, in list order; what each field
      holds when Generate is pressed is given to GenerateMarksheet. */
  class MarksheetApp {
    var entries: seq<nat>
    var nextId: nat

    /** At least one field, no field twice, and every field older than the next one. */
    ghost predicate Valid()
      reads this
    {
      |entries| >= 1 &&
      (forall i, j :: 0 <= i < j < |entries| ==> entries[i] != entries[j]) &&
      (forall i :: 0 <= i < |entries| ==> entries[i] < nextId)
    }

    /** The window opens with one course field. */
    constructor ()
      ensures Valid() && entries == [0] && nextId == 1
    {
      entries := [0];
      nextId := 1;
    }

    /** add_course: one new field, after the others. */
    method AddCourse() returns (field: nat)
      requires Valid()
      modifies this
      ensures Valid()
      ensures field == old(nextId) && field !in old(entries)
      ensures entries == old(entries) + [field] && nextId == old(nextId) + 1
    {
      field := nextId;
      entries := entries + [field];
      nextId := nextId + 1;
    }

    /** remove_course: the field goes only when it is not the last one left; otherwise the
        warning is shown and the list stays as it is. A field not in the list makes
        list.remove raise; the list stays as it is then too. */
    method RemoveCourse(field: nat) returns (outcome: Removal)
      requires Valid()
      modifies this
      ensures Valid() && nextId == old(nextId)
      ensures outcome == KeptLast <==> |old(entries)| == 1
      ensures outcome == NotListed <==> |old(entries)| > 1 && field !in old(entries)
      ensures outcome == Removed ==> entries == Without(old(entries), field) &&
                                     |entries| == |old(entries)| - 1 && field !in entries
      ensures outcome != Removed ==> entries == old(entries)
    {
      if |entries| > 1 {
        if field in entries {
          ghost var before := entries;
          WithoutDistinct(entries, field);
          entries := Without(entries, field);
          assert forall i :: 0 <= i < |entries| ==> entries[i] in before;
          outcome := Removed;
        } else {
          outcome := NotListed;
        }
      } else {
        outcome := KeptLast;
      }
    }

    /** The text of each field, in list order. */
    function Texts(textOf: nat -> string): (r: seq<string>)
      reads this
      ensures |r| == |entries| && forall k :: 0 <= k < |r| ==> r[k] == textOf(entries[k])
    {
      seq(|entries|, k requires 0 <= k < |entries| reads this => textOf(entries[k]))
    }

    /** generate_marksheet: the status line it shows, and the workbook it builds when the
        request is accepted. pathOf stands for joining the script's directory to the name. */
    method GenerateMarksheet(name: string, id: string, semester: string, textOf: nat -> string,
                             pathOf: string -> string, clock: nat -> string, failure: Option<Fault>)
      returns (status: string, book: Workbook?)
      ensures var d := Decide(name, id, semester, Texts(textOf));
              (d.NoCourses? ==> status == "Error: Please enter at least one course!" && book == null) &&
              (d.MissingNameOrSemester? ==> status == "Error: Student name and semester are required!" && book == null) &&
              (d.Build? ==>
                 book != null && fresh(book) &&
                 StatesOf(book.sheets) ==
                 Layouts(d.subjects, d.name, OrPlaceholder(d.id, IdPlaceholder), d.semester, clock,
                         SheetsBuilt(|d.subjects|, failure)) &&
                 book.saves == (if failure.None? then [pathOf(d.fileName)] else []) &&
                 status == (if failure.None? then "Marksheet saved as " + d.fileName
                            else "Error: " + failure.value.message))
    {
      var d := Decide(name, id, semester, Texts(textOf));
      if d.NoCourses? {
        return "Error: Please enter at least one course!", null;
      }
      if d.MissingNameOrSemester? {
        return "Error: Student name and semester are required!", null;
      }
      var result;
      book, result := CreateMarksheetTemplate(pathOf(d.fileName), d.subjects, d.name, d.id, d.semester, clock, failure);
      status := if result.Saved? then "Marksheet saved as " + d.fileName else "Error: " + result.message;
    }
  }
}
