/** The loop over subjects shared by the create_marksheet_template of App_v3.py and of
    create_marksheet_enhanced.py: a fresh workbook, its default sheet removed, then one
    sheet per subject built with the layout. An exception raised while a sheet is being
    created stops the loop; it is given as a parameter. */
module Builder {
  import opened Spreadsheet
  import opened Layout

  /** An exception raised at step `at`: creating the sheet of subjects[at] when at is below
      the number of subjects, saving the workbook otherwise. */
  datatype Fault = Fault(at: nat, message: string)

  /** How many sheets are complete when the loop stops. */
  function SheetsBuilt(count: nat, failure: Option<Fault>): (n: nat)
    ensures n <= count
    ensures failure.None? ==> n == count
    ensures failure.Some? && failure.value.at < count ==> n == failure.value.at
  {
    if failure.Some? && failure.value.at < count then failure.value.at else count
  }

  /** The states of a list of sheets, in order. */
  function StatesOf(ss: seq<Sheet>): (r: seq<SheetState>)
    reads ss
    ensures |r| == |ss|
  {
    if |ss| == 0 then [] else StatesOf(ss[..|ss| - 1]) + [ss[|ss| - 1].State()]
  }

  /** The values f(0), ..., f(n - 1). */
  function Tabulate<T>(n: nat, f: nat -> T): (r: seq<T>)
    ensures |r| == n
  {
    seq(n, k requires 0 <= k < n => f(k))
  }

  lemma TabulateStep<T>(n: nat, f: nat -> T)
    ensures Tabulate(n + 1, f) == Tabulate(n, f) + [f(n)]
  {
  }

  /** The finished layout of the sheet of subjects[k], stamped with clock(k); Layouts only
      asks for k below the number of subjects, so the blank state past them is never used. */
  function Plan(subjects: seq<string>, b2: string, b3: string, b4: string, clock: nat -> string): nat -> SheetState {
    (k: nat) => if k < |subjects| then LayoutState(subjects[k], b2, b3, b4, clock(k)) else Blank("")
  }

  /** The finished layouts of the first n subjects. */
  function Layouts(subjects: seq<string>, b2: string, b3: string, b4: string, clock: nat -> string, n: nat): (r: seq<SheetState>)
    requires n <= |subjects|
    ensures |r| == n
  {
    Tabulate(n, Plan(subjects, b2, b3, b4, clock))
  }

  lemma LayoutsStep(subjects: seq<string>, b2: string, b3: string, b4: string, clock: nat -> string, n: nat)
    requires n < |subjects|
    ensures Layouts(subjects, b2, b3, b4, clock, n + 1) ==
            Layouts(subjects, b2, b3, b4, clock, n) + [LayoutState(subjects[n], b2, b3, b4, clock(n))]
  {
    TabulateStep(n, Plan(subjects, b2, b3, b4, clock));
  }

  lemma LayoutsAt(subjects: seq<string>, b2: string, b3: string, b4: string, clock: nat -> string, n: nat, k: nat)
    requires k < n <= |subjects|
    ensures Layouts(subjects, b2, b3, b4, clock, n)[k] == LayoutState(subjects[k], b2, b3, b4, clock(k))
  {
  }

  /** The fault, if raised inside the loop. */
  function LoopFault(count: nat, failure: Option<Fault>): (r: Option<string>)
    ensures r.Some? <==> failure.Some? && failure.value.at < count
    ensures r.Some? ==> r.value == failure.value.message
  {
    if failure.Some? && failure.value.at < count then Some(failure.value.message) else None
  }

  /** The loop reports a fault exactly when it stops short, and then it stops at the fault's
      subject: the sheets before it are complete and the message is the exception's. */
  lemma StopsAtFault(count: nat, failure: Option<Fault>)
    ensures SheetsBuilt(count, failure) == count <==> LoopFault(count, failure).None?
    ensures SheetsBuilt(count, failure) < count ==>
              failure.Some? && SheetsBuilt(count, failure) == failure.value.at &&
              LoopFault(count, failure) == Some(failure.value.message)
  {
  }

  /** Sheets no field of which changed keep their states. */
  twostate lemma StatesKept(ss: seq<Sheet>)
    requires unchanged(ss)
    ensures StatesOf(ss) == old(StatesOf(ss))
  {
  }

  lemma {:induction false} StatesAt(ss: seq<Sheet>, k: nat)
    requires k < |ss|
    ensures StatesOf(ss)[k] == ss[k].State()
  {
    if k < |ss| - 1 {
      StatesAt(ss[..|ss| - 1], k);
    }
  }

  lemma StatesAppend(ss: seq<Sheet>, s: Sheet)
    ensures StatesOf(ss + [s]) == StatesOf(ss) + [s.State()]
  {
    assert (ss + [s])[..|ss|] == ss;
  }

  /** wb.create_sheet(title=subject) followed by the writes to the new sheet. The sheet is
      written before it is attached to the workbook; nothing reads the workbook in between. */
  method MakeSheet(subject: string, b2: string, b3: string, b4: string, stamp: string)
    returns (ws: Sheet)
    ensures fresh(ws) && ws.State() == LayoutState(subject, b2, b3, b4, stamp)
  {
    ws := new Sheet(subject);
    BuildSheet(ws, subject, b2, b3, b4, stamp);
  }

  /** Adds a sheet after the others: the sheets already there and the new one keep
      their states. */
  method AddSheet(wb: Workbook, ws: Sheet)
    modifies wb
    ensures wb.sheets == old(wb.sheets) + [ws] && wb.saves == old(wb.saves)
    ensures StatesOf(wb.sheets) == old(StatesOf(wb.sheets)) + [old(ws.State())]
  {
    ghost var before := wb.sheets;
    StatesAppend(before, ws);
    label start:
    wb.Attach(ws);
    StatesKept@start(before + [ws]);
  }

  /** One turn of the loop: the sheet of subjects[i] is made and added after the others,
      which keep their states. */
  method Step(wb: Workbook, subjects: seq<string>, b2: string, b3: string, b4: string,
              clock: nat -> string, i: nat)
    requires i < |subjects|
    requires StatesOf(wb.sheets) == Layouts(subjects, b2, b3, b4, clock, i)
    modifies wb
    ensures StatesOf(wb.sheets) == Layouts(subjects, b2, b3, b4, clock, i + 1)
    ensures wb.saves == old(wb.saves)
  {
    label turn:
    var ws := MakeSheet(subjects[i], b2, b3, b4, clock(i));
    StatesKept@turn(wb.sheets);
    AddSheet(wb, ws);
    LayoutsStep(subjects, b2, b3, b4, clock, i);
  }

  /** The loop of create_marksheet_template: a fresh workbook without its default sheet,
      then one laid-out sheet per subject, in order, up to the first exception. */
  method BuildSheets(subjects: seq<string>, b2: string, b3: string, b4: string,
                     clock: nat -> string, failure: Option<Fault>)
    returns (wb: Workbook, fault: Option<string>)
    ensures fresh(wb)
    ensures StatesOf(wb.sheets) == Layouts(subjects, b2, b3, b4, clock, SheetsBuilt(|subjects|, failure))
    ensures wb.saves == []
    ensures fault == LoopFault(|subjects|, failure)
  {
    wb := new Workbook();
    wb.RemoveActive();
    var i := 0;
    while i < |subjects|
      invariant 0 <= i <= |subjects|
      invariant failure.None? || i <= failure.value.at
      invariant fresh(wb) && wb.saves == []
      invariant StatesOf(wb.sheets) == Layouts(subjects, b2, b3, b4, clock, i)
    {
      if failure.Some? && failure.value.at == i {
        fault := Some(failure.value.message);
        return;
      }
      Step(wb, subjects, b2, b3, b4, clock, i);
      i := i + 1;
    }
    fault := None;
  }
}
