/** Concrete passes over small vendor snapshots. */
module Scenarios {
  import opened Models
  import opened Store
  import opened Sync

  const LINE_A := MangoLine(1, "100", Some("A"), None, "RU", 1, "S")
  const LINE_B := LINE_A.(name := Some("B"))

  // The table after the first pass, and after the second.
  const T1: Table := map["100" := NewRow(LINE_A, 0)]
  const T2: Table := T1["100" := Refreshed(T1["100"], LINE_B, 1)]

  lemma {:induction false} CreateLineA()
    ensures Run(map[], [LINE_A], [], 0) == Pass(T1, [Created])
  {
    assert [LINE_A][..0] == [] && [LINE_A][..1] == [LINE_A] && FaultAt([], 0) == NO_FAULTS;
    ProcessLineDecision(map[], LINE_A, NO_FAULTS, 0);
    RunSnocKnown(map[], [LINE_A], [], 0, 0, Pass(map[], []), Step(T1, Created));
  }

  // `WellFormed(T1)` holds: it is proved where `CreateThenRename` (which has
  // no precondition) calls this lemma; taking it as given keeps this proof
  // small.
  lemma {:induction false} RenameLineA()
    requires WellFormed(T1)
    ensures Run(T1, [LINE_B], [], 1) == Pass(T2, [Updated])
  {
    assert [LINE_B][..0] == [] && [LINE_B][..1] == [LINE_B] && FaultAt([], 0) == NO_FAULTS;
    ProcessLineDecision(T1, LINE_B, NO_FAULTS, 1);
    assert CanRefresh(T1, T1["100"], LINE_B);
    RunSnocKnown(T1, [LINE_B], [], 1, 0, Pass(T1, []), Step(T2, Updated));
  }

  lemma {:induction false} SingleOutcomes()
    ensures Summary([Created]) == SyncResult(1, 1, 0, 0, [])
    ensures Summary([Updated]) == SyncResult(1, 0, 1, 0, [])
  {
    SummarySnoc([], Created);
    SummarySnoc([], Updated);
    assert [] + [Created] == [Created] && [] + [Updated] == [Updated];
  }

  /** A new number is created; the same number with a new name is then
      updated in place. */
  lemma {:induction false} CreateThenRename()
    ensures var (t1, r1) := Reconcile(map[], Some(MangoApiResponse(SUCCESS_CODE, [LINE_A])), None, [], 0);
            && r1 == SyncResult(1, 1, 0, 0, [])
            && var (t2, r2) := Reconcile(t1, Some(MangoApiResponse(SUCCESS_CODE, [LINE_B])), None, [], 1);
               && r2 == SyncResult(1, 0, 1, 0, [])
               && "100" in t2 && t2["100"].name == Some("B") && t2["100"].createdAt == 0
  {
    CreateLineA();
    RenameLineA();
    SingleOutcomes();
  }

  const LINE_P := MangoLine(5, "1", None, None, "RU", 1, "S")
  const LINE_Q := LINE_P.(lineId := 6)
  const LINE_R := LINE_P.(number := "2")

  const REPEATED := [LINE_P, LINE_Q, LINE_R]

  // The tables after each line of a pass over REPEATED on an empty table
  // at time 0, and after each line of a second pass at time 1.
  const A1: Table := map["1" := NewRow(LINE_P, 0)]
  const A2: Table := A1["1" := Refreshed(A1["1"], LINE_Q, 0)]
  const A3: Table := A2["2" := NewRow(LINE_R, 0)]
  const B2: Table := A3["1" := Refreshed(A3["1"], LINE_Q, 1)]
  const B3: Table := B2["2" := Refreshed(B2["2"], LINE_R, 1)]

  // Each line of both passes over REPEATED, on the table the earlier
  // lines left. A `requires WellFormed(..)` on a constant table below is
  // true, not an assumption: the callers establish it from `Run`'s
  // contract (`RepeatedNumberBlocksSecondUpdate` and `CreateThenRename`
  // have no precondition), and taking it as given keeps each proof small.

  lemma {:induction false} StepP1()
    ensures ProcessLine(map[], LINE_P, NO_FAULTS, 0) == Step(A1, Created)
  {
    ProcessLineDecision(map[], LINE_P, NO_FAULTS, 0);
  }

  lemma {:induction false} StepQ1()
    requires WellFormed(A1)
    ensures ProcessLine(A1, LINE_Q, NO_FAULTS, 0) == Step(A2, Updated)
  {
    ProcessLineDecision(A1, LINE_Q, NO_FAULTS, 0);
    assert CanRefresh(A1, A1["1"], LINE_Q);
  }

  lemma {:induction false} StepR1()
    requires WellFormed(A2)
    ensures ProcessLine(A2, LINE_R, NO_FAULTS, 0) == Step(A3, Created)
  {
    ProcessLineDecision(A2, LINE_R, NO_FAULTS, 0);
    assert CanInsert(A2, LINE_R);
  }

  lemma {:induction false} StepP2()
    requires WellFormed(A3)
    ensures ProcessLine(A3, LINE_P, NO_FAULTS, 1) == Step(A3, FAILED_P)
  {
    ProcessLineDecision(A3, LINE_P, NO_FAULTS, 1);
    assert !CanRefresh(A3, A3["1"], LINE_P) by {
      assert A3["2"].lineId == LINE_P.lineId;
    }
  }

  lemma {:induction false} StepQ2()
    requires WellFormed(A3)
    ensures ProcessLine(A3, LINE_Q, NO_FAULTS, 1) == Step(B2, Updated)
  {
    ProcessLineDecision(A3, LINE_Q, NO_FAULTS, 1);
    assert CanRefresh(A3, A3["1"], LINE_Q);
  }

  lemma {:induction false} StepR2()
    requires WellFormed(B2)
    ensures ProcessLine(B2, LINE_R, NO_FAULTS, 1) == Step(B3, Updated)
  {
    ProcessLineDecision(B2, LINE_R, NO_FAULTS, 1);
    assert CanRefresh(B2, B2["2"], LINE_R);
  }

  lemma {:induction false} FirstPassOverRepeatedFirstLine()
    ensures Run(map[], REPEATED[..1], [], 0) == Pass(A1, [Created])
  {
    assert REPEATED[..0] == [] && FaultAt([], 0) == NO_FAULTS;
    StepP1();
    RunSnocKnown(map[], REPEATED, [], 0, 0, Pass(map[], []), Step(A1, Created));
  }

  lemma {:induction false} FirstPassOverRepeatedPrefix()
    ensures Run(map[], REPEATED[..2], [], 0) == Pass(A2, [Created, Updated])
  {
    FirstPassOverRepeatedFirstLine();
    assert FaultAt([], 1) == NO_FAULTS;
    StepQ1();
    RunSnocKnown(map[], REPEATED, [], 0, 1, Pass(A1, [Created]), Step(A2, Updated));
  }

  lemma {:induction false} FirstPassOverRepeated()
    ensures Run(map[], REPEATED[..3], [], 0) == Pass(A3, [Created, Updated] + [Created])
  {
    FirstPassOverRepeatedPrefix();
    assert FaultAt([], 2) == NO_FAULTS;
    StepR1();
    RunSnocKnown(map[], REPEATED, [], 0, 2, Pass(A2, [Created, Updated]), Step(A3, Created));
  }

  const FAILED_P := Failed(UpdateErrorDetail("1"))

  lemma {:induction false} SecondPassOverRepeatedFirstLine()
    requires WellFormed(A3)
    ensures Run(A3, REPEATED[..1], [], 1) == Pass(A3, [FAILED_P])
  {
    assert REPEATED[..0] == [] && FaultAt([], 0) == NO_FAULTS;
    StepP2();
    RunSnocKnown(A3, REPEATED, [], 1, 0, Pass(A3, []), Step(A3, FAILED_P));
  }

  lemma {:induction false} SecondPassOverRepeatedPrefix()
    requires WellFormed(A3)
    ensures Run(A3, REPEATED[..2], [], 1) == Pass(B2, [FAILED_P, Updated])
  {
    SecondPassOverRepeatedFirstLine();
    assert FaultAt([], 1) == NO_FAULTS;
    StepQ2();
    RunSnocKnown(A3, REPEATED, [], 1, 1, Pass(A3, [FAILED_P]), Step(B2, Updated));
  }

  lemma {:induction false} SecondPassOverRepeated()
    requires WellFormed(A3)
    ensures Run(A3, REPEATED[..3], [], 1) == Pass(B3, [FAILED_P, Updated] + [Updated])
  {
    SecondPassOverRepeatedPrefix();
    assert FaultAt([], 2) == NO_FAULTS;
    StepR2();
    RunSnocKnown(A3, REPEATED, [], 1, 2, Pass(B2, [FAILED_P, Updated]), Step(B3, Updated));
  }

  /** A snapshot that repeats a number: the first pass has no errors, yet
      the second cannot update every line, because the first line's
      `line_id` now belongs to another row. */
  lemma {:induction false} RepeatedNumberBlocksSecondUpdate()
    ensures var response := MangoApiResponse(SUCCESS_CODE, REPEATED);
            var (t1, r1) := Reconcile(map[], Some(response), None, [], 0);
            && r1.errors == 0
            && Reconcile(t1, Some(response), None, [], 1).1
               == SyncResult(3, 0, 2, 1, [UpdateErrorDetail("1")])
  {
    assert REPEATED[..3] == REPEATED;
    FirstPassOverRepeated();
    SecondPassOverRepeated();
    SummaryOfRepeatedPasses();
  }

  lemma {:induction false} SummaryOfRepeatedPasses()
    ensures Summary([Created, Updated] + [Created]).errors == 0
    ensures Summary([FAILED_P, Updated] + [Updated]) == SyncResult(3, 0, 2, 1, [UpdateErrorDetail("1")])
  {
    SummaryOfFirstPass();
    SummaryOfSecondPass();
  }

  lemma {:induction false} SummaryOfFirstPass()
    ensures Summary([Created, Updated] + [Created]) == SyncResult(3, 2, 1, 0, [])
  {
    SingleOutcomes();
    SummarySnoc([Created], Updated);
    assert [Created] + [Updated] == [Created, Updated];
    SummarySnoc([Created, Updated], Created);
  }

  lemma {:induction false} SummaryOfSecondPass()
    ensures Summary([FAILED_P, Updated] + [Updated]) == SyncResult(3, 0, 2, 1, [UpdateErrorDetail("1")])
  {
    SummarySnoc([], FAILED_P);
    assert [] + [FAILED_P] == [FAILED_P];
    SummarySnoc([FAILED_P], Updated);
    assert [FAILED_P] + [Updated] == [FAILED_P, Updated];
    SummarySnoc([FAILED_P, Updated], Updated);
  }
}
