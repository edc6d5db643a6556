/** The reconciliation pass (sync_service.py `SyncService.sync_phone_numbers`).

    The vendor fetch is an input: None when the client gave up (transport,
    status or parse failure), otherwise the parsed response. What goes wrong
    in the store while a line is processed is an oracle `Faults` value per
    line. The pass is specified by pure functions (`ProcessLine`, `Run`,
    `Summary`, `Reconcile`) and implemented by the loop in
    `SyncService.ProcessLines`, which `SyncService.SyncPhoneNumbers` calls
    after its early exits; both are proved to compute them. */
module Sync {
  import opened Models
  import opened Decimal
  import opened Store

  /** The vendor's "request succeeded" result code. */
  const SUCCESS_CODE: int := 1000

  const FETCH_ERROR_DETAIL: string := "API fetch error"

  function ApiErrorDetail(code: int): string {
    "API error: " + IntToString(code)
  }

  function CriticalErrorDetail(msg: string): string {
    "Critical error: " + msg
  }

  function UpdateErrorDetail(number: string): string {
    "Update error " + number
  }

  function CreateErrorDetail(number: string): string {
    "Create error " + number
  }

  function ProcessErrorDetail(number: string, msg: string): string {
    "Process error " + number + ": " + msg
  }

  /** What the environment does while one line is processed: the lookup
      raises a database error (logged, read as "no row"), the commit of the
      create or update raises a database error (rolled back), or some other
      exception escapes the store before it has written anything. */
  datatype Faults = Faults(lookupError: bool, commitError: bool, unexpected: Option<string>)

  const NO_FAULTS := Faults(false, false, None)

  /** The faults of line `k`; lines past the end of the oracle see none. */
  function FaultAt(faults: seq<Faults>, k: nat): Faults {
    if k < |faults| then faults[k] else NO_FAULTS
  }

  /** The outcome of one line. */
  datatype Outcome = Created | Updated | Failed(detail: string)

  datatype Step = Step(rows: Table, outcome: Outcome)

  /** One iteration of the loop (sync_service.py:44-63): look the number
      up, update the row that was found or create one when none was, and
      turn every failure into a `Failed` outcome that leaves the table as
      it was. */
  function ProcessLine(t: Table, line: MangoLine, f: Faults, now: int): (s: Step)
    requires WellFormed(t)
    ensures WellFormed(s.rows)
    ensures t.Keys <= s.rows.Keys <= t.Keys + {line.number}
    ensures forall n :: n in t && n != line.number ==> s.rows[n] == t[n]
    ensures s.outcome.Failed? ==> s.rows == t
    // a create happens only for a number that is not stored
    ensures s.outcome == Created ==> line.number !in t
    // a line that did not fail is stored under its number with its line_id
    ensures !s.outcome.Failed? ==>
              line.number in s.rows && s.rows[line.number].lineId == line.lineId && MutableColumnsFit(line)
  {
    if f.unexpected.Some? then
      Step(t, Failed(ProcessErrorDetail(line.number, f.unexpected.value)))
    else
      var existing := if f.lookupError then None else FindByNumber(t, line.number);
      match existing
      case Some(row) =>
        if !f.commitError && CanRefresh(t, row, line) then
          RefreshKeepsWellFormed(t, row, line, now);
          Step(t[row.number := Refreshed(row, line, now)], Updated)
        else
          Step(t, Failed(UpdateErrorDetail(line.number)))
      case None =>
        if !f.commitError && CanInsert(t, line) then
          InsertKeepsWellFormed(t, line, now);
          Step(t[line.number := NewRow(line, now)], Created)
        else
          Step(t, Failed(CreateErrorDetail(line.number)))
  }

  /** The decision the loop body takes for one line: an unexpected
      exception is a process error; a row that was found leads to an update
      attempt; no row, or a lookup that failed, leads to a create attempt;
      each attempt either succeeds with the row it writes or fails with its
      detail and leaves the table as it was. */
  lemma {:induction false} ProcessLineDecision(t: Table, line: MangoLine, f: Faults, now: int)
    requires WellFormed(t)
    ensures var s := ProcessLine(t, line, f, now);
            && (f.unexpected.Some? ==>
                  s == Step(t, Failed(ProcessErrorDetail(line.number, f.unexpected.value))))
            && (f.unexpected.None? && !f.lookupError && line.number in t ==>
                  && (s.outcome == Updated <==> !f.commitError && CanRefresh(t, t[line.number], line))
                  && (s.outcome == Updated ==> s.rows == t[line.number := Refreshed(t[line.number], line, now)])
                  && (s.outcome != Updated ==> s == Step(t, Failed(UpdateErrorDetail(line.number)))))
            && (f.unexpected.None? && (f.lookupError || line.number !in t) ==>
                  && (s.outcome == Created <==> !f.commitError && CanInsert(t, line))
                  && (s.outcome == Created ==> s.rows == t[line.number := NewRow(line, now)])
                  && (s.outcome != Created ==> s == Step(t, Failed(CreateErrorDetail(line.number)))))
  {
  }

  /** The numbers of the given lines. */
  function Numbers(lines: seq<MangoLine>): set<string>
    decreases |lines|
  {
    if lines == [] then {} else Numbers(lines[..|lines| - 1]) + {lines[|lines| - 1].number}
  }

  lemma {:induction false} NumbersMembers(lines: seq<MangoLine>, n: string)
    ensures n in Numbers(lines) <==> exists k :: 0 <= k < |lines| && lines[k].number == n
    decreases |lines|
  {
    if lines != [] {
      var last := |lines| - 1;
      NumbersMembers(lines[..last], n);
      if n in Numbers(lines[..last]) {
        var k :| 0 <= k < last && lines[..last][k].number == n;
        assert lines[k].number == n;
      }
      if exists k :: 0 <= k < |lines| && lines[k].number == n {
        var k :| 0 <= k < |lines| && lines[k].number == n;
        if k < last {
          assert lines[..last][k].number == n;
        }
      }
    }
  }

  datatype Pass = Pass(rows: Table, outcomes: seq<Outcome>)

  /** The loop over all lines (sync_service.py:41-63): every line is
      processed on the table the earlier lines left, whatever their
      outcomes. */
  function Run(t: Table, lines: seq<MangoLine>, faults: seq<Faults>, now: int): (p: Pass)
    requires WellFormed(t)
    ensures WellFormed(p.rows)
    ensures |p.outcomes| == |lines|
    // there is no delete path
    ensures t.Keys <= p.rows.Keys
    decreases |lines|
  {
    if lines == [] then Pass(t, [])
    else
      var k := |lines| - 1;
      var prev := Run(t, lines[..k], faults, now);
      var s := ProcessLine(prev.rows, lines[k], FaultAt(faults, k), now);
      Pass(s.rows, prev.outcomes + [s.outcome])
  }

  /** The pass only writes rows of fetched numbers: rows of other numbers
      are left as they were, and every new row belongs to a fetched line. */
  lemma {:induction false} RunTouchesOnlyFetched(t: Table, lines: seq<MangoLine>, faults: seq<Faults>, now: int)
    requires WellFormed(t)
    ensures var p := Run(t, lines, faults, now);
            && p.rows.Keys <= t.Keys + Numbers(lines)
            && (forall n :: n in t && n !in Numbers(lines) ==> p.rows[n] == t[n])
    decreases |lines|
  {
    if lines != [] {
      RunTouchesOnlyFetched(t, lines[..|lines| - 1], faults, now);
    }
  }

  /** Processing one more line keeps the outcomes of the earlier ones. */
  lemma {:induction false} RunOutcomesExtend(t: Table, lines: seq<MangoLine>, faults: seq<Faults>, now: int)
    requires WellFormed(t) && lines != []
    ensures var front := Run(t, lines[..|lines| - 1], faults, now).outcomes;
            Run(t, lines, faults, now).outcomes[..|lines| - 1] == front
  {
  }

  /** The pass over one more line is the pass over the earlier ones
      followed by that line. */
  lemma {:induction false} RunSnoc(t: Table, lines: seq<MangoLine>, faults: seq<Faults>, now: int, i: nat)
    requires WellFormed(t) && i < |lines|
    ensures var prev := Run(t, lines[..i], faults, now);
            var s := ProcessLine(prev.rows, lines[i], FaultAt(faults, i), now);
            Run(t, lines[..i + 1], faults, now) == Pass(s.rows, prev.outcomes + [s.outcome])
  {
    assert lines[..i + 1][..i] == lines[..i];
  }

  /** `RunSnoc` for a pass whose prefix and next step are already known. */
  lemma {:induction false} RunSnocKnown(t: Table, lines: seq<MangoLine>, faults: seq<Faults>, now: int, i: nat,
                                        prev: Pass, s: Step)
    requires WellFormed(t) && i < |lines|
    requires Run(t, lines[..i], faults, now) == prev
    requires ProcessLine(prev.rows, lines[i], FaultAt(faults, i), now) == s
    ensures Run(t, lines[..i + 1], faults, now) == Pass(s.rows, prev.outcomes + [s.outcome])
  {
    RunSnoc(t, lines, faults, now, i);
  }

  /** The outcomes of a pass over a prefix of the lines are the first
      outcomes of the pass over all of them. */
  lemma {:induction false} RunPrefix(t: Table, lines: seq<MangoLine>, faults: seq<Faults>, now: int, m: nat)
    requires WellFormed(t) && m <= |lines|
    ensures Run(t, lines[..m], faults, now).outcomes == Run(t, lines, faults, now).outcomes[..m]
    decreases |lines|
  {
    if m < |lines| {
      var last := |lines| - 1;
      var front := lines[..last];
      var all := Run(t, lines, faults, now).outcomes;
      RunOutcomesExtend(t, lines, faults, now);
      RunPrefix(t, front, faults, now, m);
      assert front[..m] == lines[..m];
      assert all[..last][..m] == all[..m];
    } else {
      assert lines[..m] == lines;
    }
  }

  /** Per-record isolation: the outcome of line `k` is what processing it
      alone gives on the table left by lines 0..k-1, so a failure of an
      earlier line never skips a later one. */
  lemma {:induction false} RunOutcomeAt(t: Table, lines: seq<MangoLine>, faults: seq<Faults>, now: int, k: nat)
    requires WellFormed(t) && k < |lines|
    ensures Run(t, lines, faults, now).outcomes[k]
            == ProcessLine(Run(t, lines[..k], faults, now).rows, lines[k], FaultAt(faults, k), now).outcome
  {
    RunSnoc(t, lines, faults, now, k);
    RunPrefix(t, lines, faults, now, k + 1);
    assert Run(t, lines, faults, now).outcomes[k] == Run(t, lines, faults, now).outcomes[..k + 1][k];
  }

  /** Each failed line's detail names its number, in one of the three
      forms the loop writes. */
  lemma {:induction false} FailedDetailForm(t: Table, lines: seq<MangoLine>, faults: seq<Faults>, now: int, k: nat)
    requires WellFormed(t) && k < |lines|
    requires Run(t, lines, faults, now).outcomes[k].Failed?
    ensures var d := Run(t, lines, faults, now).outcomes[k].detail;
            var f := FaultAt(faults, k);
            if f.unexpected.Some? then d == ProcessErrorDetail(lines[k].number, f.unexpected.value)
            else d == UpdateErrorDetail(lines[k].number) || d == CreateErrorDetail(lines[k].number)
  {
    RunOutcomeAt(t, lines, faults, now, k);
    ProcessLineDecision(Run(t, lines[..k], faults, now).rows, lines[k], FaultAt(faults, k), now);
  }

  /** Adds one outcome to the running totals (sync_service.py:42-63). */
  function Tally(r: SyncResult, o: Outcome): (r': SyncResult)
    ensures r'.totalProcessed == r.totalProcessed + 1
    // exactly one of the three counters moves, by one
    ensures r'.created >= r.created && r'.updated >= r.updated && r'.errors >= r.errors
    ensures r'.created + r'.updated + r'.errors == r.created + r.updated + r.errors + 1
    ensures r'.created > r.created <==> o == Created
    ensures r'.updated > r.updated <==> o == Updated
    ensures r'.errors > r.errors <==> o.Failed?
    ensures r'.errorDetails == r.errorDetails + (if o.Failed? then [o.detail] else [])
  {
    var r := r.(totalProcessed := r.totalProcessed + 1);
    match o
    case Created => r.(created := r.created + 1)
    case Updated => r.(updated := r.updated + 1)
    case Failed(d) => r.(errors := r.errors + 1, errorDetails := r.errorDetails + [d])
  }

  /** The counter updates of the loop body (sync_service.py:42-63), as
      the loop performs them on the running result: the imperative copy of
      `Tally` that `SyncService.ProcessLines` calls, differing from it in
      form only. */
  method CountOutcome(counted: SyncResult, outcome: Outcome) returns (result: SyncResult)
    ensures result == Tally(counted, outcome)
  {
    result := counted.(totalProcessed := counted.totalProcessed + 1);
    match outcome {
      case Created =>
        result := result.(created := result.created + 1);
      case Updated =>
        result := result.(updated := result.updated + 1);
      case Failed(detail) =>
        result := result.(errors := result.errors + 1, errorDetails := result.errorDetails + [detail]);
    }
  }

  /** The result after the given outcomes, tallied in order. */
  function Summary(os: seq<Outcome>): SyncResult
    decreases |os|
  {
    if os == [] then EMPTY_RESULT
    else Tally(Summary(os[..|os| - 1]), os[|os| - 1])
  }

  lemma {:induction false} SummarySnoc(os: seq<Outcome>, o: Outcome)
    ensures Summary(os + [o]) == Tally(Summary(os), o)
  {
    assert (os + [o])[..|os|] == os;
  }

  /** The details of the failed outcomes, in order: the reference the
      `error_details` list is checked against. */
  function FailureDetails(os: seq<Outcome>): seq<string>
    decreases |os|
  {
    if os == [] then []
    else (if os[0].Failed? then [os[0].detail] else []) + FailureDetails(os[1..])
  }

  lemma {:induction false} FailureDetailsAppend(os: seq<Outcome>, o: Outcome)
    ensures FailureDetails(os + [o]) == FailureDetails(os) + (if o.Failed? then [o.detail] else [])
    decreases |os|
  {
    if os != [] {
      assert (os + [o])[1..] == os[1..] + [o];
      FailureDetailsAppend(os[1..], o);
    }
  }

  /** The counters agree with the outcomes: one per line, each line
      counted once, one detail per failed line in line order. */
  lemma {:induction false} SummaryCounts(os: seq<Outcome>)
    ensures Summary(os).totalProcessed == |os|
    ensures Summary(os).totalProcessed == Summary(os).created + Summary(os).updated + Summary(os).errors
    ensures Summary(os).created == multiset(os)[Created]
    ensures Summary(os).updated == multiset(os)[Updated]
    ensures Summary(os).errorDetails == FailureDetails(os)
    ensures |Summary(os).errorDetails| == Summary(os).errors
    decreases |os|
  {
    if os != [] {
      var k := |os| - 1;
      SummaryCounts(os[..k]);
      FailureDetailsAppend(os[..k], os[k]);
      assert os == os[..k] + [os[k]];
    }
  }

  /** True when the fetched response is usable and the session opened,
      so that the loop runs. */
  predicate Processes(fetched: Option<MangoApiResponse>, sessionError: Option<string>) {
    fetched.Some? && fetched.value.result == SUCCESS_CODE && sessionError.None?
  }

  /** The whole pass (sync_service.py:16-80): the table afterwards and the
      result returned. */
  function Reconcile(t: Table, fetched: Option<MangoApiResponse>, sessionError: Option<string>,
                     faults: seq<Faults>, now: int): (r: (Table, SyncResult))
    requires WellFormed(t)
    ensures WellFormed(r.0)
  {
    match fetched
    case None => (t, EMPTY_RESULT.(errorDetails := [FETCH_ERROR_DETAIL]))
    case Some(response) =>
      if response.result != SUCCESS_CODE then
        (t, EMPTY_RESULT.(errorDetails := [ApiErrorDetail(response.result)]))
      else if sessionError.Some? then
        (t, EMPTY_RESULT.(errorDetails := [CriticalErrorDetail(sessionError.value)]))
      else
        var p := Run(t, response.lines, faults, now);
        (p.rows, Summary(p.outcomes))
  }

  /** A failed fetch, a vendor error code or a session that does not open
      ends the pass at once: nothing counted, one detail, table untouched. */
  lemma {:induction false} StructuralFailure(t: Table, fetched: Option<MangoApiResponse>, sessionError: Option<string>,
                          faults: seq<Faults>, now: int)
    requires WellFormed(t) && !Processes(fetched, sessionError)
    ensures var (t', r) := Reconcile(t, fetched, sessionError, faults, now);
            && t' == t
            && r.totalProcessed == 0 && r.created == 0 && r.updated == 0 && r.errors == 0
            && r.errorDetails == [
                 if fetched.None? then FETCH_ERROR_DETAIL
                 else if fetched.value.result != SUCCESS_CODE then ApiErrorDetail(fetched.value.result)
                 else CriticalErrorDetail(sessionError.value)]
  {
  }

  /** Different vendor codes are reported with different details. */
  lemma {:induction false} ApiErrorDetailsDiffer(c1: int, c2: int)
    requires c1 != c2
    ensures ApiErrorDetail(c1) != ApiErrorDetail(c2)
  {
    if ApiErrorDetail(c1) == ApiErrorDetail(c2) {
      assert IntToString(c1) == ApiErrorDetail(c1)[|"API error: "|..];
      assert IntToString(c2) == ApiErrorDetail(c2)[|"API error: "|..];
      IntToStringInjective(c1, c2);
    }
  }

  /** On the processing path every line is counted once and every error
      has its detail. */
  lemma {:induction false} ProcessingCounts(t: Table, response: MangoApiResponse, faults: seq<Faults>, now: int)
    requires WellFormed(t) && response.result == SUCCESS_CODE
    ensures var r := Reconcile(t, Some(response), None, faults, now).1;
            && r.totalProcessed == |response.lines|
            && r.totalProcessed == r.created + r.updated + r.errors
            && |r.errorDetails| == r.errors
            && r.errorDetails == FailureDetails(Run(t, response.lines, faults, now).outcomes)
  {
    SummaryCounts(Run(t, response.lines, faults, now).outcomes);
  }

  lemma {:induction false} NoErrorsMeansNoFailure(os: seq<Outcome>)
    ensures Summary(os).errors == 0 <==> forall k :: 0 <= k < |os| ==> !os[k].Failed?
    decreases |os|
  {
    if os != [] {
      NoErrorsMeansNoFailure(os[..|os| - 1]);
    }
  }

  /** Once every fetched number is stored, a pass creates nothing, whatever
      fails along the way: a found row is updated, and a lookup that fails
      leads to an insert the unique `number` rejects. */
  lemma {:induction false} NoCreateWhenStored(t: Table, lines: seq<MangoLine>, faults: seq<Faults>, now: int)
    requires WellFormed(t) && Numbers(lines) <= t.Keys
    ensures Created !in Run(t, lines, faults, now).outcomes
  {
    var i := 0;
    while i < |lines|
      invariant 0 <= i <= |lines|
      invariant Created !in Run(t, lines[..i], faults, now).outcomes
    {
      var prev := Run(t, lines[..i], faults, now);
      NumbersMembers(lines, lines[i].number);
      assert lines[i].number in prev.rows;
      RunSnoc(t, lines, faults, now, i);
      i := i + 1;
    }
    assert lines[..i] == lines;
  }

  /** A pass without failures leaves every fetched number stored. */
  lemma {:induction false} CleanRunStoresEveryLine(t: Table, lines: seq<MangoLine>, faults: seq<Faults>, now: int)
    requires WellFormed(t)
    requires forall k :: 0 <= k < |lines| ==> !Run(t, lines, faults, now).outcomes[k].Failed?
    ensures Numbers(lines) <= Run(t, lines, faults, now).rows.Keys
  {
    var i := 0;
    while i < |lines|
      invariant 0 <= i <= |lines|
      invariant Numbers(lines[..i]) <= Run(t, lines[..i], faults, now).rows.Keys
    {
      RunOutcomeAt(t, lines, faults, now, i);
      RunSnoc(t, lines, faults, now, i);
      assert Numbers(lines[..i + 1]) == Numbers(lines[..i]) + {lines[i].number} by {
        assert lines[..i + 1][..i] == lines[..i];
      }
      i := i + 1;
    }
    assert lines[..i] == lines;
  }

  /** Idempotence of creation: after a pass with no errors, a second pass
      over the same lines creates nothing, whatever fails in it. */
  lemma {:induction false} SecondRunCreatesNothing(t: Table, response: MangoApiResponse,
                                faults1: seq<Faults>, now1: int, faults2: seq<Faults>, now2: int)
    requires WellFormed(t) && response.result == SUCCESS_CODE
    requires Reconcile(t, Some(response), None, faults1, now1).1.errors == 0
    ensures var t1 := Reconcile(t, Some(response), None, faults1, now1).0;
            Reconcile(t1, Some(response), None, faults2, now2).1.created == 0
  {
    var p1 := Run(t, response.lines, faults1, now1);
    NoErrorsMeansNoFailure(p1.outcomes);
    CleanRunStoresEveryLine(t, response.lines, faults1, now1);
    var p2 := Run(p1.rows, response.lines, faults2, now2);
    NoCreateWhenStored(p1.rows, response.lines, faults2, now2);
    SummaryCounts(p2.outcomes);
  }

  /** Every fetched line is stored under its number with its `line_id`,
      and its values fit the mutable columns. */
  predicate Synced(t: Table, lines: seq<MangoLine>) {
    forall k :: 0 <= k < |lines| ==>
      && lines[k].number in t
      && t[lines[k].number].lineId == lines[k].lineId
      && MutableColumnsFit(lines[k])
  }

  predicate DistinctNumbers(lines: seq<MangoLine>) {
    forall i, j :: 0 <= i < j < |lines| ==> lines[i].number != lines[j].number
  }

  /** One more line that does not fail, with a number none of the earlier
      lines has, keeps the table synced with all of them. */
  lemma {:induction false} CleanStepSyncs(t: Table, front: seq<MangoLine>, line: MangoLine, f: Faults, now: int)
    requires WellFormed(t) && Synced(t, front)
    requires forall j :: 0 <= j < |front| ==> front[j].number != line.number
    requires !ProcessLine(t, line, f, now).outcome.Failed?
    ensures Synced(ProcessLine(t, line, f, now).rows, front + [line])
  {
    var rows := ProcessLine(t, line, f, now).rows;
    var lines := front + [line];
    forall j | 0 <= j < |lines|
      ensures && lines[j].number in rows
              && rows[lines[j].number].lineId == lines[j].lineId
              && MutableColumnsFit(lines[j])
    {
      if j < |front| {
        assert lines[j] == front[j];
        assert rows[front[j].number] == t[front[j].number];
      }
    }
  }

  /** A pass without failures over lines with distinct numbers leaves the
      table synced with them. */
  lemma {:induction false} CleanRunSyncs(t: Table, lines: seq<MangoLine>, faults: seq<Faults>, now: int)
    requires WellFormed(t) && DistinctNumbers(lines)
    requires forall k :: 0 <= k < |lines| ==> !Run(t, lines, faults, now).outcomes[k].Failed?
    ensures Synced(Run(t, lines, faults, now).rows, lines)
  {
    var i := 0;
    while i < |lines|
      invariant 0 <= i <= |lines|
      invariant Synced(Run(t, lines[..i], faults, now).rows, lines[..i])
    {
      var front := lines[..i];
      var prev := Run(t, front, faults, now);
      RunOutcomeAt(t, lines, faults, now, i);
      forall j | 0 <= j < i
        ensures front[j].number != lines[i].number
      {
        assert front[j] == lines[j];
      }
      CleanStepSyncs(prev.rows, front, lines[i], FaultAt(faults, i), now);
      RunSnoc(t, lines, faults, now, i);
      assert front + [lines[i]] == lines[..i + 1];
      i := i + 1;
    }
    assert lines[..i] == lines;
  }

  /** A fault-free line whose number is stored with its `line_id`, on a
      table whose `line_id`s are those of a well-formed table `t`, is
      updated and changes no `line_id` and no number. */
  lemma {:induction false} SyncedStep(t: Table, rows: Table, line: MangoLine, now: int)
    requires WellFormed(t) && WellFormed(rows) && rows.Keys == t.Keys
    requires forall n :: n in t ==> rows[n].lineId == t[n].lineId
    requires line.number in t && t[line.number].lineId == line.lineId && MutableColumnsFit(line)
    ensures var s := ProcessLine(rows, line, NO_FAULTS, now);
            && s.outcome == Updated
            && s.rows.Keys == t.Keys
            && (forall n :: n in t ==> s.rows[n].lineId == t[n].lineId)
  {
    var n := line.number;
    assert LineIdFree(rows, line.lineId, n) by {
      forall m | m in rows && m != n
        ensures rows[m].lineId != line.lineId
      {
        assert rows[m].lineId == t[m].lineId;
      }
    }
    ProcessLineDecision(rows, line, NO_FAULTS, now);
  }

  /** The first `i` lines of a fault-free pass over `t` were all updated
      and left the numbers and the `line_id`s of `t` as they were. */
  predicate UpdatedSoFar(t: Table, p: Pass, i: nat) {
    && |p.outcomes| == i
    && (forall k :: 0 <= k < i ==> p.outcomes[k] == Updated)
    && p.rows.Keys == t.Keys
    && (forall n :: n in t ==> p.rows[n].lineId == t[n].lineId)
  }

  lemma {:induction false} UpdatedSoFarSnoc(t: Table, prev: Pass, s: Step, i: nat)
    requires UpdatedSoFar(t, prev, i) && s.outcome == Updated
    requires s.rows.Keys == t.Keys && forall n :: n in t ==> s.rows[n].lineId == t[n].lineId
    ensures UpdatedSoFar(t, Pass(s.rows, prev.outcomes + [s.outcome]), i + 1)
  {
  }

  lemma {:induction false} SyncedRunStep(t: Table, lines: seq<MangoLine>, now: int, i: nat)
    requires WellFormed(t) && Synced(t, lines) && i < |lines|
    requires UpdatedSoFar(t, Run(t, lines[..i], [], now), i)
    ensures UpdatedSoFar(t, Run(t, lines[..i + 1], [], now), i + 1)
  {
    var prev := Run(t, lines[..i], [], now);
    assert FaultAt([], i) == NO_FAULTS;
    var line := lines[i];
    assert line.number in t && t[line.number].lineId == line.lineId && MutableColumnsFit(line);
    SyncedStep(t, prev.rows, line, now);
    var s := ProcessLine(prev.rows, line, NO_FAULTS, now);
    UpdatedSoFarSnoc(t, prev, s, i);
    RunSnoc(t, lines, [], now, i);
  }

  /** A pass with no faults over a synced table updates every line and
      changes no `line_id` and no number. */
  lemma {:induction false} SyncedRunUpdatesAll(t: Table, lines: seq<MangoLine>, now: int)
    requires WellFormed(t) && Synced(t, lines)
    ensures var p := Run(t, lines, [], now);
            && (forall k :: 0 <= k < |lines| ==> p.outcomes[k] == Updated)
            && p.rows.Keys == t.Keys
            && (forall n :: n in t ==> p.rows[n].lineId == t[n].lineId)
  {
    var i := 0;
    assert lines[..0] == [];
    while i < |lines|
      invariant 0 <= i <= |lines|
      invariant UpdatedSoFar(t, Run(t, lines[..i], [], now), i)
    {
      SyncedRunStep(t, lines, now, i);
      i := i + 1;
    }
    assert lines[..i] == lines;
  }

  /** A fault-free pass over a synced table counts every line as updated
      and none as created or failed. */
  lemma {:induction false} SyncedPassCounts(t: Table, lines: seq<MangoLine>, now: int)
    requires WellFormed(t) && Synced(t, lines)
    ensures var r := Summary(Run(t, lines, [], now).outcomes);
            r.updated == |lines| && r.created == 0 && r.errors == 0
  {
    var os := Run(t, lines, [], now).outcomes;
    SyncedRunUpdatesAll(t, lines, now);
    assert os == seq(|os|, _ => Updated);
    SameOutcomeCount(|os|, Updated);
    SummaryCounts(os);
  }

  /** Idempotence of the whole pass for a vendor snapshot whose numbers are
      distinct: after a pass with no errors, a fault-free second pass
      updates every line and creates nothing. */
  lemma {:induction false} SecondRunUpdatesAll(t: Table, response: MangoApiResponse,
                            faults1: seq<Faults>, now1: int, now2: int)
    requires WellFormed(t) && response.result == SUCCESS_CODE && DistinctNumbers(response.lines)
    requires Reconcile(t, Some(response), None, faults1, now1).1.errors == 0
    ensures var t1 := Reconcile(t, Some(response), None, faults1, now1).0;
            var r2 := Reconcile(t1, Some(response), None, [], now2).1;
            r2.updated == |response.lines| && r2.created == 0 && r2.errors == 0
  {
    var p1 := Run(t, response.lines, faults1, now1);
    NoErrorsMeansNoFailure(p1.outcomes);
    CleanRunSyncs(t, response.lines, faults1, now1);
    SyncedPassCounts(p1.rows, response.lines, now2);
  }

  lemma {:induction false} SameOutcomeCount(n: nat, o: Outcome)
    ensures multiset(seq(n, _ => o))[o] == n
  {
    if n > 0 {
      SameOutcomeCount(n - 1, o);
      assert seq(n, _ => o) == seq(n - 1, _ => o) + [o];
    }
  }

  /** The pass runs against the store it was built with. */
  class SyncService {
    const db: DatabaseService

    constructor (db: DatabaseService)
      ensures this.db == db
    {
      this.db := db;
    }

    /** The guarded store work for one line (sync_service.py:44-63): look
        the number up, update the row found or create one, and turn every
        failure into a `Failed` outcome with its detail. */
    method ProcessRecord(line: MangoLine, f: Faults, now: int) returns (outcome: Outcome)
      requires db.Valid()
      modifies db
      ensures db.Valid()
      ensures Step(db.rows, outcome) == ProcessLine(old(db.rows), line, f, now)
    {
      if f.unexpected.Some? {
        return Failed(ProcessErrorDetail(line.number, f.unexpected.value));
      }
      var existing := db.GetPhoneNumberByNumber(line.number, f.lookupError);
      if existing.Some? {
        var ok := db.UpdatePhoneNumber(existing.value, line, now, f.commitError);
        outcome := if ok then Updated else Failed(UpdateErrorDetail(line.number));
      } else {
        var ok := db.CreatePhoneNumber(line, now, f.commitError);
        outcome := if ok then Created else Failed(CreateErrorDetail(line.number));
      }
    }

    /** The loop over the fetched lines (sync_service.py:41-63): each line
        is processed on the table the earlier lines left and tallied by its
        outcome, whatever the outcomes before it. */
    method ProcessLines(lines: seq<MangoLine>, faults: seq<Faults>, now: int) returns (result: SyncResult)
      requires db.Valid()
      modifies db
      ensures db.Valid()
      ensures var p := Run(old(db.rows), lines, faults, now);
              db.rows == p.rows && result == Summary(p.outcomes)
    {
      result := EMPTY_RESULT;
      ghost var start := db.rows;
      ghost var pass := Run(start, [], faults, now);
      var i := 0;
      while i < |lines|
        invariant 0 <= i <= |lines|
        invariant db.Valid()
        invariant pass == Run(start, lines[..i], faults, now)
        invariant db.rows == pass.rows && result == Summary(pass.outcomes)
      {
        var outcome := ProcessRecord(lines[i], FaultAt(faults, i), now);
        result := CountOutcome(result, outcome);
        RunSnoc(start, lines, faults, now, i);
        SummarySnoc(pass.outcomes, outcome);
        pass := Pass(db.rows, pass.outcomes + [outcome]);
        i := i + 1;
      }
      assert lines[..i] == lines;
    }

    /** One reconciliation pass (sync_service.py:16-80). `fetched` is what
        the vendor client returned, `sessionError` an exception raised while
        the session is opened, `faults` what goes wrong per line and `now`
        the clock. */
    method SyncPhoneNumbers(fetched: Option<MangoApiResponse>, sessionError: Option<string>,
                            faults: seq<Faults>, now: int) returns (result: SyncResult)
      requires db.Valid()
      modifies db
      ensures db.Valid()
      ensures (db.rows, result) == Reconcile(old(db.rows), fetched, sessionError, faults, now)
    {
      result := EMPTY_RESULT;
      if fetched.None? {
        result := result.(errorDetails := [FETCH_ERROR_DETAIL]);
        return;
      }
      var response := fetched.value;
      if response.result != SUCCESS_CODE {
        result := result.(errorDetails := [ApiErrorDetail(response.result)]);
        return;
      }
      if sessionError.Some? {
        result := result.(errorDetails := [CriticalErrorDetail(sessionError.value)]);
        return;
      }
      result := ProcessLines(response.lines, faults, now);
    }
  }
}
