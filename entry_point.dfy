/** The exit-status rule of the batch entry point (main.py `main`): the
    process fails exactly when some line was counted as an error. */
module EntryPoint {
  import opened Models
  import opened Store
  import opened Sync

  function ExitCode(r: SyncResult): int {
    if r.errors > 0 then 1 else 0
  }

  /** A structural failure counts no error, so the process exits 0 even
      though the pass did nothing. */
  lemma {:induction false} StructuralFailureExitsZero(t: Table, fetched: Option<MangoApiResponse>, sessionError: Option<string>,
                                   faults: seq<Faults>, now: int)
    requires WellFormed(t) && !Processes(fetched, sessionError)
    ensures ExitCode(Reconcile(t, fetched, sessionError, faults, now).1) == 0
    ensures |Reconcile(t, fetched, sessionError, faults, now).1.errorDetails| == 1
  {
  }

  /** On the processing path the result is the summary of the line
      outcomes, and the process exits 0 exactly when no line failed. */
  lemma {:induction false} ExitCodeOfOutcomes(os: seq<Outcome>)
    ensures ExitCode(Summary(os)) == 0 <==> forall k :: 0 <= k < |os| ==> !os[k].Failed?
  {
    NoErrorsMeansNoFailure(os);
  }
}
