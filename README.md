# Mango Office numbers synchronizer — reconciliation pass and phone-number table

This project models the core of a batch job that copies the list of
telephony lines reported by the Mango Office vendor API into a local
PostgreSQL table, and proves properties of that model in Dafny.

One pass (`SyncService.sync_phone_numbers`) takes the vendor's response,
stops with a single error detail when nothing was fetched or the vendor's
result code is not 1000, and otherwise walks the lines in order: it looks
each line up by its phone `number`, updates the row it finds or creates one
when there is none, and counts created, updated and failed lines. A failure
on one line is caught at that line and the pass goes on with the next.

The table (`mango_office__phone_numbers`, class `PhoneNumberTable`) is a map
from `number` to row, with `number` unique and `line_id` the primary key. A
create adds one row or leaves the table unchanged (rollback); an update
overwrites the mutable fields of the stored row and stamps `updated_at`.

Files:

- `models.dfy` — module `Models`: `MangoLine`, `MangoApiResponse`,
  `SyncResult` and an `Option` type.
- `decimal.dfy` — module `Decimal`: the decimal text of an integer, used in
  the `"API error: <code>"` detail, with its round trip.
- `database.dfy` — module `Store`: rows, the table's constraints and column
  widths, the pure definitions of what an insert and an update store, and the
  class `DatabaseService` whose methods change the table in place.
- `sync_service.dfy` — module `Sync`: the pure specification of one line
  (`ProcessLine`), of the loop (`Run`), of the counters (`Tally`, `Summary`)
  and of the pass (`Reconcile`); the lemmas about them; the counting
  method `CountOutcome`; and the class `SyncService`, whose pass is proved
  to compute `Reconcile`.
- `entry_point.dfy` — module `EntryPoint`: the exit-status rule of `main.py`.
- `scenarios.dfy` — module `Scenarios`: concrete passes over small snapshots.

What the environment supplies is a parameter:

- the vendor fetch is `fetched: Option<MangoApiResponse>` (None for every
  failure the client reports by returning `None`);
- an exception while the session is opened is `sessionError: Option<string>`;
- per line, `Faults(lookupError, commitError, unexpected)` says whether the
  lookup raises a database error, whether the commit raises a database error
  (connection lost, aborted transaction), and whether some other exception
  escapes with a message; lines past the end of the `faults` sequence see no
  fault;
- the clock is `now: int`, one reading per pass.

Constraint violations are not oracle choices: an insert fails when the number
is already stored, when its `line_id` is used by another row, or when a value
is longer than its column (`String(20)`, `String(255)`, `String(10)`) or out of
the 32-bit `Integer` range; an update fails on a `line_id` used by another row
or a value that does not fit. The model rejects every over-long string, including
one whose extra characters are all spaces, which PostgreSQL would truncate and
store instead (see "## Left out").

Where the code and a natural reading of the job's documented behaviour
differ, the model follows the code:

- A failed fetch or a vendor error code counts no error, so `main.py`
  (lines 43-48) exits 0 after such a pass although the pass did nothing.
  `EntryPoint.StructuralFailureExitsZero` states this as written.
- "A second pass over an unchanged snapshot updates every line" is proved
  when the snapshot's numbers are distinct (`Sync.SecondRunUpdatesAll`).
  With a repeated number it can fail: the snapshot in
  `Scenarios.RepeatedNumberBlocksSecondUpdate` passes once with no error and
  then reports one `Update error` on the second pass, because the first
  line's `line_id` was taken over by another number. After a first
  pass with no error, a second pass creates nothing for every snapshot
  (`Sync.SecondRunCreatesNothing`).
- A lookup that raises a database error reads as "no row", so the line goes
  to a create attempt, which the unique `number` then rejects when the row
  exists (`Sync.ProcessLineDecision`).
- `lookupError` and `commitError` are independent, so the model also allows a
  failed lookup followed by a create that commits. In the source that happens
  only when the lookup fails before any statement reaches the server (for
  instance, while a connection is obtained): `get_phone_number_by_number`
  does not roll back (database.py:71-73), so after a server-side query error
  the PostgreSQL transaction is aborted and the following create cannot
  commit. The lemmas that quantify over all faults cover both cases.

## Model

| member | source | states |
|---|---|---|
| `Store.Refreshed` | database.py:99-105 | the updated row takes `line_id`, `name`, `comment`, `region`, `schema_id`, `schema_name` from the line and `updated_at` from the clock, and keeps `number` and `created_at` |
| `Store.FindByNumberUnique` | database.py:62-73 | in a table satisfying both constraints the lookup returns exactly the row whose number is `n` |
| `Store.NotFoundMeansAbsent` | database.py:62-73 | the lookup returns None exactly when no row has number `n` |
| `Store.InsertKeepsWellFormed` | database.py:22-23 | an insert that passes the constraints keeps `number` and `line_id` unique and adds exactly one row |
| `Store.RefreshKeepsWellFormed` | database.py:22-23 | an update that passes the constraints keeps `number` and `line_id` unique and keeps the set of numbers |
| `Store.DatabaseService.GetPhoneNumberByNumber` | database.py:62-73 | a query error gives None; otherwise the result is Some exactly when a row with that number exists, and then it is that row |
| `Store.DatabaseService.CreatePhoneNumber` | database.py:75-93 | returns true exactly when no database error occurs, the number is new, the `line_id` is unused and the values fit; then exactly one row is added, under the line's number, carrying the line's `line_id`, `number`, `name`, `comment`, `region`, `schema_id` and `schema_name` with both timestamps set to the insert time (`NewRow`), and no other row changes; otherwise the table is unchanged (rollback) |
| `Store.DatabaseService.UpdatePhoneNumber` | database.py:95-113 | returns true exactly when no database error occurs, no other row uses the new `line_id` and the values fit; then only the found row changes, as `Refreshed` says; otherwise the table is unchanged (rollback) |
| `Store.DatabaseService.GetAllPhoneNumbers` | database.py:115-120 | a query error gives `[]`; otherwise every stored row, each exactly once |
| `Decimal.IntToString` | sync_service.py:35 | the text of a code is non-empty, starts with '-' exactly for negative codes, and is otherwise all digits |
| `Decimal.IntRoundTrip` | sync_service.py:35 | reading the decimal text of a code back gives the code |
| `Sync.ApiErrorDetailsDiffer` | sync_service.py:33-36 | two different vendor result codes give two different `API error` details |
| `Sync.ProcessLine` | sync_service.py:44-63 | one line keeps both table constraints, changes at most the row under its own number, leaves the table unchanged when it fails, creates only an absent number, and, unless it fails, leaves its number stored with its `line_id` |
| `Sync.ProcessLineDecision` | sync_service.py:44-63 | an unexpected exception gives `Process error <n>: <msg>`; a found row leads to an update attempt, which succeeds exactly when the update may commit and otherwise gives `Update error <n>`; an absent row or a failed lookup leads to a create attempt, which succeeds exactly when the insert may commit and otherwise gives `Create error <n>` |
| `Sync.Run` | sync_service.py:41-63 | the loop gives one outcome per line, keeps both table constraints and never removes a row |
| `Sync.RunTouchesOnlyFetched` | sync_service.py:41-58 | rows whose numbers are not among the fetched lines come out unchanged, and every new row belongs to a fetched number |
| `Sync.RunPrefix` | sync_service.py:41-63 | the outcomes of the pass over the first m lines are the first m outcomes of the whole pass: later lines never change what earlier lines reported |
| `Sync.RunOutcomeAt` | sync_service.py:41-63 | the outcome of line k is that of processing line k on the table the earlier lines left, whatever their outcomes: a failing line never stops later ones |
| `Sync.FailedDetailForm` | sync_service.py:50-63 | each failed line's detail names that line's number, as a process error with the exception's message or as an update or create error |
| `Sync.Tally` | sync_service.py:42-63 | each line adds one to `total_processed` and to exactly one of `created`, `updated`, `errors`, and appends a detail exactly when it failed |
| `Sync.CountOutcome` | sync_service.py:42-63 | the counter updates the loop performs for one outcome give exactly `Tally` of the running result |
| `Sync.SummaryCounts` | sync_service.py:41-63 | after the loop `total_processed` is the number of lines and equals `created + updated + errors`; `created` and `updated` count those outcomes; the details are the failed lines' details in line order, one per error |
| `Sync.NoErrorsMeansNoFailure` | sync_service.py:47-63 | `errors` is 0 exactly when no line failed |
| `Sync.Reconcile` | sync_service.py:16-80 | the whole pass keeps both table constraints |
| `Sync.StructuralFailure` | sync_service.py:26-78 | no fetch, a result code other than 1000, or a session that does not open: all four counters 0, the single detail `API fetch error`, `API error: <code>` or `Critical error: <msg>`, and the table untouched |
| `Sync.ProcessingCounts` | sync_service.py:41-63 | on the processing path `total_processed` equals the number of lines and `created + updated + errors`, and `error_details` holds one detail per error, in line order |
| `Sync.NoCreateWhenStored` | sync_service.py:45-58 | when every fetched number is already stored, no line is created, whatever fails |
| `Sync.CleanRunStoresEveryLine` | sync_service.py:45-58 | after a pass in which no line failed, every fetched number is stored |
| `Sync.SecondRunCreatesNothing` | sync_service.py:41-58 | after a pass with `errors == 0`, a second pass over the same lines has `created == 0`, whatever fails in it |
| `Sync.CleanRunSyncs` | sync_service.py:45-58 | after a pass in which no line failed, over lines with distinct numbers, each line is stored under its number with its `line_id` |
| `Sync.SyncedRunUpdatesAll` | sync_service.py:45-52 | over a table already holding every line with its `line_id`, a fault-free pass updates every line and changes no `line_id` and no number |
| `Sync.SyncedPassCounts` | sync_service.py:41-52 | a fault-free pass over a table already holding every line with its `line_id` counts every line as updated, none as created and none as failed |
| `Sync.SecondRunUpdatesAll` | sync_service.py:41-58 | after a pass with `errors == 0` over lines with distinct numbers, a fault-free second pass updates every line, creates none and has no error |
| `Sync.SyncService.ProcessRecord` | sync_service.py:44-63 | the guarded store work for one line changes the table and returns the outcome exactly as `ProcessLine` specifies |
| `Sync.SyncService.ProcessLines` | sync_service.py:41-63 | the loop leaves the table `Run` gives for the old table and returns the `Summary` of its outcomes |
| `Sync.SyncService.SyncPhoneNumbers` | sync_service.py:16-80 | the pass leaves the table and returns the result that `Reconcile` gives for the old table, and keeps both table constraints |
| `EntryPoint.StructuralFailureExitsZero` | main.py:43-48 | after a structural failure the exit status is 0 and there is one error detail |
| `EntryPoint.ExitCodeOfOutcomes` | main.py:43-48 | after the loop the exit status is 0 exactly when no line failed |
| `Scenarios.CreateThenRename` | sync_service.py:44-58 | a new number on an empty table gives one created line; the same number with a new name then gives one updated line, the stored name changes and `created_at` stays |
| `Scenarios.RepeatedNumberBlocksSecondUpdate` | database.py:22 | a snapshot `(5,"1"), (6,"1"), (5,"2")` passes once with no error, and a second pass then counts 2 updated and 1 `Update error 1` |

## Left out

- mango_client.py (HTTP request, timeout, status check, JSON decoding, field validation) is outside the model; the fetch outcome is the input `fetched`, which is None for every failure the client reports.
- The request signature (SHA-256 over API key, `"{}"` and salt, mango_client.py:18-26) is not modelled: the hash is a library call and the request is never built.
- Engine, session factory, table creation and disposal (database.py:39-60, 122-125) are connection management; the table is given to the `DatabaseService` constructor.
- Session open and close (sync_service.py:38, 73-74) are resource scoping; only an exception while opening is modelled, as `sessionError`.
- The outer `Critical error` handler (sync_service.py:76-78) is modelled only for an exception while the session is opened; an exception in the final log call is not.
- Sync.ProcessLine: an unexpected (non-database) exception is modelled as raised before anything is written; an exception escaping after `session.add` or after the found row's fields were assigned, which would leave uncommitted changes in the session, is not modelled.
- Timestamps are one abstract clock reading per pass; `datetime.utcnow` and its precision are not modelled.
- Column widths are compared with Dafny string lengths; PostgreSQL's character counting and text encoding are not modelled.
- Store.CanInsert and Store.CanRefresh reject every value longer than its `varchar` column. PostgreSQL instead stores an over-long value whose extra characters are all spaces, truncated to the column width, without an error. The model therefore reports `Create error`/`Update error` where the source commits such a row, for `number`, `name`, `region` and `schema_name`. The truncated value that would then be stored is not modelled either; for `number` it no longer equals the fetched number.
- Store.DatabaseService.GetAllPhoneNumbers: the order of the returned rows is left open, as the query has no `ORDER BY`.
- Overlapping passes over one table (races on the same number) are not modelled; the pass is sequential.
- main.py's logging setup, its exit status 130 on interruption and 1 on an exception raised out of the pass are not modelled; only the rule based on `errors` is.
- Logging everywhere, config.py (environment loading) and test_sync.py (a live API call) are not part of this model.
- models.py `PhoneNumber` is not used by the pass and is not modelled.
