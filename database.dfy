/** The phone-number table and the store operations over it (database.py).

    The table `mango_office__phone_numbers` is modelled as a map from the
    natural key `number` to the row stored under it. Its two uniqueness
    constraints (primary key `line_id`, unique `number`) and the widths of
    its columns are what make an insert or an update fail at commit; a
    failure of the database itself (connection lost, transaction aborted)
    is an oracle flag passed to each operation. */
module Store {
  import opened Models

  // Column widths of the table: String(20), String(255), String(10).
  const NUMBER_WIDTH: nat := 20
  const NAME_WIDTH: nat := 255
  const REGION_WIDTH: nat := 10
  const SCHEMA_NAME_WIDTH: nat := 255

  // Range of an SQL `Integer` column (32-bit signed).
  const INT32_MIN: int := -0x8000_0000
  const INT32_MAX: int := 0x7fff_ffff

  /** One row of the table (database.py PhoneNumberTable). Timestamps are
      abstract clock readings. */
  datatype Row = Row(
    lineId: int,
    number: string,
    name: Option<string>,
    comment: Option<string>,
    region: string,
    schemaId: int,
    schemaName: string,
    createdAt: int,
    updatedAt: int)

  type Table = map<string, Row>

  /** The table's constraints: every row is filed under its own number, so
      `number` is unique, and no two rows share a `line_id`. */
  predicate WellFormed(t: Table) {
    && (forall n :: n in t ==> t[n].number == n)
    && (forall n, m :: n in t && m in t && n != m ==> t[n].lineId != t[m].lineId)
  }

  predicate FitsInt32(i: int) {
    INT32_MIN <= i <= INT32_MAX
  }

  predicate OptionalFits(s: Option<string>, width: nat) {
    s.None? || |s.value| <= width
  }

  /** The values an update writes fit their columns. */
  predicate MutableColumnsFit(line: MangoLine) {
    && FitsInt32(line.lineId)
    && OptionalFits(line.name, NAME_WIDTH)
    && |line.region| <= REGION_WIDTH
    && FitsInt32(line.schemaId)
    && |line.schemaName| <= SCHEMA_NAME_WIDTH
  }

  /** The values an insert writes fit their columns. */
  predicate ColumnsFit(line: MangoLine) {
    |line.number| <= NUMBER_WIDTH && MutableColumnsFit(line)
  }

  /** No row other than the one filed under `except` uses `lineId`. */
  predicate LineIdFree(t: Table, lineId: int, except: string) {
    forall n :: n in t && n != except ==> t[n].lineId != lineId
  }

  /** An insert of `line` commits unless the database itself fails. */
  predicate CanInsert(t: Table, line: MangoLine) {
    && line.number !in t
    && LineIdFree(t, line.lineId, line.number)
    && ColumnsFit(line)
  }

  /** An update of `existing` from `line` commits unless the database
      itself fails. */
  predicate CanRefresh(t: Table, existing: Row, line: MangoLine) {
    LineIdFree(t, line.lineId, existing.number) && MutableColumnsFit(line)
  }

  /** The row an insert stores: the line's fields, both timestamps `now`. */
  function NewRow(line: MangoLine, now: int): (r: Row)
    ensures r.lineId == line.lineId && r.number == line.number
    ensures r.name == line.name && r.comment == line.comment
    ensures r.region == line.region
    ensures r.schemaId == line.schemaId && r.schemaName == line.schemaName
    ensures r.createdAt == now && r.updatedAt == now
  {
    Row(line.lineId, line.number, line.name, line.comment, line.region,
        line.schemaId, line.schemaName, now, now)
  }

  /** The row an update leaves: every mutable field from the line,
      `updated_at` set to `now`, `number` and `created_at` as they were. */
  function Refreshed(existing: Row, line: MangoLine, now: int): (r: Row)
    ensures r.lineId == line.lineId
    ensures r.name == line.name && r.comment == line.comment
    ensures r.region == line.region
    ensures r.schemaId == line.schemaId && r.schemaName == line.schemaName
    ensures r.updatedAt == now
    ensures r.number == existing.number && r.createdAt == existing.createdAt
  {
    existing.(lineId := line.lineId, name := line.name, comment := line.comment,
              region := line.region, schemaId := line.schemaId,
              schemaName := line.schemaName, updatedAt := now)
  }

  /** The first row whose number is `number`, or None. */
  function FindByNumber(t: Table, number: string): Option<Row> {
    if number in t then Some(t[number]) else None
  }

  /** In a well-formed table the row found is the unique row with that
      number, and None means there is none. */
  lemma {:induction false} FindByNumberUnique(t: Table, number: string, r: Row)
    requires WellFormed(t)
    ensures FindByNumber(t, number) == Some(r) <==> (r in t.Values && r.number == number)
  {
    if r in t.Values && r.number == number {
      var n :| n in t && t[n] == r;
      assert n == number;
    }
  }

  lemma {:induction false} NotFoundMeansAbsent(t: Table, number: string)
    requires WellFormed(t)
    ensures FindByNumber(t, number) == None <==> forall r :: r in t.Values ==> r.number != number
  {
    if number in t {
      assert t[number] in t.Values;
    }
  }

  /** A committed insert keeps both constraints and adds exactly one row. */
  lemma {:induction false} InsertKeepsWellFormed(t: Table, line: MangoLine, now: int)
    requires WellFormed(t) && CanInsert(t, line)
    ensures WellFormed(t[line.number := NewRow(line, now)])
    ensures |t[line.number := NewRow(line, now)]| == |t| + 1
  {
  }

  /** A committed update keeps both constraints and the set of numbers. */
  lemma {:induction false} RefreshKeepsWellFormed(t: Table, existing: Row, line: MangoLine, now: int)
    requires WellFormed(t) && existing.number in t && CanRefresh(t, existing, line)
    ensures WellFormed(t[existing.number := Refreshed(existing, line, now)])
    ensures t[existing.number := Refreshed(existing, line, now)].Keys == t.Keys
  {
  }

  /** The store adapter of one pass: the current table contents. */
  class DatabaseService {
    var rows: Table

    ghost predicate Valid()
      reads this
    {
      WellFormed(rows)
    }

    constructor (initial: Table)
      requires WellFormed(initial)
      ensures Valid() && rows == initial
    {
      rows := initial;
    }

    /** The row stored under `number`; a query error is logged and reads
        as "no row" (database.py `get_phone_number_by_number`). */
    method GetPhoneNumberByNumber(number: string, queryError: bool) returns (found: Option<Row>)
      requires Valid()
      ensures queryError ==> found == None
      ensures !queryError ==> (found.Some? <==> exists r :: r in rows.Values && r.number == number)
      ensures found.Some? ==> found.value in rows.Values && found.value.number == number
    {
      if queryError {
        return None;
      }
      found := FindByNumber(rows, number);
      if found.Some? {
        FindByNumberUnique(rows, number, found.value);
      } else {
        NotFoundMeansAbsent(rows, number);
      }
    }

    /** Inserts a row for `line` and commits; on any store error rolls back
        and answers false (database.py `create_phone_number`). */
    method CreatePhoneNumber(line: MangoLine, now: int, commitError: bool) returns (ok: bool)
      requires Valid()
      modifies this
      ensures Valid()
      ensures ok <==> !commitError && CanInsert(old(rows), line)
      ensures ok ==> rows == old(rows)[line.number := NewRow(line, now)]
      ensures ok ==> |rows| == |old(rows)| + 1
      ensures !ok ==> rows == old(rows)
    {
      if commitError || !CanInsert(rows, line) {
        return false;
      }
      InsertKeepsWellFormed(rows, line, now);
      rows := rows[line.number := NewRow(line, now)];
      ok := true;
    }

    /** Overwrites the mutable fields of the stored row `existing` from
        `line`, stamps `updated_at` and commits; on any store error rolls
        back and answers false (database.py `update_phone_number`). */
    method UpdatePhoneNumber(existing: Row, line: MangoLine, now: int, commitError: bool) returns (ok: bool)
      requires Valid()
      requires existing.number in rows && rows[existing.number] == existing
      modifies this
      ensures Valid()
      ensures ok <==> !commitError && CanRefresh(old(rows), existing, line)
      ensures ok ==> rows == old(rows)[existing.number := Refreshed(existing, line, now)]
      ensures ok ==> rows.Keys == old(rows).Keys
      ensures !ok ==> rows == old(rows)
    {
      if commitError || !CanRefresh(rows, existing, line) {
        return false;
      }
      RefreshKeepsWellFormed(rows, existing, line, now);
      rows := rows[existing.number := Refreshed(existing, line, now)];
      ok := true;
    }

    /** Every stored row, each once; `[]` on a query error
        (database.py `get_all_phone_numbers`). */
    method GetAllPhoneNumbers(queryError: bool) returns (all: seq<Row>)
      requires Valid()
      ensures queryError ==> all == []
      ensures !queryError ==> |all| == |rows|
      ensures !queryError ==> forall r :: r in all <==> r in rows.Values
      ensures forall i, j :: 0 <= i < j < |all| ==> all[i].number != all[j].number
    {
      all := [];
      if queryError {
        return;
      }
      var pending := rows.Keys;
      while pending != {}
        invariant pending <= rows.Keys
        invariant |all| + |pending| == |rows|
        invariant forall k :: 0 <= k < |all| ==> all[k].number in rows && all[k].number !in pending && rows[all[k].number] == all[k]
        invariant forall n :: n in rows && n !in pending ==> rows[n] in all
        invariant forall i, j :: 0 <= i < j < |all| ==> all[i].number != all[j].number
        decreases |pending|
      {
        var n :| n in pending;
        all := all + [rows[n]];
        pending := pending - {n};
      }
      forall r | r in rows.Values
        ensures r in all
      {
        var n :| n in rows && rows[n] == r;
      }
    }
  }
}
