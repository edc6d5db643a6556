/** The record shapes exchanged between the vendor client, the store and
    the reconciliation pass (models.py). */
module Models {

  datatype Option<+T> = None | Some(value: T)

  /** One telephony line as the vendor reports it (models.py MangoLine). */
  datatype MangoLine = MangoLine(
    lineId: int,
    number: string,
    name: Option<string>,
    comment: Option<string>,
    region: string,
    schemaId: int,
    schemaName: string)

  /** A structurally valid vendor response: a result code and the lines in
      the order the vendor returned them (models.py MangoApiResponse). */
  datatype MangoApiResponse = MangoApiResponse(result: int, lines: seq<MangoLine>)

  /** The aggregate outcome of one pass (models.py SyncResult). */
  datatype SyncResult = SyncResult(
    totalProcessed: nat,
    created: nat,
    updated: nat,
    errors: nat,
    errorDetails: seq<string>)

  /** The result the pass starts from: all counters zero, no details. */
  const EMPTY_RESULT := SyncResult(0, 0, 0, 0, [])
}
