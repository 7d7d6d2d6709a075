/** The decoded hardware snapshot the remote monitor returns, and the ways
    fetching one can end. The shapes follow the XML-bound structs of the
    response parser; decoding itself is not part of this model. */
module Hardware {
  import opened Wrappers

  datatype Header = Header(
    signature: string,
    version: string,
    headerSize: int,
    entryCount: int,
    entrySize: int,
    time: int,
    gpuEntryCount: int,
    gpuEntrySize: int)

  /** One sensor reading. `gpuIndex` is a position in the snapshot's GPU list. */
  datatype Entry = Entry(
    sourceName: string,
    sourceUnits: string,
    localizedSourceName: string,
    localizedSourceUnit: string,
    recommendedFormat: string,
    data: real,
    minLimit: real,
    maxLimit: real,
    flags: string,
    gpuIndex: int,
    sourceId: string)

  datatype Gpu = Gpu(
    gpuId: string,
    family: string,
    device: string,
    driver: string,
    bios: string,
    memAmount: string)

  datatype Snapshot = Snapshot(header: Header, entries: seq<Entry>, gpus: seq<Gpu>)

  /** Every entry carries an index the normalizers may use to subscript a GPU list. */
  predicate IndexesNonNegative(entries: seq<Entry>) {
    forall i :: 0 <= i < |entries| ==> entries[i].gpuIndex >= 0
  }

  /** How one request to the `/mahm` endpoint ends: the request could not be
      built, the client's `Do` failed (this includes timeouts), or an answer
      came back with a status code and a body that did or did not decode. */
  datatype FetchOutcome =
    | RequestNotBuilt
    | TransportFailed
    | Answered(status: int, body: Option<Snapshot>)

  /** The error a failed fetch reports to its caller. */
  datatype FetchError = RequestError | TransportError | StatusError(code: int) | DecodeError

  /** Every index of a decoded snapshot can subscript a list. */
  predicate WellIndexed(outcome: FetchOutcome) {
    outcome.Answered? && outcome.body.Some? ==> IndexesNonNegative(outcome.body.value.entries)
  }

  /** What a fetch returns: the snapshot only for a decoded answer with status
      200; a bad status is reported before the body is looked at. */
  function Received(f: FetchOutcome): (r: Result<Snapshot, FetchError>)
    ensures r.Success? <==> f.Answered? && f.status == 200 && f.body.Some?
    ensures r.Success? ==> r.value == f.body.value
    ensures r.Failure? && f.Answered? ==>
              r.error == (if f.status != 200 then StatusError(f.status) else DecodeError)
    ensures f.RequestNotBuilt? ==> r == Failure(RequestError)
    ensures f.TransportFailed? ==> r == Failure(TransportError)
  {
    match f
    case RequestNotBuilt => Failure(RequestError)
    case TransportFailed => Failure(TransportError)
    case Answered(status, body) =>
      if status != 200 then Failure(StatusError(status))
      else if body.None? then Failure(DecodeError)
      else Success(body.value)
  }
}
