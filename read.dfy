/**
 * The segmented scan reader (`Read`): the checks `expand` makes before
 * building the pipeline, the split of one read into one read per segment
 * (`SplitFn`), the paginated scan of one segment (`ReadFn`), and the mapper
 * that turns a page into its items (`ItemsMapper`).
 */
module ReadIO {
  import opened Types

  /** The parts of a scan request the reader looks at or sets. */
  datatype ScanRequest = ScanRequest(
    tableName: string,
    totalSegments: Option<int>,
    segment: Option<int>,
    exclusiveStartKey: Option<AttributeMap>)

  /** One page of a scan: its items and where the next page starts, if anywhere. */
  datatype ScanResponse = ScanResponse(items: seq<AttributeMap>, lastEvaluatedKey: Option<AttributeMap>)

  /**
   * A read as configured by its user: the scan request its request function
   * builds (absent when no function was given), whether a client provider was
   * given, the segment this copy reads (absent before the split) and the
   * mapper applied to each page.
   */
  datatype ReadSpec<T> = ReadSpec(
    scanRequestFn: Option<ScanRequest>,
    hasClientProvider: bool,
    segmentId: Option<int>,
    scanResponseMapper: ScanResponse -> T)

  const ScanRequestFnRequired := "withScanRequestFn() is required"
  const ClientProviderRequired := "withDynamoDbClientProvider() is required"
  const TotalSegmentsRequired := "TotalSegments is required with withScanRequestFn() and greater zero"

  /**
   * The argument checks of `expand`, in the order it makes them; on success
   * the number of segments to read.
   */
  function CheckExpand<T>(spec: ReadSpec<T>): (r: Result<nat, string>)
    ensures r.Success? <==>
      && spec.scanRequestFn.Some?
      && spec.hasClientProvider
      && spec.scanRequestFn.value.totalSegments.Some?
      && spec.scanRequestFn.value.totalSegments.value > 0
    ensures r.Success? ==> r.value == spec.scanRequestFn.value.totalSegments.value
    ensures spec.scanRequestFn.None? ==> r == Failure(ScanRequestFnRequired)
    ensures spec.scanRequestFn.Some? && !spec.hasClientProvider ==> r == Failure(ClientProviderRequired)
    ensures spec.scanRequestFn.Some? && spec.hasClientProvider && r.Failure? ==> r == Failure(TotalSegmentsRequired)
  {
    if spec.scanRequestFn.None? then Failure(ScanRequestFnRequired)
    else if !spec.hasClientProvider then Failure(ClientProviderRequired)
    else
      match spec.scanRequestFn.value.totalSegments
      case Some(n) => if n > 0 then Success(n) else Failure(TotalSegmentsRequired)
      case None => Failure(TotalSegmentsRequired)
  }

  /** Where a pipeline stage's outputs go, in the order they are emitted. */
  class OutputReceiver<T> {
    var emitted: seq<T>

    constructor ()
      ensures emitted == []
    {
      emitted := [];
    }

    method Output(x: T)
      modifies this`emitted
      ensures emitted == old(emitted) + [x]
    {
      emitted := emitted + [x];
    }
  }

  /**
   * `SplitFn`: emits one copy of the read per segment, with segment ids
   * 0, 1, ... up to the total number of segments, in that order.
   */
  method SplitSegments<T>(spec: ReadSpec<T>, out: OutputReceiver<ReadSpec<T>>)
    requires spec.scanRequestFn.Some? && spec.scanRequestFn.value.totalSegments.Some?
    modifies out`emitted
    ensures var n := spec.scanRequestFn.value.totalSegments.value;
      && |out.emitted| == |old(out.emitted)| + (if n > 0 then n else 0)
      && out.emitted[..|old(out.emitted)|] == old(out.emitted)
      && forall i :: 0 <= i < |out.emitted| - |old(out.emitted)| ==>
           out.emitted[|old(out.emitted)| + i] == spec.(segmentId := Some(i))
  {
    var n := spec.scanRequestFn.value.totalSegments.value;
    var i := 0;
    while i < n
      invariant 0 <= i <= (if n > 0 then n else 0)
      invariant |out.emitted| == |old(out.emitted)| + i
      invariant out.emitted[..|old(out.emitted)|] == old(out.emitted)
      invariant forall j :: 0 <= j < i ==> out.emitted[|old(out.emitted)| + j] == spec.(segmentId := Some(j))
    {
      out.Output(spec.(segmentId := Some(i)));
      i := i + 1;
    }
  }

  /** A page after which the scan goes on: its last evaluated key is present and not empty. */
  predicate HasMore(page: ScanResponse) {
    page.lastEvaluatedKey.Some? && |page.lastEvaluatedKey.value| > 0
  }

  /**
   * The store's pages from call `from` on include one that ends the scan:
   * the store does finish a segment.
   */
  predicate ScanEnds(pages: seq<ScanResponse>, from: nat) {
    exists k :: from <= k < |pages| && !HasMore(pages[k])
  }

  /**
   * The scan client as the reader sees it: the store answers its n-th scan
   * call with the n-th of a fixed sequence of pages.
   */
  class ScanClient {
    const pages: seq<ScanResponse>
    /** Every scan request sent so far, in order. */
    var scanRequests: seq<ScanRequest>

    constructor (pages: seq<ScanResponse>)
      ensures this.pages == pages && scanRequests == []
    {
      this.pages := pages;
      scanRequests := [];
    }

    method Scan(request: ScanRequest) returns (page: ScanResponse)
      requires |scanRequests| < |pages|
      modifies this`scanRequests
      ensures scanRequests == old(scanRequests) + [request]
      ensures page == pages[|old(scanRequests)|]
    {
      page := pages[|scanRequests|];
      scanRequests := scanRequests + [request];
    }
  }

  /** The scan request of a segment read, starting after `startKey` (from the start when absent). */
  function SegmentScan<T>(spec: ReadSpec<T>, startKey: Option<AttributeMap>): ScanRequest
    requires spec.scanRequestFn.Some?
  {
    spec.scanRequestFn.value.(segment := spec.segmentId, exclusiveStartKey := startKey)
  }

  /**
   * `ReadFn`: scans the read's segment page by page. The first scan has no
   * start key, each later one starts at the key the page before it ended
   * at; every page is mapped and emitted, in order; the scan stops after the
   * first page whose last evaluated key is absent or empty.
   */
  method ReadSegment<T>(spec: ReadSpec<T>, client: ScanClient, out: OutputReceiver<T>)
    requires spec.scanRequestFn.Some?
    requires ScanEnds(client.pages, |client.scanRequests|)
    modifies client`scanRequests, out`emitted
    ensures var c0, e0, n := |old(client.scanRequests)|, |old(out.emitted)|, |client.scanRequests| - |old(client.scanRequests)|;
      && n >= 1
      && |client.scanRequests| <= |client.pages|
      && client.scanRequests[..c0] == old(client.scanRequests)
      && (forall j :: c0 <= j < c0 + n - 1 ==> HasMore(client.pages[j]))
      && !HasMore(client.pages[c0 + n - 1])
      && client.scanRequests[c0] == SegmentScan(spec, None)
      && (forall j :: c0 < j < c0 + n ==>
            client.scanRequests[j] == SegmentScan(spec, client.pages[j - 1].lastEvaluatedKey))
      && |out.emitted| == e0 + n
      && out.emitted[..e0] == old(out.emitted)
      && forall j :: e0 <= j < e0 + n ==> out.emitted[j] == spec.scanResponseMapper(client.pages[c0 + (j - e0)])
  {
    ghost var c0, e0 := |client.scanRequests|, |out.emitted|;
    ghost var read: nat := 0;
    var lastEvaluatedKey: Option<AttributeMap> := None;
    while true
      invariant |client.scanRequests| == c0 + read && |out.emitted| == e0 + read
      invariant ScanEnds(client.pages, c0 + read)
      invariant client.scanRequests[..c0] == old(client.scanRequests)
      invariant out.emitted[..e0] == old(out.emitted)
      invariant forall j :: c0 <= j < c0 + read ==> HasMore(client.pages[j])
      invariant lastEvaluatedKey == if read == 0 then None else client.pages[c0 + read - 1].lastEvaluatedKey
      invariant read > 0 ==> client.scanRequests[c0] == SegmentScan(spec, None)
      invariant forall j :: c0 < j < c0 + read ==>
        client.scanRequests[j] == SegmentScan(spec, client.pages[j - 1].lastEvaluatedKey)
      invariant forall j :: e0 <= j < e0 + read ==> out.emitted[j] == spec.scanResponseMapper(client.pages[c0 + (j - e0)])
      decreases |client.pages| - |client.scanRequests|
    {
      var page := client.Scan(SegmentScan(spec, lastEvaluatedKey));
      out.Output(spec.scanResponseMapper(page));
      lastEvaluatedKey := page.lastEvaluatedKey;
      read := read + 1;
      if !(lastEvaluatedKey.Some? && |lastEvaluatedKey.value| > 0) {
        return;
      }
      ghost var k :| c0 + read - 1 <= k < |client.pages| && !HasMore(client.pages[k]);
      assert k != c0 + read - 1;
    }
  }

  /** `ItemsMapper`: a missing page has no items, a present one its own. */
  function ItemsMapper(page: Option<ScanResponse>): (items: seq<AttributeMap>)
    ensures page.None? ==> items == []
    ensures page.Some? ==> items == page.value.items
  {
    if page.None? then [] else page.value.items
  }

  /**
   * `items()`: the same read with `ItemsMapper` as its mapper, so that every
   * page is emitted as its list of items.
   */
  function Items<T>(spec: ReadSpec<T>): (r: ReadSpec<seq<AttributeMap>>)
    ensures r.scanRequestFn == spec.scanRequestFn && r.hasClientProvider == spec.hasClientProvider
    ensures r.segmentId == spec.segmentId
    ensures forall page :: r.scanResponseMapper(page) == page.items
  {
    ReadSpec(spec.scanRequestFn, spec.hasClientProvider, spec.segmentId, page => ItemsMapper(Some(page)))
  }
}
