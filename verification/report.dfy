/** The report path of api/report.go: merging stored batches for a list of
    ids, the handler's answers, and the two display rules of the PDF rows. */
module Report {
  import opened Data
  import opened Lifecycle
  import opened DeferredCache
  import opened Check

  /** The stored batches for `ids` merged left to right: a missing id adds
      nothing, and a later batch overwrites an earlier one on a shared URL. */
  function Collect(data: map<int, Batch>, ids: seq<int>): (collected: Batch)
  {
    if ids == [] then map[]
    else
      var earlier := Collect(data, ids[..|ids| - 1]);
      var id := ids[|ids| - 1];
      if id in data then earlier + data[id] else earlier
  }

  /** A URL is in the report exactly when some listed id is stored and its
      batch holds that URL. */
  lemma {:induction false} CollectKeys(data: map<int, Batch>, ids: seq<int>)
    ensures forall u :: u in Collect(data, ids) <==>
              exists k :: 0 <= k < |ids| && ids[k] in data && u in data[ids[k]]
  {
    if ids != [] {
      var init := ids[..|ids| - 1];
      CollectKeys(data, init);
      forall u ensures u in Collect(data, ids) <==>
                exists k :: 0 <= k < |ids| && ids[k] in data && u in data[ids[k]]
      {
        if u in Collect(data, ids) {
          if u in Collect(data, init) {
            var k :| 0 <= k < |init| && init[k] in data && u in data[init[k]];
            assert ids[k] == init[k];
          } else {
            assert ids[|ids| - 1] in data && u in data[ids[|ids| - 1]];
          }
        }
        if exists k :: 0 <= k < |ids| && ids[k] in data && u in data[ids[k]] {
          var k :| 0 <= k < |ids| && ids[k] in data && u in data[ids[k]];
          if k < |ids| - 1 {
            assert init[k] == ids[k];
          }
        }
      }
    }
  }

  /** The value reported for a URL comes from the last listed stored id whose
      batch holds that URL. */
  lemma {:induction false} CollectLastIdWins(data: map<int, Batch>, ids: seq<int>, k: nat, u: string)
    requires k < |ids| && ids[k] in data && u in data[ids[k]]
    requires forall j :: k < j < |ids| && ids[j] in data ==> u !in data[ids[j]]
    ensures u in Collect(data, ids) && Collect(data, ids)[u] == data[ids[k]][u]
  {
    if k < |ids| - 1 {
      CollectLastIdWins(data, ids[..|ids| - 1], k, u);
    }
  }

  /** The report is empty exactly when no listed id is stored with a
      non-empty batch; in particular, when no listed id is stored at all. */
  lemma {:induction false} CollectEmptyIff(data: map<int, Batch>, ids: seq<int>)
    ensures Collect(data, ids) == map[] <==>
              forall k :: 0 <= k < |ids| && ids[k] in data ==> data[ids[k]] == map[]
  {
    CollectKeys(data, ids);
    if exists k :: 0 <= k < |ids| && ids[k] in data && data[ids[k]] != map[] {
      var k :| 0 <= k < |ids| && ids[k] in data && data[ids[k]] != map[];
      var u :| u in data[ids[k]];
      assert u in Collect(data, ids);
    }
    if Collect(data, ids) != map[] {
      var u :| u in Collect(data, ids);
    }
  }

  /** `collectReportData`: copy every stored batch for `ids` into a fresh map,
      reading the store only. */
  method CollectReportData(store: Storage, linksList: seq<int>) returns (allResults: Batch)
    ensures allResults == Collect(store.data, linksList)
  {
    allResults := map[];
    for i := 0 to |linksList|
      invariant allResults == Collect(store.data, linksList[..i])
    {
      assert linksList[..i + 1][..i] == linksList[..i];
      var results, found := store.GetResults(linksList[i]);
      if found {
        allResults := allResults + results;
      }
    }
    assert linksList[..|linksList|] == linksList;
  }

  const NoIdsMessage: string := "номеров нет"
  const NotFoundMessage: string := "не найдено записей по таким номерам"

  /** What `reportPostHandler` answers, once the body has been decoded; on
      success it carries the merged data the PDF is generated from. */
  datatype ReportReply =
    | ReportBadRequest(message: string)
    | ReportUnavailable(message: string)
    | ReportNotFound(message: string)
    | ReportOk(report: Batch)
  {
    function Code(): int
    {
      match this
      case ReportBadRequest(_) => 400
      case ReportUnavailable(_) => 503
      case ReportNotFound(_) => 404
      case ReportOk(_) => 200
    }
  }

  /** `reportPostHandler` from the decoded id list on: 400 for an empty list,
      503 with the ids deferred while shutting down (store not read), 404 when
      the merge is empty, otherwise the merged data. The store never changes. */
  method ReportPostHandler(linksList: seq<int>, store: Storage, srv: Server, cache: ShutdownCache)
    returns (reply: ReportReply)
    modifies cache
    ensures reply.Code() == 400 <==> |linksList| == 0
    ensures reply.Code() == 503 <==> |linksList| > 0 && srv.isShutdown
    ensures reply.Code() == 404 <==>
              |linksList| > 0 && !srv.isShutdown && Collect(store.data, linksList) == map[]
    ensures reply.ReportBadRequest? ==> reply.message == NoIdsMessage
    ensures reply.ReportUnavailable? ==> reply.message == UnavailableMessage
    ensures reply.ReportNotFound? ==> reply.message == NotFoundMessage
    ensures reply.ReportOk? ==> reply.report == Collect(store.data, linksList) && reply.report != map[]
    ensures reply.ReportUnavailable? ==> cache.numberLinks == old(cache.numberLinks) + [linksList]
    ensures !reply.ReportUnavailable? ==> unchanged(cache)
  {
    var shuttingDown := srv.IsShutdown();
    match Admit(|linksList|, shuttingDown)
    case RejectEmpty =>
      reply := ReportBadRequest(NoIdsMessage);
    case DeferForShutdown =>
      cache.SaveNumberLinksCache(linksList);
      reply := ReportUnavailable(UnavailableMessage);
    case Proceed =>
      var allResults := CollectReportData(store, linksList);
      if |allResults| == 0 {
        reply := ReportNotFound(NotFoundMessage);
      } else {
        reply := ReportOk(allResults);
      }
  }

  /** Widest URL shown in a report row, and the part kept of a longer one. */
  const MaxDisplayLength: nat := 50
  const KeptPrefixLength: nat := 47
  const Ellipsis: string := "..."

  /** The URL as shown in a report row: unchanged up to 50 bytes, otherwise its
      first 47 bytes followed by `...`. */
  function DisplayUrl(url: string): (shown: string)
    ensures |shown| <= MaxDisplayLength
    ensures |url| <= MaxDisplayLength <==> shown == url
    ensures |url| > MaxDisplayLength ==>
              |shown| == MaxDisplayLength
              && shown[..KeptPrefixLength] == url[..KeptPrefixLength]
              && shown[KeptPrefixLength..] == Ellipsis
  {
    if |url| > MaxDisplayLength then url[..KeptPrefixLength] + Ellipsis else url
  }

  const AvailableLabel: string := "Available"
  const NotAvailableLabel: string := "Not Available"

  /** The status cell of a report row. */
  function StatusLabel(status: string): (shownLabel: string)
    ensures shownLabel == AvailableLabel <==> status == AvailableStatus
    ensures shownLabel != AvailableLabel ==> shownLabel == NotAvailableLabel
  {
    if status == AvailableStatus then AvailableLabel else NotAvailableLabel
  }
}
