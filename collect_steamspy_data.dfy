/** steam_sales/src/collect_steamspy_data.py: SteamSpy details collected in
    batches of 1000 app ids, fetched with collect_metadata.py's `get_request`. */
module CollectSteamspyData {
  import opened PyValues
  import opened Fetcher
  import opened Batching
  import opened Validation
  import opened Crud
  import opened Scraping

  /** `batch_size` of `main`. */
  const BatchSize: nat := 1000

  /** The fetch of the details of `appid` (`{"request": "appdetails", "appid": appid}`). */
  function SteamspyFetch(net: Net, appid: int): Py<Option<Json>>
  {
    Attempt(MetadataPolicy, net(appid), 0, 4, 1, WithoutAppids).result
  }

  /** `parse_steamspy_request(appid)`: a None from the fetch is not filtered
      out but makes `GameDetails(**None)` raise TypeError; the fetch itself
      never raises. */
  function ParseSteamspyRequest(net: Net, appid: int): (r: Py<GameDetails>)
    ensures SteamspyFetch(net, appid) == Value(None) ==> r == Raise(TypeError)
    ensures r.Raise? ==> r.exc == TypeError || r.exc == ValidationError
    ensures r.Value? ==> exists body :: SteamspyFetch(net, appid) == Value(Some(body)) && GameDetailsCall(body) == r
  {
    RaisesOnly(MetadataPolicy, net(appid), 0, 4, 1, WithoutAppids);
    match SteamspyFetch(net, appid)
    case Raise(e) => Raise(e)
    case Value(None) => Raise(TypeError)
    case Value(Some(body)) => GameDetailsCall(body)
  }

  /** `parse_steamspy_request` as the function handed to the pool. */
  function SteamspyParser(net: Net): int -> Py<GameDetails>
  {
    (appid: int) => ParseSteamspyRequest(net, appid)
  }

  /** `fetch_and_process_app_data(app_id_list)`: the pool's `map` in input
      order; `filter(None, ...)` drops nothing, since a model instance is
      always truthy, so every id yields its record in place. */
  function FetchAndProcessAppData(net: Net, appIds: seq<int>): (r: Py<seq<GameDetails>>)
    ensures r.Value? ==> |r.value| == |appIds|
    ensures r.Value? ==> forall i :: 0 <= i < |appIds| ==> ParseSteamspyRequest(net, appIds[i]) == Value(r.value[i])
    ensures r.Raise? ==> exists i :: 0 <= i < |appIds| && ParseSteamspyRequest(net, appIds[i]) == Raise(r.exc)
  {
    MapPyElementwise(SteamspyParser(net), appIds);
    MapPy(SteamspyParser(net), appIds)
  }

  /** There are `ceil((n - i) / 1000)` batches from position `i` on. */
  lemma {:induction false} BatchCountFrom(xs: seq<int>, i: nat)
    requires i <= |xs|
    ensures |SlicesFrom(xs, BatchSize, i)| == (|xs| - i + BatchSize - 1) / BatchSize
    decreases |xs| - i
  {
    if i < |xs| {
      if i + BatchSize <= |xs| {
        BatchCountFrom(xs, i + BatchSize);
      } else {
        assert SlicesFrom(xs, BatchSize, i + BatchSize) == [];
      }
    }
  }

  /** `num_batches = (len(app_id_list) + batch_size - 1) // batch_size` is the
      number of slices the loop visits. */
  lemma BatchCount(xs: seq<int>)
    ensures |Slices(xs, BatchSize)| == (|xs| + BatchSize - 1) / BatchSize
  {
    BatchCountFrom(xs, 0);
  }

  /** `main()` over the app ids the SQL query returned; `numBatches` and
      `currentBatch` are the counters of the progress log line. */
  method RunMain(db: Database, net: Net, appIdList: seq<int>) returns (r: Py<()>, currentBatch: nat, numBatches: nat)
    modifies db
    ensures numBatches == (|appIdList| + BatchSize - 1) / BatchSize
    ensures var log := IngestBatches(SteamspyParser(net), Slices(appIdList, BatchSize));
      r == log.result && db.steamspyBatches == old(db.steamspyBatches) + log.ingested
    ensures r.Value? ==> currentBatch == numBatches
    ensures db.meta == old(db.meta) && db.details == old(db.details)
    ensures db.tempBatches == old(db.tempBatches) && db.lastRuns == old(db.lastRuns)
  {
    numBatches := (|appIdList| + BatchSize - 1) / BatchSize;
    r, currentBatch := IngestSteamspyBatches(db, SteamspyParser(net), appIdList, BatchSize);
    BatchCount(appIdList);
  }
}
