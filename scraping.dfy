/** steam_sales/src/scraping.py: the SteamSpy metadata fetcher (a page loop
    that skips failed pages) and the SteamSpy details fetcher (a batch loop
    over app ids), both built on `BaseFetcher.get_request`. */
module Scraping {
  import opened PyValues
  import opened Fetcher
  import opened Batching
  import opened Validation
  import opened Crud

  /** The SteamSpy server: `net(key)(k)` is its answer to the k-th GET of the
      call that asks for page or app id `key`. */
  type Net = int -> (nat -> Response)

  /** `self.get_request(url, parameters)` with the defaults of `BaseFetcher`. */
  function BaseFetch(env: nat -> Response, params: ParamKind): Py<Option<Json>>
  {
    Attempt(BaseFetcherPolicy(4), env, 0, 4, 4, params).result
  }

  /** The SteamSpy parameters (`{"request": ..., "page"/"appid": ...}`) have no
      "appids" key, so a call that exhausts its retries raises KeyError from
      the give-up log line instead of returning None. */
  lemma ExhaustedSteamSpyCallRaises(env: nat -> Response)
    requires forall j :: 0 <= j < 4 ==> Retries(BaseFetcherPolicy(4), env(j))
    ensures BaseFetch(env, WithoutAppids) == Raise(KeyError)
  {
    ExhaustsRetries(BaseFetcherPolicy(4), env, 0, 4, 4, WithoutAppids);
  }

  // ---------------------------------------------------------------------------
  // SteamSpyMetadataFetcher.run

  /** What a page yields: the exception raised while fetching or validating
      it, None when the fetch returned None, or the validated games. */
  type PageOutcome = Py<Option<seq<GameMeta>>>

  /** What `run` makes of a fetched page: None stays None (the page is
      skipped), a body is validated as `GameMetaDataList(games=json_data.values())`. */
  function PageOf(fetched: Py<Option<Json>>): (r: PageOutcome)
    ensures fetched == Value(None) <==> r == Value(None)
    ensures fetched.Raise? ==> r == Raise(fetched.exc)
    ensures r.Raise? && fetched.Value? ==> r.exc == AttributeError || r.exc == ValidationError
  {
    match fetched
    case Raise(e) => Raise(e)
    case Value(None) => Value(None)
    case Value(Some(body)) =>
      match GameMetaListFromPage(body)
      case Raise(e) => Raise(e)
      case Value(games) => Value(Some(games))
  }

  /** Fetching page `page` with the defaults of `BaseFetcher.get_request`, then validating it. */
  function MetadataPage(net: Net, page: int): PageOutcome
  {
    PageOf(BaseFetch(net(page), WithoutAppids))
  }

  /** The outcomes of all pages, as `run` meets them. */
  function SteamSpyPages(net: Net): int -> PageOutcome
  {
    (p: int) => MetadataPage(net, p)
  }

  /** The outcome of a page loop: the exception that ended it, if any, the
      metadata table afterwards, and the pages whose games were ingested. */
  datatype PagesLog = PagesLog(result: Py<()>, table: seq<GameMeta>, pages: seq<int>)

  /** Pages `i` to `maxPages - 1`: a page whose fetch returns None is skipped
      (`continue`); a page's games are ingested before the next page is
      requested; any exception ends the run. */
  function MetadataPagesFrom(outcome: int -> PageOutcome, i: int, maxPages: int, table: seq<GameMeta>): PagesLog
    decreases maxPages - i
  {
    if i >= maxPages then PagesLog(Value(()), table, [])
    else match outcome(i)
      case Raise(e) => PagesLog(Raise(e), table, [])
      case Value(None) => MetadataPagesFrom(outcome, i + 1, maxPages, table)
      case Value(Some(games)) =>
        var rest := MetadataPagesFrom(outcome, i + 1, maxPages, table + Dedup(games, KeySet(table)));
        PagesLog(rest.result, rest.table, [i] + rest.pages)
  }

  /** A page that yielded games. */
  predicate Ingestible(outcome: int -> PageOutcome, page: int)
  {
    outcome(page).Value? && outcome(page).value.Some?
  }

  /** The page loop keeps the table's appids unique and only adds to it. */
  lemma {:induction false} MetadataPagesKeepKeys(outcome: int -> PageOutcome, i: int, maxPages: int, table: seq<GameMeta>)
    requires DistinctKeys(table)
    ensures var log := MetadataPagesFrom(outcome, i, maxPages, table);
      DistinctKeys(log.table) && KeySet(table) <= KeySet(log.table)
    decreases maxPages - i
  {
    if i < maxPages && Ingestible(outcome, i) {
      var games := outcome(i).value.value;
      IngestKeepsKeysUnique(table, games);
      KeySetAppend(table, Dedup(games, KeySet(table)));
      MetadataPagesKeepKeys(outcome, i + 1, maxPages, table + Dedup(games, KeySet(table)));
    } else if i < maxPages && outcome(i) == Value(None) {
      MetadataPagesKeepKeys(outcome, i + 1, maxPages, table);
    }
  }

  /** The ingested pages are increasing and each one yielded games; when the
      run ends normally every page that yielded games was ingested, so the
      pages left out are exactly those whose fetch gave None. */
  lemma {:induction false} MetadataPagesSkipFailures(outcome: int -> PageOutcome, i: int, maxPages: int, table: seq<GameMeta>)
    ensures var log := MetadataPagesFrom(outcome, i, maxPages, table);
      && (forall k :: 0 <= k < |log.pages| ==> i <= log.pages[k] < maxPages && Ingestible(outcome, log.pages[k]))
      && (forall k :: 0 <= k < |log.pages| - 1 ==> log.pages[k] < log.pages[k + 1])
      && (log.result.Value? ==> forall p :: i <= p < maxPages && Ingestible(outcome, p) ==> p in log.pages)
    decreases maxPages - i
  {
    if i < maxPages && Ingestible(outcome, i) {
      var games := outcome(i).value.value;
      var table' := table + Dedup(games, KeySet(table));
      MetadataPagesSkipFailures(outcome, i + 1, maxPages, table');
      var rest := MetadataPagesFrom(outcome, i + 1, maxPages, table');
      var log := MetadataPagesFrom(outcome, i, maxPages, table);
      assert log == PagesLog(rest.result, rest.table, [i] + rest.pages);
      assert forall k :: 1 <= k < |log.pages| ==> log.pages[k] == rest.pages[k - 1];
    } else if i < maxPages && outcome(i) == Value(None) {
      MetadataPagesSkipFailures(outcome, i + 1, maxPages, table);
    }
  }

  lemma PagesStep(outcome: int -> PageOutcome, i: int, maxPages: int, table: seq<GameMeta>)
    requires i < maxPages
    ensures var here := MetadataPagesFrom(outcome, i, maxPages, table);
      match outcome(i)
      case Raise(e) => here == PagesLog(Raise(e), table, [])
      case Value(None) => here == MetadataPagesFrom(outcome, i + 1, maxPages, table)
      case Value(Some(games)) =>
        var rest := MetadataPagesFrom(outcome, i + 1, maxPages, table + Dedup(games, KeySet(table)));
        here == PagesLog(rest.result, rest.table, [i] + rest.pages)
  {
  }

  /** A page answered with status 200 and a `null` body is skipped, as a
      failed fetch is. */
  lemma NullPageSkipped(net: Net, i: int, maxPages: int, table: seq<GameMeta>)
    requires i < maxPages && net(i)(0) == Ok(JNull)
    ensures MetadataPage(net, i) == Value(None)
    ensures MetadataPagesFrom(SteamSpyPages(net), i, maxPages, table) == MetadataPagesFrom(SteamSpyPages(net), i + 1, maxPages, table)
  {
    assert BaseFetch(net(i), WithoutAppids) == Value(None);
    assert SteamSpyPages(net)(i) == Value(None);
  }

  /** When every page is `null` the run ingests nothing and ends normally,
      so the "meta" run is still logged. */
  lemma {:induction false} NullPagesIngestNothing(net: Net, i: int, maxPages: int, table: seq<GameMeta>)
    requires forall p :: i <= p < maxPages ==> net(p)(0) == Ok(JNull)
    ensures MetadataPagesFrom(SteamSpyPages(net), i, maxPages, table) == PagesLog(Value(()), table, [])
    decreases maxPages - i
  {
    if i < maxPages {
      NullPageSkipped(net, i, maxPages, table);
      NullPagesIngestNothing(net, i + 1, maxPages, table);
    }
  }

  /** The loop at page `i`, with `table` and the ingested `pages` so far,
      is on its way to the outcome `whole`. */
  predicate PagesTracks(outcome: int -> PageOutcome, i: int, maxPages: int, table: seq<GameMeta>,
                        whole: PagesLog, pages: seq<int>)
  {
    var log := MetadataPagesFrom(outcome, i, maxPages, table);
    whole == PagesLog(log.result, log.table, pages + log.pages)
  }

  /** A page with games is ingested and the loop moves on. */
  lemma PagesAdvance(outcome: int -> PageOutcome, i: int, maxPages: int, table: seq<GameMeta>,
                     games: seq<GameMeta>, whole: PagesLog, pages: seq<int>)
    requires i < maxPages && outcome(i) == Value(Some(games))
    requires PagesTracks(outcome, i, maxPages, table, whole, pages)
    ensures PagesTracks(outcome, i + 1, maxPages, table + Dedup(games, KeySet(table)), whole, pages + [i])
  {
    PagesStep(outcome, i, maxPages, table);
    var rest := MetadataPagesFrom(outcome, i + 1, maxPages, table + Dedup(games, KeySet(table)));
    assert (pages + [i]) + rest.pages == pages + ([i] + rest.pages);
  }

  /** A page whose fetch gives None is skipped. */
  lemma PagesSkip(outcome: int -> PageOutcome, i: int, maxPages: int, table: seq<GameMeta>,
                  whole: PagesLog, pages: seq<int>)
    requires i < maxPages && outcome(i) == Value(None)
    requires PagesTracks(outcome, i, maxPages, table, whole, pages)
    ensures PagesTracks(outcome, i + 1, maxPages, table, whole, pages)
  {
    PagesStep(outcome, i, maxPages, table);
  }

  /** A page that raises ends the run there. */
  lemma PagesStops(outcome: int -> PageOutcome, i: int, maxPages: int, table: seq<GameMeta>,
                   whole: PagesLog, pages: seq<int>)
    requires i < maxPages && outcome(i).Raise?
    requires PagesTracks(outcome, i, maxPages, table, whole, pages)
    ensures whole == PagesLog(Raise(outcome(i).exc), table, pages)
  {
    PagesStep(outcome, i, maxPages, table);
    assert pages + [] == pages;
  }

  /** After the last page the run has succeeded. */
  lemma PagesEnds(outcome: int -> PageOutcome, i: int, maxPages: int, table: seq<GameMeta>,
                  whole: PagesLog, pages: seq<int>)
    requires i >= maxPages
    requires PagesTracks(outcome, i, maxPages, table, whole, pages)
    ensures whole == PagesLog(Value(()), table, pages)
  {
    assert pages + [] == pages;
  }

  /** `SteamSpyMetadataFetcher(max_pages).run()`: the page loop, then the
      last-run record of the "meta" scraper. */
  method SteamSpyMetadataFetcherRun(db: Database, net: Net, maxPages: int := 100) returns (r: Py<()>)
    requires db.Valid()
    modifies db
    ensures var log := MetadataPagesFrom(SteamSpyPages(net), 0, maxPages, old(db.meta));
      r == log.result && db.meta == log.table
    ensures db.lastRuns == old(db.lastRuns) + (if r.Value? then ["meta"] else [])
    ensures db.Valid()
    ensures db.details == old(db.details) && db.steamspyBatches == old(db.steamspyBatches)
    ensures db.tempBatches == old(db.tempBatches)
  {
    var outcome := SteamSpyPages(net);
    ghost var whole := MetadataPagesFrom(outcome, 0, maxPages, db.meta);
    var i := 0;
    ghost var pages: seq<int> := [];
    ghost var table := db.meta;
    assert PagesTracks(outcome, 0, maxPages, table, whole, pages) by {
      assert pages + whole.pages == whole.pages;
    }
    while i < maxPages
      invariant db.Valid() && db.meta == table
      invariant 0 <= i
      invariant PagesTracks(outcome, i, maxPages, table, whole, pages)
      invariant db.lastRuns == old(db.lastRuns) && db.details == old(db.details)
      invariant db.steamspyBatches == old(db.steamspyBatches) && db.tempBatches == old(db.tempBatches)
      decreases maxPages - i
    {
      var jsonData: Py<Option<Json>>;
      ghost var trace: seq<Event>;
      jsonData, trace := BaseFetcherGetRequest(net(i), WithoutAppids);
      var page := PageOf(jsonData);
      assert outcome(i) == page by {
        assert jsonData == BaseFetch(net(i), WithoutAppids);
      }
      if page.Raise? {
        PagesStops(outcome, i, maxPages, table, whole, pages);
        return Raise(page.exc);
      }
      if page.value.None? {
        PagesSkip(outcome, i, maxPages, table, whole, pages);
      } else {
        PagesAdvance(outcome, i, maxPages, table, page.value.value, whole, pages);
        var newDocs := db.BulkIngestMetaData(page.value.value);
        table := table + newDocs;
        pages := pages + [i];
      }
      i := i + 1;
    }
    PagesEnds(outcome, i, maxPages, table, whole, pages);
    db.LogLastRunTime("meta");
    r := Value(());
  }

  // ---------------------------------------------------------------------------
  // SteamSpyFetcher

  /** `parse_steamspy_request(appid)`: fetch the details and build
      `GameDetails(**json_data)`; a None from the fetch is not filtered out
      but makes the unpacking raise TypeError. */
  function ParseSteamspyRequest(net: Net, appid: int): (r: Py<GameDetails>)
    ensures BaseFetch(net(appid), WithoutAppids) == Value(None) ==> r == Raise(TypeError)
    ensures r.Raise? ==> r.exc == KeyError || r.exc == TypeError || r.exc == ValidationError
    ensures r.Value? ==> exists body :: BaseFetch(net(appid), WithoutAppids) == Value(Some(body)) && GameDetailsCall(body) == r
  {
    RaisesOnly(BaseFetcherPolicy(4), net(appid), 0, 4, 4, WithoutAppids);
    match BaseFetch(net(appid), WithoutAppids)
    case Raise(e) => Raise(e)
    case Value(None) => Raise(TypeError)
    case Value(Some(body)) => GameDetailsCall(body)
  }

  /** `fetch_and_process_app_data(app_id_list)`: the pool's `map` in input
      order, where the first exception propagates; `filter(None, ...)` keeps
      every result, since a model instance is always truthy. */
  function FetchAndProcessAppData(net: Net, appIds: seq<int>): (r: Py<seq<GameDetails>>)
    ensures r.Value? ==> |r.value| == |appIds|
    ensures r.Value? ==> forall i :: 0 <= i < |appIds| ==> ParseSteamspyRequest(net, appIds[i]) == Value(r.value[i])
    ensures r.Raise? ==> exists i :: 0 <= i < |appIds| && ParseSteamspyRequest(net, appIds[i]) == Raise(r.exc)
  {
    MapPyElementwise(SteamspyParser(net), appIds);
    MapPy(SteamspyParser(net), appIds)
  }

  /** `self.parse_steamspy_request` as the function handed to the pool. */
  function SteamspyParser(net: Net): int -> Py<GameDetails>
  {
    (appid: int) => ParseSteamspyRequest(net, appid)
  }

  /** The outcome of a batch loop: the exception that ended it, if any, and
      the record lists handed to the database, one per completed batch. */
  datatype BatchLog<B> = BatchLog(result: Py<()>, ingested: seq<seq<B>>)

  /** `for batch in batches: ingest(map(parse, batch))`: an exception ends
      the loop before its batch is ingested. */
  function IngestBatches<A, B>(parse: A -> Py<B>, batches: seq<seq<A>>): BatchLog<B>
  {
    if batches == [] then BatchLog(Value(()), [])
    else match MapPy(parse, batches[0])
      case Raise(e) => BatchLog(Raise(e), [])
      case Value(ys) =>
        var rest := IngestBatches(parse, batches[1..]);
        BatchLog(rest.result, [ys] + rest.ingested)
  }

  /** Batching changes nothing about what is parsed: the run succeeds iff
      parsing every id in order succeeds, then the ingested batches
      concatenate to the parsed list; otherwise the run raises the first
      exception the parsing in order meets. Each ingested list is the parse
      of one batch. */
  lemma {:induction false} IngestBatchesAll<A, B>(parse: A -> Py<B>, batches: seq<seq<A>>)
    ensures var log := IngestBatches(parse, batches);
      var whole := MapPy(parse, Concat(batches));
      && (log.result.Value? <==> whole.Value?)
      && (whole.Value? ==> Concat(log.ingested) == whole.value && |log.ingested| == |batches|)
      && (whole.Raise? ==> log.result == Raise(whole.exc))
      && |log.ingested| <= |batches|
      && (forall i :: 0 <= i < |log.ingested| ==> MapPy(parse, batches[i]) == Value(log.ingested[i]))
  {
    if batches != [] {
      MapPyAppend(parse, batches[0], Concat(batches[1..]));
      IngestBatchesAll(parse, batches[1..]);
      var log := IngestBatches(parse, batches);
      var rest := IngestBatches(parse, batches[1..]);
      if MapPy(parse, batches[0]).Value? {
        assert log.ingested == [MapPy(parse, batches[0]).value] + rest.ingested;
        assert forall i :: 1 <= i < |log.ingested| ==> log.ingested[i] == rest.ingested[i - 1];
      }
    }
  }

  lemma IngestBatchesStep<A, B>(parse: A -> Py<B>, batches: seq<seq<A>>)
    requires batches != []
    ensures IngestBatches(parse, batches) ==
      match MapPy(parse, batches[0])
      case Raise(e) => BatchLog(Raise(e), [])
      case Value(ys) =>
        var rest := IngestBatches(parse, batches[1..]);
        BatchLog(rest.result, [ys] + rest.ingested)
  {
  }

  /** The loop's ghost state: `done` is what the batches before position
      `i` ingested, and the rest of the run `whole` is the run from `i`. */
  predicate IngestsFrom(parse: int -> Py<GameDetails>, ids: seq<int>, size: nat, i: nat, whole: BatchLog<GameDetails>, done: seq<seq<GameDetails>>)
    requires size > 0
  {
    var log := IngestBatches(parse, SlicesFrom(ids, size, i));
    whole == BatchLog(log.result, done + log.ingested)
  }

  /** A batch that parses is ingested and the loop moves on. */
  lemma IngestAdvance(parse: int -> Py<GameDetails>, ids: seq<int>, size: nat, i: nat, ys: seq<GameDetails>, whole: BatchLog<GameDetails>, done: seq<seq<GameDetails>>)
    requires size > 0 && i < |ids|
    requires MapPy(parse, PySlice(ids, i, i + size)) == Value(ys)
    requires IngestsFrom(parse, ids, size, i, whole, done)
    ensures IngestsFrom(parse, ids, size, i + size, whole, done + [ys])
  {
    var later := SlicesFrom(ids, size, i + size);
    IngestBatchesStep(parse, SlicesFrom(ids, size, i));
    assert SlicesFrom(ids, size, i)[0] == PySlice(ids, i, i + size);
    assert SlicesFrom(ids, size, i)[1..] == later;
    var next := IngestBatches(parse, later);
    assert done + ([ys] + next.ingested) == (done + [ys]) + next.ingested;
  }

  /** A batch that raises ends the run with its exception. */
  lemma IngestStops(parse: int -> Py<GameDetails>, ids: seq<int>, size: nat, i: nat, e: Exc, whole: BatchLog<GameDetails>, done: seq<seq<GameDetails>>)
    requires size > 0 && i < |ids|
    requires MapPy(parse, PySlice(ids, i, i + size)) == Raise(e)
    requires IngestsFrom(parse, ids, size, i, whole, done)
    ensures whole == BatchLog(Raise(e), done)
  {
    IngestBatchesStep(parse, SlicesFrom(ids, size, i));
    assert SlicesFrom(ids, size, i)[0] == PySlice(ids, i, i + size);
    assert done + [] == done;
  }

  /** Past the end of the list the run has succeeded. */
  lemma IngestEnds(parse: int -> Py<GameDetails>, ids: seq<int>, size: nat, i: nat, whole: BatchLog<GameDetails>, done: seq<seq<GameDetails>>)
    requires size > 0 && i >= |ids|
    requires IngestsFrom(parse, ids, size, i, whole, done)
    ensures whole == BatchLog(Value(()), done)
  {
    assert done + [] == done;
  }

  /** The batch loop of `SteamSpyFetcher.run` and of collect_steamspy_data's
      `main`: `for i in range(0, len(ids), batch_size)`, fetch and parse the
      slice `ids[i:i + batch_size]` through the pool, hand the result to
      `bulk_ingest_steamspy_data`. `batches` counts the batches started
      (`current_batch`). */
  method IngestSteamspyBatches(db: Database, parse: int -> Py<GameDetails>, appIdList: seq<int>, batchSize: nat)
    returns (r: Py<()>, batches: nat)
    requires batchSize > 0
    modifies db
    ensures var log := IngestBatches(parse, Slices(appIdList, batchSize));
      && r == log.result && db.steamspyBatches == old(db.steamspyBatches) + log.ingested
      && batches == |log.ingested| + (if r.Value? then 0 else 1)
    ensures r.Value? ==> batches == |Slices(appIdList, batchSize)|
    ensures db.meta == old(db.meta) && db.details == old(db.details)
    ensures db.tempBatches == old(db.tempBatches) && db.lastRuns == old(db.lastRuns)
  {
    ghost var whole := IngestBatches(parse, Slices(appIdList, batchSize));
    ghost var done: seq<seq<GameDetails>> := [];
    assert whole == BatchLog(whole.result, done + whole.ingested);
    batches := 0;
    var i := 0;
    while i < |appIdList|
      invariant 0 <= i && batches == |done|
      invariant IngestsFrom(parse, appIdList, batchSize, i, whole, done)
      invariant db.steamspyBatches == old(db.steamspyBatches) + done
      invariant db.meta == old(db.meta) && db.details == old(db.details)
      invariant db.tempBatches == old(db.tempBatches) && db.lastRuns == old(db.lastRuns)
      decreases |appIdList| - i
    {
      batches := batches + 1;
      var batch := PySlice(appIdList, i, i + batchSize);
      var appData := MapPy(parse, batch);
      if appData.Raise? {
        IngestStops(parse, appIdList, batchSize, i, appData.exc, whole, done);
        return Raise(appData.exc), batches;
      }
      IngestAdvance(parse, appIdList, batchSize, i, appData.value, whole, done);
      assert (old(db.steamspyBatches) + done) + [appData.value] == old(db.steamspyBatches) + (done + [appData.value]);
      db.BulkIngestSteamspyData(appData.value);
      done := done + [appData.value];
      i := i + batchSize;
    }
    IngestEnds(parse, appIdList, batchSize, i, whole, done);
    r := Value(());
    IngestBatchesAll(parse, Slices(appIdList, batchSize));
  }

  /** `SteamSpyFetcher(batch_size).run()` over the app ids the SQL query
      returned: `range(0, n, batch_size)` raises ValueError for a zero step
      and is empty for a negative one. */
  method SteamSpyFetcherRun(db: Database, net: Net, appIdList: seq<int>, batchSize: int := 1000) returns (r: Py<()>)
    modifies db
    ensures batchSize == 0 ==> r == Raise(ValueError) && db.steamspyBatches == old(db.steamspyBatches)
    ensures batchSize < 0 ==> r == Value(()) && db.steamspyBatches == old(db.steamspyBatches)
    ensures batchSize > 0 ==>
      var log := IngestBatches(SteamspyParser(net), Slices(appIdList, batchSize));
      r == log.result && db.steamspyBatches == old(db.steamspyBatches) + log.ingested
    ensures db.meta == old(db.meta) && db.details == old(db.details)
    ensures db.tempBatches == old(db.tempBatches) && db.lastRuns == old(db.lastRuns)
  {
    if batchSize == 0 {
      return Raise(ValueError);
    }
    if batchSize < 0 {
      return Value(());
    }
    var batches;
    r, batches := IngestSteamspyBatches(db, SteamspyParser(net), appIdList, batchSize);
  }
}
