/** steam_sales/src/collect_metadata.py: the stand-alone metadata collector.
    Its `get_request` is `Fetcher.MetadataGetRequest`; `main` walks the pages
    of the SteamSpy "all" listing and stops at the first page whose fetch
    returns None. */
module CollectMetadata {
  import opened PyValues
  import opened Fetcher
  import opened Validation
  import opened Crud
  import opened Scraping

  /** `max_pages` of `main`. */
  const MaxPages: int := 100

  /** Fetching page `page` with this file's `get_request`, then validating it. */
  function MetadataPage(net: Net, page: int): (r: PageOutcome)
    ensures r.Raise? ==> r.exc == AttributeError || r.exc == ValidationError
  {
    RaisesOnly(MetadataPolicy, net(page), 0, 4, 1, WithoutAppids);
    PageOf(Attempt(MetadataPolicy, net(page), 0, 4, 1, WithoutAppids).result)
  }

  /** Pages `i` to 99: a page whose fetch returns None ends the loop
      (`break`); a page's games are ingested before the next page is
      requested; a validation error ends the run. */
  function MainFrom(outcome: int -> PageOutcome, i: int, table: seq<GameMeta>): PagesLog
    decreases MaxPages - i
  {
    if i >= MaxPages then PagesLog(Value(()), table, [])
    else match outcome(i)
      case Raise(e) => PagesLog(Raise(e), table, [])
      case Value(None) => PagesLog(Value(()), table, [])
      case Value(Some(games)) =>
        var rest := MainFrom(outcome, i + 1, table + Dedup(games, KeySet(table)));
        PagesLog(rest.result, rest.table, [i] + rest.pages)
  }

  /** The outcomes of all pages, as `main` meets them. */
  function MetadataPages(net: Net): int -> PageOutcome
  {
    (p: int) => MetadataPage(net, p)
  }

  /** One iteration of `main`'s loop, in terms of the page just fetched. */
  lemma MainStep(net: Net, i: int, table: seq<GameMeta>, page: PageOutcome)
    requires i < MaxPages && page == MetadataPage(net, i)
    ensures var here := MainFrom(MetadataPages(net), i, table);
      match page
      case Raise(e) => here == PagesLog(Raise(e), table, [])
      case Value(None) => here == PagesLog(Value(()), table, [])
      case Value(Some(games)) =>
        var rest := MainFrom(MetadataPages(net), i + 1, table + Dedup(games, KeySet(table)));
        here == PagesLog(rest.result, rest.table, [i] + rest.pages)
  {
    assert MetadataPages(net)(i) == page;
  }

  /** A page answered with status 200 and a `null` body ends the loop
      cleanly, as a failed fetch does. */
  lemma NullPageEndsRun(net: Net, i: int, table: seq<GameMeta>)
    requires i < MaxPages && net(i)(0) == Ok(JNull)
    ensures MetadataPage(net, i) == Value(None)
    ensures MainFrom(MetadataPages(net), i, table) == PagesLog(Value(()), table, [])
  {
    assert Attempt(MetadataPolicy, net(i), 0, 4, 1, WithoutAppids).result == Value(None);
    MainStep(net, i, table, MetadataPage(net, i));
  }

  /** The ingested pages are the consecutive pages `i, i+1, ...` up to the
      first page that yields no games: each of them yielded games, and when
      the run ends normally before page 100, the next page's fetch gave None. */
  lemma {:induction false} MainIngestsPrefix(outcome: int -> PageOutcome, i: int, table: seq<GameMeta>)
    ensures var log := MainFrom(outcome, i, table);
      && (forall k :: 0 <= k < |log.pages| ==> log.pages[k] == i + k && Ingestible(outcome, i + k))
      && (|log.pages| > 0 ==> i + |log.pages| <= MaxPages)
      && (log.result.Value? && i + |log.pages| < MaxPages ==> outcome(i + |log.pages|) == Value(None))
    decreases MaxPages - i
  {
    if i < MaxPages && Ingestible(outcome, i) {
      var games := outcome(i).value.value;
      var table' := table + Dedup(games, KeySet(table));
      MainIngestsPrefix(outcome, i + 1, table');
      var rest := MainFrom(outcome, i + 1, table');
      var log := MainFrom(outcome, i, table);
      assert log == PagesLog(rest.result, rest.table, [i] + rest.pages);
      assert i + |log.pages| == (i + 1) + |rest.pages|;
      forall k | 0 <= k < |log.pages|
        ensures log.pages[k] == i + k && Ingestible(outcome, i + k)
      {
        if k > 0 {
          var j := k - 1;
          assert 0 <= j < |rest.pages|;
          assert rest.pages[j] == (i + 1) + j && Ingestible(outcome, (i + 1) + j);
          assert (i + 1) + j == i + k;
          assert log.pages[k] == rest.pages[j];
        } else {
          assert log.pages[0] == i;
        }
      }
    } else {
      var log := MainFrom(outcome, i, table);
      assert log.pages == [];
      if i < MaxPages && log.result.Value? {
        assert outcome(i).Value? && outcome(i).value.None?;
      }
    }
  }

  /** The loop's ghost state: `pages` were ingested before page `i`, leaving
      the table `table`, and the rest of the run `whole` is the run from `i`. */
  predicate MainTracks(net: Net, i: int, table: seq<GameMeta>, whole: PagesLog, pages: seq<int>)
  {
    var log := MainFrom(MetadataPages(net), i, table);
    whole == PagesLog(log.result, log.table, pages + log.pages)
  }

  /** A page with games is ingested and the loop moves on. */
  lemma MainAdvance(net: Net, i: int, table: seq<GameMeta>, games: seq<GameMeta>, whole: PagesLog, pages: seq<int>)
    requires i < MaxPages && MetadataPage(net, i) == Value(Some(games))
    requires MainTracks(net, i, table, whole, pages)
    ensures MainTracks(net, i + 1, table + Dedup(games, KeySet(table)), whole, pages + [i])
  {
    MainStep(net, i, table, Value(Some(games)));
    var rest := MainFrom(MetadataPages(net), i + 1, table + Dedup(games, KeySet(table)));
    assert (pages + [i]) + rest.pages == pages + ([i] + rest.pages);
  }

  /** A page that raises, or whose fetch gives None, ends the run there. */
  lemma MainStops(net: Net, i: int, table: seq<GameMeta>, whole: PagesLog, pages: seq<int>)
    requires i < MaxPages && (MetadataPage(net, i).Raise? || MetadataPage(net, i) == Value(None))
    requires MainTracks(net, i, table, whole, pages)
    ensures whole == PagesLog(if MetadataPage(net, i).Raise? then Raise(MetadataPage(net, i).exc) else Value(()), table, pages)
  {
    MainStep(net, i, table, MetadataPage(net, i));
    assert pages + [] == pages;
  }

  /** After page 99 the run has succeeded. */
  lemma MainEnds(net: Net, i: int, table: seq<GameMeta>, whole: PagesLog, pages: seq<int>)
    requires i >= MaxPages
    requires MainTracks(net, i, table, whole, pages)
    ensures whole == PagesLog(Value(()), table, pages)
  {
    assert pages + [] == pages;
  }

  /** `main()`: the page loop over pages 0 to 99. */
  method RunMain(db: Database, net: Net) returns (r: Py<()>)
    requires db.Valid()
    modifies db
    ensures var log := MainFrom(MetadataPages(net), 0, old(db.meta));
      r == log.result && db.meta == log.table
    ensures db.Valid()
    ensures db.details == old(db.details) && db.steamspyBatches == old(db.steamspyBatches)
    ensures db.tempBatches == old(db.tempBatches) && db.lastRuns == old(db.lastRuns)
  {
    ghost var whole := MainFrom(MetadataPages(net), 0, db.meta);
    ghost var pages: seq<int> := [];
    ghost var table := db.meta;
    assert whole == PagesLog(whole.result, whole.table, pages + whole.pages);
    var i := 0;
    while i < MaxPages
      invariant db.Valid() && db.meta == table
      invariant 0 <= i
      invariant MainTracks(net, i, table, whole, pages)
      invariant db.details == old(db.details) && db.steamspyBatches == old(db.steamspyBatches)
      invariant db.tempBatches == old(db.tempBatches) && db.lastRuns == old(db.lastRuns)
      decreases MaxPages - i
    {
      var jsonData: Py<Option<Json>>;
      ghost var trace: seq<Event>;
      jsonData, trace := MetadataGetRequest(net(i), WithoutAppids);
      var page := PageOf(jsonData);
      assert page == MetadataPage(net, i);
      if page.Raise? {
        MainStops(net, i, table, whole, pages);
        return Raise(page.exc);
      }
      if page.value.None? {
        MainStops(net, i, table, whole, pages);
        return Value(());
      }
      MainAdvance(net, i, table, page.value.value, whole, pages);
      var newDocs := db.BulkIngestMetaData(page.value.value);
      table := table + newDocs;
      pages := pages + [i];
      i := i + 1;
    }
    MainEnds(net, i, table, whole, pages);
    r := Value(());
  }
}
