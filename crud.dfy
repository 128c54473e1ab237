/** steam_sales/src/crud.py: the dedup gate in front of the metadata table and
    the two bulk-ingest functions. The database is an object holding the rows
    of each table in insertion order. */
module Crud {
  import opened PyValues
  import opened Validation

  /** The appids of a list of metadata records, in order. */
  function Appids(games: seq<GameMeta>): (ks: seq<int>)
    ensures |ks| == |games| && forall i :: 0 <= i < |games| ==> ks[i] == games[i].appid
  {
    seq(|games|, i requires 0 <= i < |games| => games[i].appid)
  }

  /** The set of appids of a list of metadata records. */
  function KeySet(games: seq<GameMeta>): set<int>
  {
    set k | k in Appids(games)
  }

  /** No two records share an appid. */
  predicate DistinctKeys(games: seq<GameMeta>)
  {
    forall i, j :: 0 <= i < j < |games| ==> games[i].appid != games[j].appid
  }

  /** No record before position `i` has the appid of `games[i]`. */
  predicate FirstOf(games: seq<GameMeta>, i: int)
    requires 0 <= i < |games|
  {
    forall j :: 0 <= j < i ==> games[j].appid != games[i].appid
  }

  /** `a` can be obtained from `b` by deleting elements. */
  predicate IsSubsequence<T(==)>(a: seq<T>, b: seq<T>)
    decreases |b|
  {
    if b == [] then a == []
    else (a != [] && a[0] == b[0] && IsSubsequence(a[1..], b[1..])) || IsSubsequence(a, b[1..])
  }

  /** What `remove_duplicates_meta` computes: scanning in order, a record is
      kept when its appid has not been seen, and its appid is then seen. */
  function Dedup(games: seq<GameMeta>, seen: set<int>): seq<GameMeta>
    decreases |games|
  {
    if games == [] then []
    else if games[0].appid in seen then Dedup(games[1..], seen)
    else [games[0]] + Dedup(games[1..], seen + {games[0].appid})
  }

  /** `remove_duplicates_meta(all_data, unique_games)`: one pass with a set of
      seen appids, seeded with the known ones. */
  method RemoveDuplicatesMeta(allData: seq<GameMeta>, uniqueGames: seq<int>) returns (r: seq<GameMeta>)
    ensures r == Dedup(allData, set k | k in uniqueGames)
  {
    var seen := set k | k in uniqueGames;
    ghost var known := seen;
    r := [];
    var i := 0;
    while i < |allData|
      invariant 0 <= i <= |allData|
      invariant r + Dedup(allData[i..], seen) == Dedup(allData, known)
    {
      var game := allData[i];
      assert allData[i..][0] == game && allData[i..][1..] == allData[i + 1..];
      if game.appid !in seen {
        seen := seen + {game.appid};
        r := r + [game];
      }
      i := i + 1;
    }
  }

  /** The output avoids the known appids, has pairwise distinct appids, and its
      appids are exactly the input's appids minus the known ones. */
  lemma {:induction false} DedupKeys(games: seq<GameMeta>, seen: set<int>)
    ensures forall i :: 0 <= i < |Dedup(games, seen)| ==> Dedup(games, seen)[i].appid !in seen
    ensures DistinctKeys(Dedup(games, seen))
    ensures KeySet(Dedup(games, seen)) == KeySet(games) - seen
    decreases |games|
  {
    if games != [] {
      var g := games[0];
      var rest := games[1..];
      assert KeySet(games) == {g.appid} + KeySet(rest) by {
        assert Appids(games) == [g.appid] + Appids(rest);
      }
      if g.appid in seen {
        DedupKeys(rest, seen);
      } else {
        var seen' := seen + {g.appid};
        DedupKeys(rest, seen');
        var tail := Dedup(rest, seen');
        var r := Dedup(games, seen);
        assert r == [g] + tail;
        assert forall i :: 1 <= i < |r| ==> r[i] == tail[i - 1];
        KeySetAppend([g], tail);
        assert KeySet([g]) == {g.appid} by {
          assert Appids([g]) == [g.appid];
        }
      }
    }
  }

  /** The output keeps the input order: it is a subsequence of the input. */
  lemma {:induction false} DedupSubsequence(games: seq<GameMeta>, seen: set<int>)
    ensures IsSubsequence(Dedup(games, seen), games)
    decreases |games|
  {
    if games != [] {
      var r := Dedup(games, seen);
      if games[0].appid in seen {
        DedupSubsequence(games[1..], seen);
      } else {
        DedupSubsequence(games[1..], seen + {games[0].appid});
        assert r[0] == games[0] && r[1..] == Dedup(games[1..], seen + {games[0].appid});
      }
    }
  }

  /** Exactly the first occurrence of each unknown appid survives: a record
      is in the output iff some position holds it that is the first with its
      appid and whose appid is not known. */
  lemma {:induction false} DedupFirstOccurrence(games: seq<GameMeta>, seen: set<int>, g: GameMeta)
    ensures g in Dedup(games, seen) <==>
      exists i :: 0 <= i < |games| && games[i] == g && g.appid !in seen && FirstOf(games, i)
    decreases |games|
  {
    if games != [] {
      var h := games[0];
      var rest := games[1..];
      var seen' := if h.appid in seen then seen else seen + {h.appid};
      DedupFirstOccurrence(rest, seen', g);
      var r := Dedup(games, seen);
      assert h.appid !in seen ==> r == [h] + Dedup(rest, seen');
      assert FirstOf(games, 0);
      if exists i :: 0 <= i < |games| && games[i] == g && g.appid !in seen && FirstOf(games, i) {
        var i :| 0 <= i < |games| && games[i] == g && g.appid !in seen && FirstOf(games, i);
        if i > 0 {
          assert games[0].appid != g.appid;
          assert rest[i - 1] == g && FirstOf(rest, i - 1);
        }
      }
      if g in Dedup(rest, seen') {
        var i :| 0 <= i < |rest| && rest[i] == g && g.appid !in seen' && FirstOf(rest, i);
        assert games[i + 1] == g && FirstOf(games, i + 1);
      }
    }
  }

  lemma {:induction false} DedupKeepsFresh(games: seq<GameMeta>, seen: set<int>)
    requires DistinctKeys(games)
    requires forall i :: 0 <= i < |games| ==> games[i].appid !in seen
    ensures Dedup(games, seen) == games
    decreases |games|
  {
    if games != [] {
      DedupKeepsFresh(games[1..], seen + {games[0].appid});
    }
  }

  lemma {:induction false} DedupDropsKnown(games: seq<GameMeta>, seen: set<int>)
    requires KeySet(games) <= seen
    ensures Dedup(games, seen) == []
    decreases |games|
  {
    if games != [] {
      assert games[0].appid in Appids(games);
      assert KeySet(games[1..]) <= KeySet(games) by {
        forall k | k in Appids(games[1..]) ensures k in Appids(games) {
          var i :| 0 <= i < |games[1..]| && Appids(games[1..])[i] == k;
          assert Appids(games)[i + 1] == k;
        }
      }
      DedupDropsKnown(games[1..], seen);
    }
  }

  /** Deduplicating twice changes nothing, and deduplicating the output
      against the known appids plus its own appids leaves nothing. */
  lemma DedupIdempotent(games: seq<GameMeta>, seen: set<int>)
    ensures Dedup(Dedup(games, seen), seen) == Dedup(games, seen)
    ensures Dedup(Dedup(games, seen), seen + KeySet(Dedup(games, seen))) == []
  {
    var r := Dedup(games, seen);
    DedupKeys(games, seen);
    DedupKeepsFresh(r, seen);
    DedupDropsKnown(r, seen + KeySet(r));
  }

  lemma KeySetAppend(a: seq<GameMeta>, b: seq<GameMeta>)
    ensures KeySet(a + b) == KeySet(a) + KeySet(b)
  {
    assert Appids(a + b) == Appids(a) + Appids(b);
  }

  /** Ingesting deduplicated metadata keeps the table's appids unique, and
      afterwards every appid offered is in the table. */
  lemma IngestKeepsKeysUnique(table: seq<GameMeta>, requests: seq<GameMeta>)
    requires DistinctKeys(table)
    ensures DistinctKeys(table + Dedup(requests, KeySet(table)))
    ensures KeySet(table + Dedup(requests, KeySet(table))) == KeySet(table) + KeySet(requests)
  {
    var added := Dedup(requests, KeySet(table));
    DedupKeys(requests, KeySet(table));
    var all := table + added;
    forall i, j | 0 <= i < j < |all| ensures all[i].appid != all[j].appid {
      if j >= |table| && i < |table| {
        assert all[j] == added[j - |table|];
        assert all[i].appid in Appids(table);
      } else if i >= |table| {
        assert all[i] == added[i - |table|] && all[j] == added[j - |table|];
      }
    }
    KeySetAppend(table, added);
  }

  // ---------------------------------------------------------------------------
  // The database

  /** The tables the scrapers write, each as its rows in insertion order. The
      ORM row built from `model_dump()` is the validated record itself (see
      `Validation.GameDetailsDumpRoundTrip`). Tables whose ingest functions
      are not in crud.py are logs of the batches handed to them. */
  class Database {
    /** `steamspy_games_metadata`, whose primary key is appid. */
    var meta: seq<GameMeta>
    /** `steamspy_games_raw` as written by `bulk_ingest_data`. */
    var details: seq<GameDetails>
    /** Batches handed to `bulk_ingest_steamspy_data`. */
    var steamspyBatches: seq<seq<GameDetails>>
    /** Batches handed to `bulk_ingest_temp_data`. */
    var tempBatches: seq<seq<TempDetails>>
    /** Scrapers handed to `log_last_run_time`. */
    var lastRuns: seq<string>

    /** The metadata table's primary key holds. */
    predicate Valid()
      reads this
    {
      DistinctKeys(meta)
    }

    constructor ()
      ensures Valid()
      ensures meta == [] && details == [] && steamspyBatches == [] && tempBatches == [] && lastRuns == []
    {
      meta := [];
      details := [];
      steamspyBatches := [];
      tempBatches := [];
      lastRuns := [];
    }

    /** `bulk_ingest_meta_data`: dedup the request against the appids in the
        table, save one row per surviving record, return those rows. */
    method BulkIngestMetaData(requests: seq<GameMeta>) returns (newDocs: seq<GameMeta>)
      requires Valid()
      modifies this
      ensures newDocs == Dedup(requests, KeySet(old(meta)))
      ensures meta == old(meta) + newDocs
      ensures Valid()
      ensures details == old(details) && steamspyBatches == old(steamspyBatches)
      ensures tempBatches == old(tempBatches) && lastRuns == old(lastRuns)
    {
      var gamesInDb := Appids(meta);
      newDocs := RemoveDuplicatesMeta(requests, gamesInDb);
      IngestKeepsKeysUnique(meta, requests);
      meta := meta + newDocs;
    }

    /** `bulk_ingest_data`: one row per record, in order, with no dedup. */
    method BulkIngestData(requests: seq<GameDetails>) returns (newDocs: seq<GameDetails>)
      modifies this
      ensures newDocs == requests
      ensures details == old(details) + requests
      ensures meta == old(meta) && steamspyBatches == old(steamspyBatches)
      ensures tempBatches == old(tempBatches) && lastRuns == old(lastRuns)
    {
      newDocs := [];
      var i := 0;
      while i < |requests|
        invariant 0 <= i <= |requests|
        invariant newDocs == requests[..i]
      {
        newDocs := newDocs + [requests[i]];
        i := i + 1;
      }
      assert requests[..i] == requests;
      details := details + newDocs;
    }

    /** `bulk_ingest_steamspy_data`, which crud.py does not define. */
    method BulkIngestSteamspyData(batch: seq<GameDetails>)
      modifies this
      ensures steamspyBatches == old(steamspyBatches) + [batch]
      ensures meta == old(meta) && details == old(details)
      ensures tempBatches == old(tempBatches) && lastRuns == old(lastRuns)
    {
      steamspyBatches := steamspyBatches + [batch];
    }

    /** `bulk_ingest_temp_data`, which crud.py does not define. */
    method BulkIngestTempData(batch: seq<TempDetails>)
      modifies this
      ensures tempBatches == old(tempBatches) + [batch]
      ensures meta == old(meta) && details == old(details)
      ensures steamspyBatches == old(steamspyBatches) && lastRuns == old(lastRuns)
    {
      tempBatches := tempBatches + [batch];
    }

    /** `log_last_run_time`, which crud.py does not define. */
    method LogLastRunTime(scraper: string)
      modifies this
      ensures lastRuns == old(lastRuns) + [scraper]
      ensures meta == old(meta) && details == old(details)
      ensures steamspyBatches == old(steamspyBatches) && tempBatches == old(tempBatches)
    {
      lastRuns := lastRuns + [scraper];
    }
  }
}
