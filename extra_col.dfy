/** steam_sales/src/extra_col.py: the Steam store's app details reduced to
    four columns (`TempDetails`), fetched in small batches and buffered until
    `batch_size * bulk_factor` records have accumulated. */
module ExtraCol {
  import opened PyValues
  import opened PyText
  import opened Fetcher
  import opened Batching
  import opened Validation
  import opened Crud
  import opened Scraping

  // ---------------------------------------------------------------------------
  // parse_game_data

  /** The dictionary literal of `parse_game_data`: its four lookups in
      evaluation order, the last one being `data["release_date"]["date"]`. */
  function GameDataRecord(data: Json): Py<TempDetails>
  {
    match Index(data, "steam_appid")
    case Raise(e) => Raise(e)
    case Value(appid) =>
      match Index(data, "pc_requirements")
      case Raise(e) => Raise(e)
      case Value(requirements) =>
        match Index(data, "platforms")
        case Raise(e) => Raise(e)
        case Value(platform) =>
          match Index(data, "release_date")
          case Raise(e) => Raise(e)
          case Value(release) =>
            match Index(release, "date")
            case Raise(e) => Raise(e)
            case Value(date) => Value(TempDetails(appid, requirements, platform, date))
  }

  /** The store entry holds everything `parse_game_data` reads. */
  predicate HasGameData(data: Json)
  {
    && data.JDict?
    && "steam_appid" in Keys(data.fields)
    && "pc_requirements" in Keys(data.fields)
    && "platforms" in Keys(data.fields)
    && "release_date" in Keys(data.fields)
    && var release := Lookup(data.fields, "release_date").value;
      release.JDict? && "date" in Keys(release.fields)
  }

  /** The record such an entry yields. */
  function GameDataOf(data: Json): TempDetails
    requires HasGameData(data)
  {
    var release := Lookup(data.fields, "release_date").value;
    TempDetails(
      Lookup(data.fields, "steam_appid").value,
      Lookup(data.fields, "pc_requirements").value,
      Lookup(data.fields, "platforms").value,
      Lookup(release.fields, "date").value)
  }

  /** `parse_game_data(data)`: a KeyError from the four lookups is caught and
      gives None, but the handler's own `data['steam_appid']` raises KeyError
      again when that key is the missing one; a TypeError (an entry or a
      release date that is not a dictionary) is not caught. */
  function ParseGameData(data: Json): (r: Py<Option<TempDetails>>)
    ensures r.Value? && r.value.Some? <==> HasGameData(data)
    ensures HasGameData(data) ==> r == Value(Some(GameDataOf(data)))
    ensures r == Raise(KeyError) <==> data.JDict? && "steam_appid" !in Keys(data.fields)
    ensures r == Raise(TypeError) <==>
      !data.JDict? ||
      (&& "steam_appid" in Keys(data.fields) && "pc_requirements" in Keys(data.fields)
       && "platforms" in Keys(data.fields) && "release_date" in Keys(data.fields)
       && !Lookup(data.fields, "release_date").value.JDict?)
    ensures r.Raise? ==> r.exc == KeyError || r.exc == TypeError
  {
    match GameDataRecord(data)
    case Value(t) => Value(Some(t))
    case Raise(e) =>
      if e == KeyError then
        (match Index(data, "steam_appid") case Value(_) => Value(None) case Raise(e') => Raise(e'))
      else Raise(e)
  }

  // ---------------------------------------------------------------------------
  // parse_steam_request

  /** Python's `appid == data.appid` for an int and a JSON value: a bool
      compares as 0 or 1. */
  predicate SameInt(appid: int, j: Json)
  {
    j == JInt(appid) || (j.JBool? && appid == (if j.b then 1 else 0))
  }

  /** The entry `resp` for `appid` carries a usable record `t`: it has a
      truthy `success`, its `data` parses, and the parsed appid is the
      requested one. */
  predicate FoundIn(appid: int, resp: Json, t: TempDetails)
  {
    && resp.JDict?
    && var ok := Lookup(resp.fields, "success");
    && ok.Some? && Truthy(ok.value)
    && var data := Lookup(resp.fields, "data");
    && data.Some? && HasGameData(data.value)
    && t == GameDataOf(data.value) && SameInt(appid, t.appid)
  }

  /** The response for `appid` carries a usable record `t`: the response is
      truthy and its entry `str(appid)` carries it. */
  predicate Found(appid: int, fetched: Option<Json>, t: TempDetails)
  {
    && fetched.Some? && Truthy(fetched.value) && fetched.value.JDict?
    && var resp := Lookup(fetched.value.fields, IntToString(appid));
    && resp.Some? && FoundIn(appid, resp.value, t)
  }

  /** The part of `parse_steam_request` after `response[str(appid)]`. */
  function ParseSteamEntry(appid: int, resp: Json): (r: Py<Option<TempDetails>>)
    ensures forall t :: r == Value(Some(t)) <==> FoundIn(appid, resp, t)
    ensures r.Raise? ==> r.exc == KeyError || r.exc == TypeError
  {
    match Index(resp, "success")
    case Raise(e) => Raise(e)
    case Value(ok) =>
      if !Truthy(ok) then Value(None)
      else match Index(resp, "data")
        case Raise(e) => Raise(e)
        case Value(data) => ParseSteamData(appid, data)
  }

  /** The part of `parse_steam_request` from `parse_game_data(data)` on. */
  function ParseSteamData(appid: int, data: Json): (r: Py<Option<TempDetails>>)
    ensures forall t :: r == Value(Some(t)) <==> HasGameData(data) && t == GameDataOf(data) && SameInt(appid, t.appid)
    ensures r.Raise? ==> r.exc == KeyError || r.exc == TypeError
  {
    match ParseGameData(data)
    case Raise(e) => Raise(e)
    case Value(None) => Value(None)
    case Value(Some(t)) => if SameInt(appid, t.appid) then Value(Some(t)) else Value(None)
  }

  /** `parse_steam_request(appid)` once the fetch has answered `fetched`. */
  function ParseSteamRequest(appid: int, fetched: Option<Json>): (r: Py<Option<TempDetails>>)
    ensures fetched.None? || !Truthy(fetched.value) ==> r == Value(None)
    ensures forall t :: r == Value(Some(t)) <==> Found(appid, fetched, t)
    ensures r.Raise? ==> r.exc == KeyError || r.exc == TypeError
  {
    match fetched
    case None => Value(None)
    case Some(j) =>
      if !Truthy(j) then Value(None)
      else match Index(j, IntToString(appid))
        case Raise(e) => Raise(e)
        case Value(resp) => ParseSteamEntry(appid, resp)
  }

  /** The fetch (collect_metadata.py's `get_request` with `{"appids": appid}`,
      which never raises) followed by the parsing. */
  function StoreRequest(store: Net, appid: int): (r: Py<Option<TempDetails>>)
    ensures r.Raise? ==> r.exc == KeyError || r.exc == TypeError
    ensures r.Value? && r.value.Some? ==> SameInt(appid, r.value.value.appid)
  {
    RaisesOnly(MetadataPolicy, store(appid), 0, 4, 1, WithAppids);
    match Attempt(MetadataPolicy, store(appid), 0, 4, 1, WithAppids).result
    case Raise(e) => Raise(e)
    case Value(fetched) => ParseSteamRequest(appid, fetched)
  }

  /** `parse_steam_request` as the function handed to the pool. */
  function StoreParser(store: Net): int -> Py<Option<TempDetails>>
  {
    (appid: int) => StoreRequest(store, appid)
  }

  // ---------------------------------------------------------------------------
  // fetch_and_process_app_data

  /** `fetch_and_process_app_data(batch_list)`: None for an empty batch,
      otherwise the pool's results in input order with the Nones dropped. */
  function FetchAndProcessAppData(store: Net, batch: seq<int>): (r: Py<Option<seq<TempDetails>>>)
    ensures r == Value(None) <==> batch == []
    ensures r.Raise? ==> exists i :: 0 <= i < |batch| && StoreRequest(store, batch[i]) == Raise(r.exc)
    ensures r.Value? <==> forall i :: 0 <= i < |batch| ==> StoreRequest(store, batch[i]).Value?
  {
    if batch == [] then Value(None)
    else
      MapPyElementwise(StoreParser(store), batch);
      match MapPy(StoreParser(store), batch)
      case Raise(e) => Raise(e)
      case Value(results) => Value(Some(Somes(results)))
  }

  /** What `parse_steam_request` gave for each id of a batch that raised nowhere. */
  function Results(store: Net, batch: seq<int>): (r: seq<Option<TempDetails>>)
    requires forall i :: 0 <= i < |batch| ==> StoreRequest(store, batch[i]).Value?
    ensures |r| == |batch| && forall i :: 0 <= i < |batch| ==> StoreRequest(store, batch[i]) == Value(r[i])
  {
    seq(|batch|, i requires 0 <= i < |batch| => StoreRequest(store, batch[i]).value)
  }

  /** The list of a batch is the ids' records in batch order, one per id
      that yielded one: splitting a batch in two splits its list, and a
      single id gives its record or nothing. */
  lemma FetchAndProcessSplit(store: Net, a: seq<int>, b: seq<int>)
    requires a != [] && b != [] && FetchAndProcessAppData(store, a + b).Value?
    ensures FetchAndProcessAppData(store, a).Value? && FetchAndProcessAppData(store, b).Value?
    ensures FetchAndProcessAppData(store, a + b).value.value
      == FetchAndProcessAppData(store, a).value.value + FetchAndProcessAppData(store, b).value.value
  {
    MapPyAppend(StoreParser(store), a, b);
    MapPyElementwise(StoreParser(store), a + b);
    SomesAppend(MapPy(StoreParser(store), a).value, MapPy(StoreParser(store), b).value);
  }

  lemma FetchAndProcessOne(store: Net, id: int)
    requires StoreRequest(store, id).Value?
    ensures var t := StoreRequest(store, id).value;
      FetchAndProcessAppData(store, [id]) == Value(Some(if t.Some? then [t.value] else []))
  {
    MapPyElementwise(StoreParser(store), [id]);
    assert StoreParser(store)([id][0]) == StoreRequest(store, id);
    var r := MapPy(StoreParser(store), [id]).value;
    assert r == [StoreRequest(store, id).value];
    SomesAppend<TempDetails>([], []);
  }

  /** The list is `filter(None, results)` of the ids' results. */
  lemma FetchAndProcessResults(store: Net, batch: seq<int>)
    requires FetchAndProcessAppData(store, batch).Value? && batch != []
    ensures forall i :: 0 <= i < |batch| ==> StoreRequest(store, batch[i]).Value?
    ensures FetchAndProcessAppData(store, batch).value.value == Somes(Results(store, batch))
  {
    MapPyElementwise(StoreParser(store), batch);
    assert forall i :: 0 <= i < |batch| ==> StoreParser(store)(batch[i]) == StoreRequest(store, batch[i]);
    assert MapPy(StoreParser(store), batch).value == Results(store, batch);
  }

  /** A record is in the batch's list iff some id of the batch yielded it;
      when every id yields a record, the list is those records in order. */
  lemma FetchAndProcessMembers(store: Net, batch: seq<int>)
    requires FetchAndProcessAppData(store, batch).Value? && batch != []
    ensures var games := FetchAndProcessAppData(store, batch).value.value;
      && (forall t :: t in games <==> exists i :: 0 <= i < |batch| && StoreRequest(store, batch[i]) == Value(Some(t)))
      && ((forall i :: 0 <= i < |batch| ==> StoreRequest(store, batch[i]).value.Some?) ==>
            |games| == |batch| && forall i :: 0 <= i < |batch| ==> StoreRequest(store, batch[i]) == Value(Some(games[i])))
  {
    FetchAndProcessResults(store, batch);
    var results := Results(store, batch);
    SomesOfResults(store, batch, results);
    if forall i :: 0 <= i < |batch| ==> StoreRequest(store, batch[i]).value.Some? {
      AllResultsPresent(store, batch, results);
    }
  }

  /** A record is in `filter(None, results)` iff some id's result is that record. */
  lemma SomesOfResults(store: Net, batch: seq<int>, results: seq<Option<TempDetails>>)
    requires |results| == |batch| && forall i :: 0 <= i < |batch| ==> StoreRequest(store, batch[i]) == Value(results[i])
    ensures forall t :: t in Somes(results) <==> exists i :: 0 <= i < |batch| && StoreRequest(store, batch[i]) == Value(Some(t))
  {
    forall t
      ensures t in Somes(results) <==> exists i :: 0 <= i < |batch| && StoreRequest(store, batch[i]) == Value(Some(t))
    {
      SomesMember(results, t);
      if Some(t) in results {
        var i :| 0 <= i < |results| && results[i] == Some(t);
        assert StoreRequest(store, batch[i]) == Value(Some(t));
      }
    }
  }

  /** When every id yields a record, `filter(None, results)` is those records in order. */
  lemma AllResultsPresent(store: Net, batch: seq<int>, results: seq<Option<TempDetails>>)
    requires |results| == |batch| && forall i :: 0 <= i < |batch| ==> StoreRequest(store, batch[i]) == Value(results[i])
    requires forall i :: 0 <= i < |batch| ==> StoreRequest(store, batch[i]).value.Some?
    ensures |Somes(results)| == |batch| && forall i :: 0 <= i < |batch| ==> StoreRequest(store, batch[i]) == Value(Some(Somes(results)[i]))
  {
    assert forall i :: 0 <= i < |results| ==> results[i].Some?;
    SomesAllPresent(results);
  }

  // ---------------------------------------------------------------------------
  // main: the accumulate-and-flush loop

  /** What one batch adds to the buffer (`if app_data: games.games.extend(app_data)`). */
  function Contents<B>(data: Option<seq<B>>): seq<B>
  {
    if data.Some? then data.value else []
  }

  /** `games.games` after `if app_data: games.games.extend(app_data)`. */
  function Extend<B>(buffer: seq<B>, data: Option<seq<B>>): (r: seq<B>)
    ensures r == buffer + Contents(data)
  {
    if data.Some? && data.value != [] then buffer + data.value else buffer
  }

  /** The run's outcome, the lists handed to `bulk_ingest_temp_data` in
      order, and the records still buffered when the loop ends. */
  datatype SinkLog<B> = SinkLog(result: Py<()>, flushes: seq<seq<B>>, buffer: seq<B>)

  /** The loop over `batches` from a buffer holding `buffer`: after each
      batch, a buffer of at least `threshold` records is ingested and
      emptied. */
  function SinkFrom<A, B>(process: seq<A> -> Py<Option<seq<B>>>, batches: seq<seq<A>>, threshold: int, buffer: seq<B>): SinkLog<B>
  {
    if batches == [] then SinkLog(Value(()), [], buffer)
    else match process(batches[0])
      case Raise(e) => SinkLog(Raise(e), [], buffer)
      case Value(data) =>
        var buf := Extend(buffer, data);
        if |buf| >= threshold then
          var rest := SinkFrom(process, batches[1..], threshold, []);
          SinkLog(rest.result, [buf] + rest.flushes, rest.buffer)
        else SinkFrom(process, batches[1..], threshold, buf)
  }

  /** The records the batches deliver before the first exception. */
  function Received<A, B>(process: seq<A> -> Py<Option<seq<B>>>, batches: seq<seq<A>>): seq<B>
  {
    if batches == [] then []
    else match process(batches[0])
      case Raise(_) => []
      case Value(data) => Contents(data) + Received(process, batches[1..])
  }

  lemma Associative<T>(a: seq<T>, b: seq<T>, c: seq<T>)
    ensures (a + b) + c == a + (b + c)
  {
  }

  /** Nothing is duplicated or reordered: the ingested lists followed by the
      final buffer are the initial buffer followed by every record received,
      so the final buffer, which is never ingested, is exactly the records
      lost at the end of the run. */
  lemma {:induction false} SinkConserves<A, B>(process: seq<A> -> Py<Option<seq<B>>>, batches: seq<seq<A>>, threshold: int, buffer: seq<B>)
    ensures var log := SinkFrom(process, batches, threshold, buffer);
      Concat(log.flushes) + log.buffer == buffer + Received(process, batches)
  {
    if batches == [] {
      assert buffer + [] == buffer;
    } else {
      var log := SinkFrom(process, batches, threshold, buffer);
      match process(batches[0])
      case Raise(e) =>
        assert buffer + [] == buffer;
      case Value(data) =>
        var buf := Extend(buffer, data);
        var received := Received(process, batches[1..]);
        assert Received(process, batches) == Contents(data) + received;
        Associative(buffer, Contents(data), received);
        if |buf| >= threshold {
          SinkConserves(process, batches[1..], threshold, []);
          var rest := SinkFrom(process, batches[1..], threshold, []);
          assert log.flushes == [buf] + rest.flushes;
          assert [buf] + rest.flushes == [buf] + rest.flushes && ([buf] + rest.flushes)[1..] == rest.flushes;
          assert Concat(log.flushes) == buf + Concat(rest.flushes);
          assert [] + received == received;
          Associative(buf, Concat(rest.flushes), rest.buffer);
        } else {
          SinkConserves(process, batches[1..], threshold, buf);
        }
    }
  }

  /** Every ingested list holds at least `threshold` records, and a buffer
      that starts empty or below the threshold ends so. */
  lemma {:induction false} SinkFlushSizes<A, B>(process: seq<A> -> Py<Option<seq<B>>>, batches: seq<seq<A>>, threshold: int, buffer: seq<B>)
    ensures var log := SinkFrom(process, batches, threshold, buffer);
      && (forall k :: 0 <= k < |log.flushes| ==> |log.flushes[k]| >= threshold)
      && (buffer == [] || |buffer| < threshold ==> log.buffer == [] || |log.buffer| < threshold)
  {
    if batches != [] {
      SinkStep(process, batches, threshold, buffer);
      var data := process(batches[0]);
      if data.Value? {
        var buf := Extend(buffer, data.value);
        if |buf| >= threshold {
          SinkFlushSizes(process, batches[1..], threshold, []);
          var rest := SinkFrom(process, batches[1..], threshold, []);
          var flushes := [buf] + rest.flushes;
          assert forall k :: 1 <= k < |flushes| ==> flushes[k] == rest.flushes[k - 1];
        } else {
          SinkFlushSizes(process, batches[1..], threshold, buf);
        }
      }
    }
  }

  /** The run ends normally iff no batch raises. */
  lemma {:induction false} SinkResult<A, B>(process: seq<A> -> Py<Option<seq<B>>>, batches: seq<seq<A>>, threshold: int, buffer: seq<B>)
    ensures SinkFrom(process, batches, threshold, buffer).result.Value?
      <==> forall k :: 0 <= k < |batches| ==> process(batches[k]).Value?
  {
    if batches != [] && process(batches[0]).Value? {
      var buf := Extend(buffer, process(batches[0]).value);
      SinkResult(process, batches[1..], threshold, if |buf| >= threshold then [] else buf);
      assert forall k :: 1 <= k < |batches| ==> batches[k] == batches[1..][k - 1];
    }
  }

  /** A run that ends below the threshold ingests nothing of its last
      records: one batch of one record, with the default threshold of
      5 * 10, leaves that record in the buffer and ingests nothing. */
  lemma SinkLosesShortRun<A, B>(process: seq<A> -> Py<Option<seq<B>>>, batch: seq<A>, t: B)
    requires process(batch) == Value(Some([t]))
    ensures SinkFrom(process, [batch], 5 * 10, []) == SinkLog(Value(()), [], [t])
  {
    assert [batch][1..] == [];
    assert [] + [t] == [t];
  }

  /** One iteration of the loop, in terms of the batch just processed. */
  lemma SinkStep<A, B>(process: seq<A> -> Py<Option<seq<B>>>, batches: seq<seq<A>>, threshold: int, buffer: seq<B>)
    requires batches != []
    ensures var here := SinkFrom(process, batches, threshold, buffer);
      var data := process(batches[0]);
      && (data.Raise? ==> here == SinkLog(Raise(data.exc), [], buffer))
      && (data.Value? && |Extend(buffer, data.value)| >= threshold ==>
            var rest := SinkFrom(process, batches[1..], threshold, []);
            here == SinkLog(rest.result, [Extend(buffer, data.value)] + rest.flushes, rest.buffer))
      && (data.Value? && |Extend(buffer, data.value)| < threshold ==>
            here == SinkFrom(process, batches[1..], threshold, Extend(buffer, data.value)))
  {
  }

  /** `fetch_and_process_app_data` as the loop calls it. */
  function StoreProcessor(store: Net): seq<int> -> Py<Option<seq<TempDetails>>>
  {
    (batch: seq<int>) => FetchAndProcessAppData(store, batch)
  }

  /** The ids in processing order: reversed in place when `reverse` is set. */
  function Ordered(ids: seq<int>, reverse: bool): (r: seq<int>)
    ensures |r| == |ids|
    ensures forall i :: 0 <= i < |ids| ==> r[i] == (if reverse then ids[|ids| - 1 - i] else ids[i])
  {
    if reverse then seq(|ids|, i requires 0 <= i < |ids| => ids[|ids| - 1 - i]) else ids
  }

  /** The loop's ghost state: `done` is what the batches before position `i`
      ingested, `buffer` what they left buffered, and the rest of the run
      `whole` is the run from `i`. */
  predicate SinkTracks(process: seq<int> -> Py<Option<seq<TempDetails>>>, ids: seq<int>, size: nat, i: nat, threshold: int,
                       buffer: seq<TempDetails>, whole: SinkLog<TempDetails>, done: seq<seq<TempDetails>>)
    requires size > 0
  {
    var log := SinkFrom(process, SlicesFrom(ids, size, i), threshold, buffer);
    whole == SinkLog(log.result, done + log.flushes, log.buffer)
  }

  /** A batch that fills the buffer to the threshold flushes it. */
  lemma SinkFlushes(process: seq<int> -> Py<Option<seq<TempDetails>>>, ids: seq<int>, size: nat, i: nat, threshold: int,
                    buffer: seq<TempDetails>, data: Option<seq<TempDetails>>, whole: SinkLog<TempDetails>, done: seq<seq<TempDetails>>)
    requires size > 0 && i < |ids|
    requires process(PySlice(ids, i, i + size)) == Value(data) && |Extend(buffer, data)| >= threshold
    requires SinkTracks(process, ids, size, i, threshold, buffer, whole, done)
    ensures SinkTracks(process, ids, size, i + size, threshold, [], whole, done + [Extend(buffer, data)])
  {
    var later := SlicesFrom(ids, size, i + size);
    SinkStep(process, SlicesFrom(ids, size, i), threshold, buffer);
    assert SlicesFrom(ids, size, i)[0] == PySlice(ids, i, i + size);
    assert SlicesFrom(ids, size, i)[1..] == later;
    var next := SinkFrom(process, later, threshold, []);
    Associative(done, [Extend(buffer, data)], next.flushes);
  }

  /** A batch that leaves the buffer below the threshold keeps it. */
  lemma SinkKeeps(process: seq<int> -> Py<Option<seq<TempDetails>>>, ids: seq<int>, size: nat, i: nat, threshold: int,
                  buffer: seq<TempDetails>, data: Option<seq<TempDetails>>, whole: SinkLog<TempDetails>, done: seq<seq<TempDetails>>)
    requires size > 0 && i < |ids|
    requires process(PySlice(ids, i, i + size)) == Value(data) && |Extend(buffer, data)| < threshold
    requires SinkTracks(process, ids, size, i, threshold, buffer, whole, done)
    ensures SinkTracks(process, ids, size, i + size, threshold, Extend(buffer, data), whole, done)
  {
    SinkStep(process, SlicesFrom(ids, size, i), threshold, buffer);
    assert SlicesFrom(ids, size, i)[0] == PySlice(ids, i, i + size);
    assert SlicesFrom(ids, size, i)[1..] == SlicesFrom(ids, size, i + size);
  }

  /** A batch that raises ends the run with its exception. */
  lemma SinkStops(process: seq<int> -> Py<Option<seq<TempDetails>>>, ids: seq<int>, size: nat, i: nat, threshold: int,
                  buffer: seq<TempDetails>, e: Exc, whole: SinkLog<TempDetails>, done: seq<seq<TempDetails>>)
    requires size > 0 && i < |ids|
    requires process(PySlice(ids, i, i + size)) == Raise(e)
    requires SinkTracks(process, ids, size, i, threshold, buffer, whole, done)
    ensures whole == SinkLog(Raise(e), done, buffer)
  {
    SinkStep(process, SlicesFrom(ids, size, i), threshold, buffer);
    assert SlicesFrom(ids, size, i)[0] == PySlice(ids, i, i + size);
    assert done + [] == done;
  }

  /** Past the end of the list the run has succeeded. */
  lemma SinkEnds(process: seq<int> -> Py<Option<seq<TempDetails>>>, ids: seq<int>, size: nat, i: nat, threshold: int,
                 buffer: seq<TempDetails>, whole: SinkLog<TempDetails>, done: seq<seq<TempDetails>>)
    requires size > 0 && i >= |ids|
    requires SinkTracks(process, ids, size, i, threshold, buffer, whole, done)
    ensures whole == SinkLog(Value(()), done, buffer)
  {
    assert done + [] == done;
  }

  /** The batch loop of `main` with a positive batch size, `process` being
      `fetch_and_process_app_data`; `buffer` is `games.games` when the loop
      ends. */
  method SinkTempBatches(db: Database, process: seq<int> -> Py<Option<seq<TempDetails>>>, ids: seq<int>, batchSize: nat, threshold: int)
    returns (r: Py<()>, buffer: seq<TempDetails>)
    requires batchSize > 0
    modifies db
    ensures var log := SinkFrom(process, Slices(ids, batchSize), threshold, []);
      r == log.result && db.tempBatches == old(db.tempBatches) + log.flushes && buffer == log.buffer
    ensures db.meta == old(db.meta) && db.details == old(db.details)
    ensures db.steamspyBatches == old(db.steamspyBatches) && db.lastRuns == old(db.lastRuns)
  {
    ghost var whole := SinkFrom(process, Slices(ids, batchSize), threshold, []);
    ghost var done: seq<seq<TempDetails>> := [];
    buffer := [];
    assert whole == SinkLog(whole.result, done + whole.flushes, whole.buffer);
    var i := 0;
    while i < |ids|
      invariant 0 <= i
      invariant SinkTracks(process, ids, batchSize, i, threshold, buffer, whole, done)
      invariant db.tempBatches == old(db.tempBatches) + done
      invariant db.meta == old(db.meta) && db.details == old(db.details)
      invariant db.steamspyBatches == old(db.steamspyBatches) && db.lastRuns == old(db.lastRuns)
      decreases |ids| - i
    {
      var batch := PySlice(ids, i, i + batchSize);
      var appData := process(batch);
      if appData.Raise? {
        SinkStops(process, ids, batchSize, i, threshold, buffer, appData.exc, whole, done);
        return Raise(appData.exc), buffer;
      }
      ghost var before := buffer;
      if appData.value.Some? && appData.value.value != [] {
        buffer := buffer + appData.value.value;
      }
      assert buffer == Extend(before, appData.value);
      if |buffer| >= threshold {
        SinkFlushes(process, ids, batchSize, i, threshold, before, appData.value, whole, done);
        Associative(old(db.tempBatches), done, [buffer]);
        db.BulkIngestTempData(buffer);
        done := done + [buffer];
        buffer := [];
      } else {
        SinkKeeps(process, ids, batchSize, i, threshold, before, appData.value, whole, done);
      }
      i := i + batchSize;
    }
    SinkEnds(process, ids, batchSize, i, threshold, buffer, whole, done);
    r := Value(());
  }

  /** `main(batch_size=5, bulk_factor=10, reverse=False)` over the app ids
      the SQL query returned: `range(0, n, batch_size)` raises ValueError
      for a zero step and is empty for a negative one; `leftover` is what
      the buffer still holds when the database is closed. */
  method RunMain(db: Database, store: Net, appIdList: seq<int>, batchSize: int := 5, bulkFactor: int := 10, reverse: bool := false)
    returns (r: Py<()>, leftover: seq<TempDetails>)
    modifies db
    ensures batchSize == 0 ==> r == Raise(ValueError) && leftover == [] && db.tempBatches == old(db.tempBatches)
    ensures batchSize < 0 ==> r == Value(()) && leftover == [] && db.tempBatches == old(db.tempBatches)
    ensures batchSize > 0 ==>
      var log := SinkFrom(StoreProcessor(store), Slices(Ordered(appIdList, reverse), batchSize), batchSize * bulkFactor, []);
      r == log.result && db.tempBatches == old(db.tempBatches) + log.flushes && leftover == log.buffer
    ensures db.meta == old(db.meta) && db.details == old(db.details)
    ensures db.steamspyBatches == old(db.steamspyBatches) && db.lastRuns == old(db.lastRuns)
  {
    var ids := Ordered(appIdList, reverse);
    if batchSize == 0 {
      return Raise(ValueError), [];
    }
    if batchSize < 0 {
      return Value(()), [];
    }
    r, leftover := SinkTempBatches(db, StoreProcessor(store), ids, batchSize, batchSize * bulkFactor);
  }
}
