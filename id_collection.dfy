/** id_collection.py: the stand-alone collector of the SteamSpy id list. It
    reads the existing list, fetches 75 pages, keeps the rows whose appid the
    existing list does not hold, and writes back existing and new rows sorted
    by appid. */
module IdCollection {
  import opened PyValues
  import opened Fetcher
  import opened Scraping

  /** `max_pages` of the script. */
  const MaxPages: int := 75

  /** One row of the id list: the `appid` and `name` columns. */
  datatype Row = Row(appid: int, name: string)

  /** The appids of a list of rows (`set(existing_data["appid"])`). */
  function AppidSet(rows: seq<Row>): (ids: set<int>)
    ensures forall x :: x in rows ==> x.appid in ids
    ensures forall id :: id in ids ==> exists x :: x in rows && x.appid == id
  {
    set x | x in rows :: x.appid
  }

  /** `app_list[~app_list["appid"].isin(existing_appids)]`. */
  function NewRows(rows: seq<Row>, existing: set<int>): seq<Row>
  {
    if rows == [] then []
    else (if rows[0].appid in existing then [] else [rows[0]]) + NewRows(rows[1..], existing)
  }

  /** The filter keeps exactly the rows whose appid is not an existing one. */
  lemma {:induction false} NewRowsFilter(rows: seq<Row>, existing: set<int>)
    ensures forall x :: x in NewRows(rows, existing) <==> x in rows && x.appid !in existing
    ensures |NewRows(rows, existing)| <= |rows|
  {
    if rows != [] {
      NewRowsFilter(rows[1..], existing);
      assert rows == [rows[0]] + rows[1..];
    }
  }

  /** Page `page` as the script sees it: `get_request` with
      `{"request": "all", "page": page}`, then the table built from the
      answer by pandas, which `decode` stands for. */
  function IdPage(net: Net, decode: Json -> seq<Row>, page: int): (r: Py<Option<seq<Row>>>)
    ensures r.Raise? ==> r.exc == KeyError
  {
    RaisesOnly(IdCollectionPolicy, net(page), 0, 5, 5, WithoutAppids);
    match Attempt(IdCollectionPolicy, net(page), 0, 5, 5, WithoutAppids).result
    case Raise(e) => Raise(e)
    case Value(None) => Value(None)
    case Value(Some(j)) => Value(Some(decode(j)))
  }

  function IdPages(net: Net, decode: Json -> seq<Row>): int -> Py<Option<seq<Row>>>
  {
    (p: int) => IdPage(net, decode, p)
  }

  /** A page answered with status 200 and a `null` body is skipped, as a
      failed fetch is. */
  lemma NullPageSkipped(net: Net, decode: Json -> seq<Row>, existing: set<int>, i: int)
    requires i < MaxPages && net(i)(0) == Ok(JNull)
    ensures IdPage(net, decode, i) == Value(None)
    ensures CollectFrom(IdPages(net, decode), existing, i) == CollectFrom(IdPages(net, decode), existing, i + 1)
  {
    assert Attempt(IdCollectionPolicy, net(i), 0, 5, 5, WithoutAppids).result == Value(None);
    assert IdPages(net, decode)(i) == Value(None);
  }

  /** The outcome of the page loop and `all_data`, the non-empty lists of new
      rows in page order. */
  datatype CollectLog = CollectLog(result: Py<()>, added: seq<seq<Row>>)

  /** Pages `i` to 74: a page whose fetch gives None is skipped (`continue`);
      `existing` is never updated during the loop. */
  function CollectFrom(outcome: int -> Py<Option<seq<Row>>>, existing: set<int>, i: int): CollectLog
    decreases MaxPages - i
  {
    if i >= MaxPages then CollectLog(Value(()), [])
    else match outcome(i)
      case Raise(e) => CollectLog(Raise(e), [])
      case Value(None) => CollectFrom(outcome, existing, i + 1)
      case Value(Some(rows)) =>
        var newData := NewRows(rows, existing);
        var rest := CollectFrom(outcome, existing, i + 1);
        CollectLog(rest.result, (if newData != [] then [newData] else []) + rest.added)
  }

  /** No appid of the existing list is ever added again, and every list in
      `all_data` is non-empty. */
  lemma {:induction false} CollectNeverReadds(outcome: int -> Py<Option<seq<Row>>>, existing: set<int>, i: int)
    ensures var log := CollectFrom(outcome, existing, i);
      && (forall x :: x in Concat(log.added) ==> x.appid !in existing)
      && (forall k :: 0 <= k < |log.added| ==> log.added[k] != [])
    decreases MaxPages - i
  {
    if i < MaxPages && outcome(i).Value? {
      CollectNeverReadds(outcome, existing, i + 1);
      if outcome(i).value.Some? {
        var newData := NewRows(outcome(i).value.value, existing);
        NewRowsFilter(outcome(i).value.value, existing);
        AddedPrepend(CollectFrom(outcome, existing, i).added, newData, CollectFrom(outcome, existing, i + 1).added, existing);
      }
    }
  }

  /** The induction step of `CollectNeverReadds`: a page's new rows, if
      any, go in front of the rest of the run's. */
  lemma AddedPrepend(added: seq<seq<Row>>, newData: seq<Row>, rest: seq<seq<Row>>, existing: set<int>)
    requires added == (if newData != [] then [newData] else []) + rest
    requires forall x :: x in newData ==> x.appid !in existing
    requires forall x :: x in Concat(rest) ==> x.appid !in existing
    requires forall k :: 0 <= k < |rest| ==> rest[k] != []
    ensures forall x :: x in Concat(added) ==> x.appid !in existing
    ensures forall k :: 0 <= k < |added| ==> added[k] != []
  {
    if newData != [] {
      ConcatAppend([newData], rest);
      assert Concat([newData]) == newData + Concat([newData][1..]);
      assert newData + [] == newData;
      assert forall k :: 1 <= k < |added| ==> added[k] == rest[k - 1];
    } else {
      assert added == rest;
    }
  }

  /** The existing set is not updated during the run: an appid that is new
      and appears on two pages is added twice. */
  lemma CollectKeepsRepeats(outcome: int -> Py<Option<seq<Row>>>, x: Row)
    requires outcome(73) == Value(Some([x])) && outcome(74) == Value(Some([x]))
    ensures CollectFrom(outcome, {}, 73) == CollectLog(Value(()), [[x], [x]])
  {
    assert NewRows([x], {}) == [x];
  }

  /** One iteration of the loop: a page that gives rows moves its new rows,
      if any, from the rest of the run into `all_data`. */
  lemma CollectAdvance(outcome: int -> Py<Option<seq<Row>>>, existing: set<int>, i: int, allData: seq<seq<Row>>, rows: seq<Row>)
    requires i < MaxPages && outcome(i) == Value(Some(rows))
    ensures var newData := NewRows(rows, existing);
      var here := CollectFrom(outcome, existing, i);
      var rest := CollectFrom(outcome, existing, i + 1);
      var allData' := if newData != [] then allData + [newData] else allData;
      && CollectLog(here.result, allData + here.added) == CollectLog(rest.result, allData' + rest.added)
      && |Concat(allData')| == |Concat(allData)| + |newData|
  {
    var newData := NewRows(rows, existing);
    var rest := CollectFrom(outcome, existing, i + 1);
    if newData != [] {
      ConcatAppend(allData, [newData]);
      assert Concat([newData]) == newData + Concat([newData][1..]);
      assert newData + [] == newData;
      assert allData + ([newData] + rest.added) == (allData + [newData]) + rest.added;
    } else {
      assert [] + rest.added == rest.added;
    }
  }

  /** The loop's ghost state: `allData` holds what pages before `i` added,
      and the rest of the run `whole` is the run from `i`. */
  predicate CollectTracks(outcome: int -> Py<Option<seq<Row>>>, existing: set<int>, i: int, whole: CollectLog, allData: seq<seq<Row>>)
  {
    var log := CollectFrom(outcome, existing, i);
    whole == CollectLog(log.result, allData + log.added)
  }

  /** A page that gives rows: the loop moves on with its new rows added. */
  lemma CollectGains(outcome: int -> Py<Option<seq<Row>>>, existing: set<int>, i: int, rows: seq<Row>, whole: CollectLog, allData: seq<seq<Row>>)
    requires i < MaxPages && outcome(i) == Value(Some(rows))
    requires CollectTracks(outcome, existing, i, whole, allData)
    ensures var newData := NewRows(rows, existing);
      var allData' := if newData != [] then allData + [newData] else allData;
      CollectTracks(outcome, existing, i + 1, whole, allData') && |Concat(allData')| == |Concat(allData)| + |newData|
  {
    CollectAdvance(outcome, existing, i, allData, rows);
  }

  /** A page whose fetch gives None is skipped. */
  lemma CollectSkips(outcome: int -> Py<Option<seq<Row>>>, existing: set<int>, i: int, whole: CollectLog, allData: seq<seq<Row>>)
    requires i < MaxPages && outcome(i) == Value(None)
    requires CollectTracks(outcome, existing, i, whole, allData)
    ensures CollectTracks(outcome, existing, i + 1, whole, allData)
  {
  }

  /** A page that raises ends the run with its exception. */
  lemma CollectStops(outcome: int -> Py<Option<seq<Row>>>, existing: set<int>, i: int, e: Exc, whole: CollectLog, allData: seq<seq<Row>>)
    requires i < MaxPages && outcome(i) == Raise(e)
    requires CollectTracks(outcome, existing, i, whole, allData)
    ensures whole == CollectLog(Raise(e), allData)
  {
    assert allData + [] == allData;
  }

  /** After page 74 the run has succeeded. */
  lemma CollectEnds(outcome: int -> Py<Option<seq<Row>>>, existing: set<int>, i: int, whole: CollectLog, allData: seq<seq<Row>>)
    requires i >= MaxPages
    requires CollectTracks(outcome, existing, i, whole, allData)
    ensures whole == CollectLog(Value(()), allData)
  {
    assert allData + [] == allData;
  }

  // ---------------------------------------------------------------------------
  // sort_values("appid")

  predicate SortedByAppid(rows: seq<Row>)
  {
    forall i, j :: 0 <= i < j < |rows| ==> rows[i].appid <= rows[j].appid
  }

  function Insert(x: Row, rows: seq<Row>): seq<Row>
  {
    if rows == [] || x.appid <= rows[0].appid then [x] + rows
    else [rows[0]] + Insert(x, rows[1..])
  }

  /** The rows ordered by appid. */
  function SortByAppid(rows: seq<Row>): seq<Row>
  {
    if rows == [] then [] else Insert(rows[0], SortByAppid(rows[1..]))
  }

  lemma {:induction false} InsertPermutes(x: Row, rows: seq<Row>)
    ensures multiset(Insert(x, rows)) == multiset(rows) + multiset{x}
  {
    if rows != [] && x.appid > rows[0].appid {
      InsertPermutes(x, rows[1..]);
      assert rows == [rows[0]] + rows[1..];
    }
  }

  lemma {:induction false} InsertSorted(x: Row, rows: seq<Row>)
    requires SortedByAppid(rows)
    ensures SortedByAppid(Insert(x, rows))
  {
    if rows != [] && x.appid > rows[0].appid {
      InsertSorted(x, rows[1..]);
      InsertPermutes(x, rows[1..]);
      var rest := Insert(x, rows[1..]);
      forall k | 0 <= k < |rest|
        ensures rows[0].appid <= rest[k].appid
      {
        assert rest[k] in multiset(rest);
        if rest[k] != x {
          assert rest[k] in multiset(rows[1..]);
          assert rest[k] in rows[1..];
        }
      }
      assert Insert(x, rows) == [rows[0]] + rest;
    }
  }

  /** The order of `sort_values("appid")`: sorted by appid and a permutation
      of its input. */
  lemma {:induction false} SortByAppidSpec(rows: seq<Row>)
    ensures SortedByAppid(SortByAppid(rows))
    ensures multiset(SortByAppid(rows)) == multiset(rows)
  {
    if rows != [] {
      SortByAppidSpec(rows[1..]);
      InsertSorted(rows[0], SortByAppid(rows[1..]));
      InsertPermutes(rows[0], SortByAppid(rows[1..]));
      assert rows == [rows[0]] + rows[1..];
    }
  }

  // ---------------------------------------------------------------------------
  // __main__

  /** The page loop of the script: `allData` is `all_data` when the loop
      ends and `newDataCount` the number of rows in it; an exception out of
      `get_request` ends the loop. */
  method CollectPages(net: Net, decode: Json -> seq<Row>, existing: set<int>)
    returns (r: Py<()>, allData: seq<seq<Row>>, newDataCount: nat)
    ensures var log := CollectFrom(IdPages(net, decode), existing, 0);
      && r == log.result
      && (r.Value? ==> allData == log.added && newDataCount == |Concat(log.added)|)
  {
    ghost var whole := CollectFrom(IdPages(net, decode), existing, 0);
    allData := [];
    assert whole == CollectLog(whole.result, allData + whole.added);
    newDataCount := 0;
    var i := 0;
    while i < MaxPages
      invariant 0 <= i && newDataCount == |Concat(allData)|
      invariant CollectTracks(IdPages(net, decode), existing, i, whole, allData)
      decreases MaxPages - i
    {
      var jsonData: Py<Option<Json>>;
      ghost var trace: seq<Event>;
      jsonData, trace := IdCollectionGetRequest(net(i), WithoutAppids);
      ghost var page := IdPages(net, decode)(i);
      assert page == IdPage(net, decode, i);
      assert page.Raise? <==> jsonData.Raise?;
      assert jsonData.Raise? ==> page == Raise(jsonData.exc);
      assert jsonData == Value(None) ==> page == Value(None);
      assert jsonData.Value? && jsonData.value.Some? ==> page == Value(Some(decode(jsonData.value.value)));
      if jsonData.Raise? {
        CollectStops(IdPages(net, decode), existing, i, jsonData.exc, whole, allData);
        return Raise(jsonData.exc), allData, newDataCount;
      }
      if jsonData.value.None? {
        CollectSkips(IdPages(net, decode), existing, i, whole, allData);
        i := i + 1;
        continue;
      }
      var appList := decode(jsonData.value.value);
      var newData := NewRows(appList, existing);
      CollectGains(IdPages(net, decode), existing, i, appList, whole, allData);
      if newData != [] {
        newDataCount := newDataCount + |newData|;
        allData := allData + [newData];
      }
      i := i + 1;
    }
    CollectEnds(IdPages(net, decode), existing, i, whole, allData);
    r := Value(());
  }

  /** The script: `written` is the content of the file when it is written
      (existing rows and new rows sorted by appid), and `newDataCount` is
      the count it reports. An exception out of `get_request` ends the run
      before anything is written. */
  method Script(net: Net, decode: Json -> seq<Row>, existingRows: seq<Row>)
    returns (r: Py<()>, written: Option<seq<Row>>, newDataCount: nat)
    ensures var log := CollectFrom(IdPages(net, decode), AppidSet(existingRows), 0);
      && r == log.result
      && (r.Value? ==> newDataCount == |Concat(log.added)|)
      && written == (if r.Value? && log.added != [] then Some(SortByAppid(existingRows + Concat(log.added))) else None)
  {
    var existing := AppidSet(existingRows);
    var allData;
    r, allData, newDataCount := CollectPages(net, decode, existing);
    if r.Raise? {
      return r, None, newDataCount;
    }
    if allData != [] {
      written := Some(SortByAppid(existingRows + Concat(allData)));
    } else {
      written := None;
    }
  }
}
