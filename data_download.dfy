/** data_download.py: the resumable Steam store download. A checkpoint file
    holds the index of the next app to fetch; the app list is processed in
    batches between boundaries, each non-empty batch is appended to the data
    file and the checkpoint is then overwritten with the batch's end. */
module DataDownload {
  import opened PyValues
  import opened PyText
  import opened Fetcher
  import opened Batching
  import opened Scraping
  import opened IdCollection

  // ---------------------------------------------------------------------------
  // get_index

  /** `f.readline()`: the text up to and including the first newline. */
  function FirstLine(s: string): (r: string)
    ensures |r| <= |s| && r == s[..|r|]
  {
    if s == [] then []
    else if s[0] == '\n' then [s[0]]
    else [s[0]] + FirstLine(s[1..])
  }

  lemma {:induction false} FirstLineOf(line: string, rest: string)
    requires '\n' !in line
    ensures FirstLine(line + "\n" + rest) == line + "\n"
  {
    if line != [] {
      assert (line + "\n" + rest)[1..] == line[1..] + "\n" + rest;
      FirstLineOf(line[1..], rest);
    }
  }

  /** `get_index`: the integer on the checkpoint file's first line, 0 when
      the file does not exist, ValueError when that line is not an integer. */
  function GetIndex(indexFile: Option<string>): (r: Py<int>)
    ensures indexFile.None? ==> r == Value(0)
    ensures r.Raise? ==> r.exc == ValueError
  {
    match indexFile
    case None => Value(0)
    case Some(text) =>
      match ParseInt(FirstLine(text))
      case Some(n) => Value(n)
      case None => Raise(ValueError)
  }

  /** What writing the index to the checkpoint file leaves there: its digits and a newline. */
  function CheckpointText(index: int): string
  {
    IntToString(index) + "\n"
  }

  /** A checkpoint written by `process_batches` reads back as the same index. */
  lemma CheckpointRoundTrip(index: int)
    ensures GetIndex(Some(CheckpointText(index))) == Value(index)
  {
    var s := IntToString(index);
    assert '\n' !in s;
    FirstLineOf(s, "");
    assert s + "\n" + "" == s + "\n";
    IntRoundTrip(index);
  }

  // ---------------------------------------------------------------------------
  // parse_steam_request

  /** The placeholder record of an unsuccessful answer. */
  function Placeholder(row: Row): Json
  {
    JDict([("name", JStr(row.name)), ("steam_appid", JInt(row.appid))])
  }

  /** `parse_steam_request(appid, name)` once id_collection.py's
      `get_request` has answered `fetched`: a None answer is indexed anyway
      and raises TypeError; an answer without `success` yields the
      placeholder. */
  function ParseSteamRequest(row: Row, fetched: Py<Option<Json>>): (r: Py<Json>)
    ensures fetched.Raise? ==> r == Raise(fetched.exc)
    ensures fetched == Value(None) ==> r == Raise(TypeError)
    ensures fetched.Value? && fetched.value.Some? && fetched.value.value.JDict? ==>
      var entry := Lookup(fetched.value.value.fields, IntToString(row.appid));
      entry.Some? && entry.value.JDict? ==>
        var ok := Lookup(entry.value.fields, "success");
        && (ok.Some? && !Truthy(ok.value) ==> r == Value(Placeholder(row)))
        && (ok.Some? && Truthy(ok.value) ==>
              r == (match Lookup(entry.value.fields, "data") case Some(d) => Value(d) case None => Raise(KeyError)))
  {
    match fetched
    case Raise(e) => Raise(e)
    case Value(answer) =>
      var json := if answer.Some? then answer.value else JNull;
      match Index(json, IntToString(row.appid))
      case Raise(e) => Raise(e)
      case Value(entry) =>
        match Index(entry, "success")
        case Raise(e) => Raise(e)
        case Value(ok) => if Truthy(ok) then Index(entry, "data") else Value(Placeholder(row))
  }

  /** The parser the script passes: the fetch with `{"appids": appid}`. */
  function StoreParser(store: Net): Row -> Py<Json>
  {
    (row: Row) => ParseSteamRequest(row, Attempt(IdCollectionPolicy, store(row.appid), 0, 5, 5, WithAppids).result)
  }

  // ---------------------------------------------------------------------------
  // get_app_data

  /** `get_app_data(start, stop, parser, pause)`: the parser is called once
      per row of `app_list[start:stop]`, in order; an exception ends the
      loop. The pauses are not modelled. */
  method GetAppData(appList: seq<Row>, start: int, stop: int, parser: Row -> Py<Json>) returns (r: Py<seq<Json>>)
    ensures r == MapPy(parser, PySlice(appList, start, stop))
  {
    var rows := PySlice(appList, start, stop);
    var appData: seq<Json> := [];
    var k := 0;
    while k < |rows|
      invariant 0 <= k <= |rows|
      invariant MapPy(parser, rows[..k]) == Value(appData)
    {
      var data := parser(rows[k]);
      MapPyStep(parser, rows, k, appData);
      if data.Raise? {
        return Raise(data.exc);
      }
      appData := appData + [data.value];
      k := k + 1;
    }
    assert rows[..k] == rows;
    r := Value(appData);
  }

  /** One step of a loop that maps `f` over `xs`: after a successful prefix,
      element `k` either raises for the whole map or extends the prefix. */
  lemma MapPyStep<A, B>(f: A -> Py<B>, xs: seq<A>, k: nat, ys: seq<B>)
    requires k < |xs| && MapPy(f, xs[..k]) == Value(ys)
    ensures f(xs[k]).Raise? ==> MapPy(f, xs) == Raise(f(xs[k]).exc)
    ensures f(xs[k]).Value? ==> MapPy(f, xs[..k + 1]) == Value(ys + [f(xs[k]).value])
  {
    if f(xs[k]).Raise? {
      var rest := xs[k..];
      assert xs[..k] + rest == xs;
      assert rest[0] == xs[k];
      MapPyAppend(f, xs[..k], rest);
    } else {
      MapPyOne(f, xs[k]);
      assert xs[..k + 1] == xs[..k] + [xs[k]];
      MapPyAppend(f, xs[..k], [xs[k]]);
    }
  }

  // ---------------------------------------------------------------------------
  // process_batches

  /** The outcome of the batch loop, the non-empty batches appended to the
      data file, and the checkpoints written, in order. */
  datatype DownloadLog = DownloadLog(result: Py<()>, written: seq<seq<Json>>, checkpoints: seq<int>)

  /** The loop over consecutive boundaries `b[0], b[1], ...`. */
  function DownloadFrom(parser: Row -> Py<Json>, appList: seq<Row>, b: seq<int>): DownloadLog
  {
    if |b| < 2 then DownloadLog(Value(()), [], [])
    else match MapPy(parser, PySlice(appList, b[0], b[1]))
      case Raise(e) => DownloadLog(Raise(e), [], [])
      case Value(data) =>
        var rest := DownloadFrom(parser, appList, b[1..]);
        if data != [] then DownloadLog(rest.result, [data] + rest.written, [b[1]] + rest.checkpoints)
        else rest
  }

  /** `end == -1` stands for one past the last row. */
  function EffectiveEnd(appList: seq<Row>, end: int): int
  {
    if end == -1 then |appList| + 1 else end
  }

  /** The run of `process_batches(parser, app_list, ..., begin, end, batchsize)`. */
  function Download(parser: Row -> Py<Json>, appList: seq<Row>, begin: int, end: int, batchSize: nat): DownloadLog
    requires batchSize > 0
  {
    DownloadFrom(parser, appList, Boundaries(begin, EffectiveEnd(appList, end), batchSize))
  }

  /** Checkpoints strictly increase when the boundaries do, and each lies
      after the first boundary and at most at the last. */
  lemma {:induction false} CheckpointsIncrease(parser: Row -> Py<Json>, appList: seq<Row>, b: seq<int>)
    requires |b| >= 1
    requires forall i :: 0 <= i < |b| - 1 ==> b[i] < b[i + 1]
    ensures var cs := DownloadFrom(parser, appList, b).checkpoints;
      && (forall i :: 0 <= i < |cs| - 1 ==> cs[i] < cs[i + 1])
      && (forall i :: 0 <= i < |cs| ==> b[0] < cs[i] <= b[|b| - 1])
  {
    if |b| >= 2 {
      CheckpointsIncrease(parser, appList, b[1..]);
      assert b[1..][0] == b[1] && b[1..][|b| - 2] == b[|b| - 1];
      assert forall i :: 0 <= i < |DownloadFrom(parser, appList, b[1..]).checkpoints| - 1 ==>
        DownloadFrom(parser, appList, b[1..]).checkpoints[i] < DownloadFrom(parser, appList, b[1..]).checkpoints[i + 1];
      assert forall i :: 0 <= i < |DownloadFrom(parser, appList, b[1..]).checkpoints| ==>
        b[1] < DownloadFrom(parser, appList, b[1..]).checkpoints[i] <= b[|b| - 1];
      assert b[0] < b[1];
      MonotoneFrom(b, 1, |b| - 1);
      CheckpointsPrepend(DownloadFrom(parser, appList, b).checkpoints, DownloadFrom(parser, appList, b[1..]).checkpoints, b[0], b[1], b[|b| - 1]);
    }
  }

  /** The induction step of `CheckpointsIncrease`: the checkpoints of a run
      are those of the rest of it, possibly after the first batch's end. */
  lemma CheckpointsPrepend(cs: seq<int>, rest: seq<int>, lo: int, mid: int, hi: int)
    requires cs == rest || cs == [mid] + rest || cs == []
    requires lo < mid <= hi
    requires forall i :: 0 <= i < |rest| - 1 ==> rest[i] < rest[i + 1]
    requires forall i :: 0 <= i < |rest| ==> mid < rest[i] <= hi
    ensures forall i :: 0 <= i < |cs| - 1 ==> cs[i] < cs[i + 1]
    ensures forall i :: 0 <= i < |cs| ==> lo < cs[i] <= hi
  {
    if cs == [mid] + rest {
      assert forall i :: 1 <= i < |cs| ==> cs[i] == rest[i - 1];
    }
  }

  /** Batching changes nothing about what is parsed: from a non-negative
      `b[0]`, the run succeeds iff parsing the rows `b[0]` to the last
      boundary succeeds, and the appended records are then exactly those,
      in order; otherwise it raises the first exception met. */
  lemma {:induction false} DownloadWritesEveryRow(parser: Row -> Py<Json>, appList: seq<Row>, b: seq<int>)
    requires |b| >= 1 && 0 <= b[0]
    requires forall i :: 0 <= i < |b| - 1 ==> b[i] <= b[i + 1]
    ensures var log := DownloadFrom(parser, appList, b);
      var whole := MapPy(parser, PySlice(appList, b[0], b[|b| - 1]));
      && (log.result.Value? <==> whole.Value?)
      && (whole.Value? ==> Concat(log.written) == whole.value)
      && (whole.Raise? ==> log.result == Raise(whole.exc))
  {
    if |b| == 1 {
      assert PySlice(appList, b[0], b[0]) == [];
    } else {
      var rest := DownloadFrom(parser, appList, b[1..]);
      DownloadWritesEveryRow(parser, appList, b[1..]);
      assert b[1..][|b[1..]| - 1] == b[|b| - 1];
      MonotoneFrom(b, 1, |b| - 1);
      SliceSplit(appList, b[0], b[1], b[|b| - 1]);
      MapPyAppend(parser, PySlice(appList, b[0], b[1]), PySlice(appList, b[1], b[|b| - 1]));
      var first := MapPy(parser, PySlice(appList, b[0], b[1]));
      if first.Value? && first.value != [] {
        var log := DownloadFrom(parser, appList, b);
        assert log.written == [first.value] + rest.written;
        assert log.written[1..] == rest.written;
      } else if first.Value? {
        assert [] + Concat(rest.written) == Concat(rest.written);
        if MapPy(parser, PySlice(appList, b[1], b[|b| - 1])).Value? {
          assert first.value + MapPy(parser, PySlice(appList, b[1], b[|b| - 1])).value == MapPy(parser, PySlice(appList, b[1], b[|b| - 1])).value;
        }
      }
    }
  }

  lemma {:induction false} MonotoneFrom(b: seq<int>, i: nat, j: nat)
    requires forall k :: 0 <= k < |b| - 1 ==> b[k] <= b[k + 1]
    requires i <= j < |b|
    ensures b[i] <= b[j]
    decreases j - i
  {
    if j > i {
      MonotoneFrom(b, i, j - 1);
    }
  }

  /** The checkpoints of `process_batches` strictly increase, each lies
      after `begin` and none passes the effective end. */
  lemma DownloadCheckpoints(parser: Row -> Py<Json>, appList: seq<Row>, begin: int, end: int, batchSize: nat)
    requires batchSize > 0
    ensures var cs := Download(parser, appList, begin, end, batchSize).checkpoints;
      && (forall i :: 0 <= i < |cs| - 1 ==> cs[i] < cs[i + 1])
      && (forall i :: 0 <= i < |cs| ==> begin < cs[i] <= EffectiveEnd(appList, end))
  {
    var stop := EffectiveEnd(appList, end);
    var b := Boundaries(begin, stop, batchSize);
    BoundariesPartition(begin, stop, batchSize);
    assert Download(parser, appList, begin, end, batchSize) == DownloadFrom(parser, appList, b);
    if begin < stop {
      CheckpointsIncrease(parser, appList, b);
      assert forall i :: 0 <= i < |DownloadFrom(parser, appList, b).checkpoints| - 1 ==>
        DownloadFrom(parser, appList, b).checkpoints[i] < DownloadFrom(parser, appList, b).checkpoints[i + 1];
      assert forall i :: 0 <= i < |DownloadFrom(parser, appList, b).checkpoints| ==>
        begin < DownloadFrom(parser, appList, b).checkpoints[i] <= stop;
    } else {
      assert b == [stop];
      assert DownloadFrom(parser, appList, b).checkpoints == [];
    }
  }

  /** From a non-negative `begin` up to the effective end, a run of
      `process_batches` succeeds iff parsing every row of
      `app_list[begin:end]` succeeds, and it then appends exactly those
      records, in order. */
  lemma DownloadRows(parser: Row -> Py<Json>, appList: seq<Row>, begin: int, end: int, batchSize: nat)
    requires batchSize > 0 && 0 <= begin <= EffectiveEnd(appList, end)
    ensures var log := Download(parser, appList, begin, end, batchSize);
      var whole := MapPy(parser, PySlice(appList, begin, EffectiveEnd(appList, end)));
      && (log.result.Value? <==> whole.Value?)
      && (whole.Value? ==> Concat(log.written) == whole.value)
      && (whole.Raise? ==> log.result == Raise(whole.exc))
  {
    var stop := EffectiveEnd(appList, end);
    var b := Boundaries(begin, stop, batchSize);
    BoundariesPartition(begin, stop, batchSize);
    if begin == stop {
      assert b == [stop];
    }
    assert b[0] == begin;
    assert forall i :: 0 <= i < |b| - 1 ==> b[i] <= b[i + 1];
    DownloadWritesEveryRow(parser, appList, b);
  }

  /** One batch of the loop: `b[i..]` runs batch `i` and then `b[i + 1..]`. */
  lemma DownloadUnfold(parser: Row -> Py<Json>, appList: seq<Row>, b: seq<int>, i: nat)
    requires i < |b| - 1
    ensures var data := MapPy(parser, PySlice(appList, b[i], b[i + 1]));
      var rest := DownloadFrom(parser, appList, b[i + 1..]);
      DownloadFrom(parser, appList, b[i..]) ==
        if data.Raise? then DownloadLog(Raise(data.exc), [], [])
        else if data.value != [] then DownloadLog(rest.result, [data.value] + rest.written, [b[i + 1]] + rest.checkpoints)
        else rest
  {
    assert b[i..][0] == b[i] && b[i..][1] == b[i + 1] && b[i..][1..] == b[i + 1..];
  }

  /** The loop's ghost state: `done`, `marks` and `flat` are what the
      batches so far have written, checkpointed and appended, and `log` is
      the rest of the run `whole`. */
  predicate Tracks(whole: DownloadLog, log: DownloadLog, done: seq<seq<Json>>, marks: seq<int>, flat: seq<Json>)
  {
    && whole.result == log.result
    && whole.written == done + log.written
    && whole.checkpoints == marks + log.checkpoints
    && flat == Concat(done)
  }

  /** A batch that parses moves its records and checkpoint, if it has any,
      from the rest of the run into what has been done. */
  lemma DownloadAdvance(parser: Row -> Py<Json>, appList: seq<Row>, b: seq<int>, i: nat, data: seq<Json>,
                        whole: DownloadLog, done: seq<seq<Json>>, marks: seq<int>, flat: seq<Json>)
    requires i < |b| - 1 && MapPy(parser, PySlice(appList, b[i], b[i + 1])) == Value(data)
    requires Tracks(whole, DownloadFrom(parser, appList, b[i..]), done, marks, flat)
    ensures data == [] ==> Tracks(whole, DownloadFrom(parser, appList, b[i + 1..]), done, marks, flat)
    ensures data != [] ==> Tracks(whole, DownloadFrom(parser, appList, b[i + 1..]), done + [data], marks + [b[i + 1]], flat + data)
  {
    DownloadUnfold(parser, appList, b, i);
    var rest := DownloadFrom(parser, appList, b[i + 1..]);
    if data != [] {
      assert done + ([data] + rest.written) == (done + [data]) + rest.written;
      assert marks + ([b[i + 1]] + rest.checkpoints) == (marks + [b[i + 1]]) + rest.checkpoints;
      ConcatAppend(done, [data]);
      assert Concat([data]) == data + Concat([data][1..]);
      assert data + [] == data;
    }
  }

  /** A batch that raises ends the run with its exception. */
  lemma DownloadStops(parser: Row -> Py<Json>, appList: seq<Row>, b: seq<int>, i: nat, e: Exc,
                      whole: DownloadLog, done: seq<seq<Json>>, marks: seq<int>, flat: seq<Json>)
    requires i < |b| - 1 && MapPy(parser, PySlice(appList, b[i], b[i + 1])) == Raise(e)
    requires Tracks(whole, DownloadFrom(parser, appList, b[i..]), done, marks, flat)
    ensures whole == DownloadLog(Raise(e), done, marks) && Concat(whole.written) == flat
  {
    DownloadUnfold(parser, appList, b, i);
    assert done + [] == done && marks + [] == marks;
  }

  /** Past the last boundary the run has succeeded. */
  lemma DownloadEnds(parser: Row -> Py<Json>, appList: seq<Row>, b: seq<int>, i: nat,
                     whole: DownloadLog, done: seq<seq<Json>>, marks: seq<int>, flat: seq<Json>)
    requires |b| - 1 <= i <= |b|
    requires Tracks(whole, DownloadFrom(parser, appList, b[i..]), done, marks, flat)
    ensures whole == DownloadLog(Value(()), done, marks) && Concat(whole.written) == flat
  {
    assert done + [] == done && marks + [] == marks;
  }

  /** The checkpoint file after the checkpoints `marks` were written over
      `initial`: the last one written, if any. */
  function IndexAfter(initial: Option<string>, marks: seq<int>): Option<string>
  {
    if marks == [] then initial else Some(CheckpointText(marks[|marks| - 1]))
  }

  /** The download directory: the checkpoint file, the data file's header
      and the records appended to it. `indexWrites` records every value the
      checkpoint file has been overwritten with. */
  class DownloadDir {
    var indexFile: Option<string>
    var header: seq<string>
    var records: seq<Json>
    ghost var indexWrites: seq<int>

    constructor (indexFile: Option<string>, header: seq<string>, records: seq<Json>)
      ensures this.indexFile == indexFile && this.header == header && this.records == records
      ensures indexWrites == []
    {
      this.indexFile := indexFile;
      this.header := header;
      this.records := records;
      indexWrites := [];
    }

    /** `prepare_data_file`: a fresh download (index 0) truncates the data
        file to its header; any other index leaves it as it is. */
    method PrepareDataFile(index: int, columns: seq<string>)
      modifies this
      ensures index == 0 ==> header == columns && records == []
      ensures index != 0 ==> header == old(header) && records == old(records)
      ensures indexFile == old(indexFile) && indexWrites == old(indexWrites)
    {
      if index == 0 {
        header := columns;
        records := [];
      }
    }

    /** Appends one batch to the data file, then overwrites the checkpoint
        with the batch's end; `base + written` is what the data file holds. */
    method WriteBatch(data: seq<Json>, stop: int, ghost base: seq<Json>, ghost written: seq<Json>,
                      ghost initial: Option<string>, ghost marks: seq<int>)
      requires records == base + written
      modifies this
      ensures records == base + (written + data) && header == old(header)
      ensures indexFile == Some(CheckpointText(stop)) && indexFile == IndexAfter(initial, marks + [stop])
      ensures indexWrites == old(indexWrites) + [stop]
    {
      assert base + written + data == base + (written + data);
      records := records + data;
      indexFile := Some(CheckpointText(stop));
      indexWrites := indexWrites + [stop];
    }

    /** `process_batches` with a positive `batchsize`; `appsWritten` is the
        count it reports. */
    method ProcessBatches(parser: Row -> Py<Json>, appList: seq<Row>, begin: int, end: int, batchSize: nat)
      returns (r: Py<()>, appsWritten: nat)
      requires batchSize > 0
      modifies this
      ensures var log := Download(parser, appList, begin, end, batchSize);
        && r == log.result
        && records == old(records) + Concat(log.written)
        && appsWritten == |Concat(log.written)|
        && indexWrites == old(indexWrites) + log.checkpoints
        && indexFile == IndexAfter(old(indexFile), log.checkpoints)
      ensures header == old(header)
    {
      var stop := end;
      if stop == -1 {
        stop := |appList| + 1;
      }
      var batches := Boundaries(begin, stop, batchSize);
      assert Download(parser, appList, begin, end, batchSize) == DownloadFrom(parser, appList, batches);
      r, appsWritten := RunBatches(parser, appList, batches);
    }

    /** The loop of `process_batches` over the boundaries `batches`. */
    method RunBatches(parser: Row -> Py<Json>, appList: seq<Row>, batches: seq<int>)
      returns (r: Py<()>, appsWritten: nat)
      modifies this
      ensures var log := DownloadFrom(parser, appList, batches);
        && r == log.result
        && records == old(records) + Concat(log.written)
        && appsWritten == |Concat(log.written)|
        && indexWrites == old(indexWrites) + log.checkpoints
        && indexFile == IndexAfter(old(indexFile), log.checkpoints)
      ensures header == old(header)
    {
      ghost var whole := DownloadFrom(parser, appList, batches);
      ghost var done: seq<seq<Json>> := [];
      ghost var marks: seq<int> := [];
      ghost var flat: seq<Json> := [];
      assert batches[0..] == batches;
      assert done + whole.written == whole.written && marks + whole.checkpoints == whole.checkpoints;
      appsWritten := 0;
      var i := 0;
      while i < |batches| - 1
        invariant 0 <= i <= |batches|
        invariant Tracks(whole, DownloadFrom(parser, appList, batches[i..]), done, marks, flat)
        invariant records == old(records) + flat && appsWritten == |flat|
        invariant indexWrites == old(indexWrites) + marks && header == old(header)
        invariant indexFile == IndexAfter(old(indexFile), marks)
      {
        var start := batches[i];
        var stop := batches[i + 1];
        var appData := GetAppData(appList, start, stop, parser);
        if appData.Raise? {
          DownloadStops(parser, appList, batches, i, appData.exc, whole, done, marks, flat);
          return Raise(appData.exc), appsWritten;
        }
        DownloadAdvance(parser, appList, batches, i, appData.value, whole, done, marks, flat);
        if appData.value != [] {
          WriteBatch(appData.value, stop, old(records), flat, old(indexFile), marks);
          appsWritten := appsWritten + |appData.value|;
          done := done + [appData.value];
          marks := marks + [stop];
          flat := flat + appData.value;
        }
        i := i + 1;
      }
      DownloadEnds(parser, appList, batches, i, whole, done, marks, flat);
      r := Value(());
    }
  }

  /** `end = -1 if num_records == 0 else index + num_records`. */
  function ScriptEnd(index: int, numRecords: int): int
  {
    if numRecords == 0 then -1 else index + numRecords
  }

  /** The script: read the checkpoint, prepare the data file, then download
      `num_records` apps from the checkpoint on (all of them for 0) in
      batches of 5. A corrupt checkpoint raises before any file is touched;
      otherwise a fresh start (index 0) writes the header, and the checkpoint
      ends at the last batch that wrote rows. */
  method Script(dir: DownloadDir, store: Net, appList: seq<Row>, columns: seq<string>, numRecords: int)
    returns (r: Py<()>)
    modifies dir
    ensures GetIndex(old(dir.indexFile)).Raise? ==>
      && r == Raise(GetIndex(old(dir.indexFile)).exc)
      && dir.records == old(dir.records) && dir.header == old(dir.header) && dir.indexFile == old(dir.indexFile)
    ensures GetIndex(old(dir.indexFile)).Value? ==>
      var index := GetIndex(old(dir.indexFile)).value;
      var log := Download(StoreParser(store), appList, index, ScriptEnd(index, numRecords), 5);
      && r == log.result
      && dir.header == (if index == 0 then columns else old(dir.header))
      && dir.records == (if index == 0 then [] else old(dir.records)) + Concat(log.written)
      && dir.indexFile == IndexAfter(old(dir.indexFile), log.checkpoints)
  {
    var index := GetIndex(dir.indexFile);
    if index.Raise? {
      return Raise(index.exc);
    }
    dir.PrepareDataFile(index.value, columns);
    ghost var checkpoint := dir.indexFile;
    assert checkpoint == old(dir.indexFile);
    var appsWritten;
    r, appsWritten := dir.ProcessBatches(StoreParser(store), appList, index.value, ScriptEnd(index.value, numRecords), 5);
  }
}
