# Steam sales ETL: verified model of the scrapers, the dedup gate and the cleaners

This project models the core of the Steam-Sales-Analysis pipeline:
- the scrapers fetch SteamSpy and Steam store data over HTTP with a retrying `get_request`;
- they validate the records with pydantic models;
- they deduplicate the metadata against the keys already stored;
- they ingest in batches, or through an accumulate-and-flush buffer;
- the resumable downloader keeps a checkpoint file of the next index to fetch;
- the cleaners turn raw cells into analysis-ready values;
- `check_na` counts the cells that look like a missing value.

Each source file is one Dafny module:
- `PyValues` and `PyText` are shared. They model Python values (`None`, exceptions, JSON, cells), `pool.map`, `filter`, slicing, `strip`, `lower`, `int()`/`str()` and `join`/`split`.
- `Fetcher` models the three copies of `get_request` as one retry loop with a trace of GETs and sleeps.
- `Batching` models list slicing and `np.arange` batch boundaries.
- `Validation` models the pydantic models of steam_sales/src/validation.py and their validators.
- `Crud` models `remove_duplicates_meta` as a loop, and the database as a class of append-only tables.
- `Scraping` models steam_sales/src/scraping.py: the page and batch loops as methods, the parsers as functions.
- `CollectMetadata`, `CollectSteamspyData` and `CollectSteamData` model the stand-alone collectors.
- `IdCollection` models the id_collection.py script: the page loop, the merge and the sort.
- `DataDownload` models data_download.py: the download directory (checkpoint, header, records) as a class and the batch loop as methods.
- `ExtraCol` models steam_sales/src/extra_col.py: the parsers, and the accumulate-and-flush loop as a method.
- `Cleaner` models steam_sales/src/cleaner.py: per-value transforms as functions, in-place DataFrame steps as methods of a `DataFrame` class.
- `NaCheck` models `is_na_like` and `check_na` from the two `utils.py` files.

The two `utils.py` files are identical; the `NaCheck` rows cite one or the other.

External parts are parameters of the model:
- The network is a function from a request key to the sequence of answers the server gives: `nat -> Response`, where the k-th GET gets the k-th answer.
- Sleeps are events in a ghost trace.
- `ast.literal_eval`, `json.loads`, `dateutil` and pandas' CSV/JSON decoding are function parameters (`eval`, `parse`, `decode`).
- The database is a `Database` object holding one sequence per table.

Where the code and its documentation disagree, the model follows the code:
- `get_index` does not fall back to 0 on a corrupt checkpoint file. Only a missing file gives 0, and `int()` on a bad first line raises ValueError (data_download.py:14-24).
- A 429 answer in `BaseFetcher.get_request` sleeps twice. It first sleeps `Retry-After` (or the current `wait_time`), then the backoff `wait_time` that every failed attempt sleeps. The defaults therefore sleep 4+4, 16+16, 64+64, 256+256 seconds.

## Model

| member | source | states |
|---|---|---|
| `Fetcher.GetRequest` | steam_sales/src/scraping.py:40-66 | the `while try_count < max_retries` loop returns exactly the result and trace of the reference recursion `Attempt` (a 200 returns its decoded body, None for a JSON `null` body; another non-429 status returns None; 429 and transport errors go round again with the wait multiplied) |
| `Fetcher.Decoded` | steam_sales/src/scraping.py:46 | `response.json()` is None exactly for a `null` body, and the body itself otherwise |
| `Fetcher.BaseFetcherGetRequest` | steam_sales/src/scraping.py:24-66 | with `BaseFetcher`'s policy: only KeyError (parameters without `appids`) or TypeError (no parameters) escape, from the give-up log line; the backoff sleeps are `wait_time·m^k`; at most `max_retries` GETs, none when `max_retries <= 0` |
| `Fetcher.MetadataGetRequest` | steam_sales/src/collect_metadata.py:13-41 | never raises; backoffs start at 1 s and grow ×4; at most `max_retries` GETs |
| `Fetcher.IdCollectionGetRequest` | id_collection.py:8-31 | only KeyError can escape (a 429 without `Retry-After`); every backoff sleep is 5 s; at most `max_retries` GETs |
| `Fetcher.RoundViews` | steam_sales/src/scraping.py:59-62 | a retried attempt issues exactly one GET and one backoff sleep of the current `wait_time` |
| `Fetcher.ScheduleAt` | steam_sales/src/scraping.py:62 | the i-th sleep of the backoff schedule is `wait·multiplier^i` |
| `Fetcher.AttemptsBounded` | steam_sales/src/scraping.py:40-42 | at most `max_retries` GETs, numbered consecutively; with `max_retries <= 0` nothing happens at all |
| `Fetcher.BackoffsFollowSchedule` | steam_sales/src/scraping.py:59-62 | the backoff sleeps of any call are a prefix of `wait, wait·m, wait·m², …`: `wait_time` is never reset within a call |
| `Fetcher.RaisesOnly` | steam_sales/src/scraping.py:64 | an exception escapes only as KeyError (missing required `Retry-After`, or `parameters['appids']` missing) or TypeError (`None['appids']`) |
| `Fetcher.StopsAtFinalAnswer` | steam_sales/src/scraping.py:44-53 | the first 200 returns its decoded body (None for `null`) and the first other non-429 status returns None; that GET is the last event, with no further request or sleep |
| `Fetcher.ExhaustsRetries` | steam_sales/src/scraping.py:42-66 | when every attempt is retryable there are exactly `max_retries` GETs and as many backoff sleeps, then the give-up outcome |
| `Fetcher.TransportErrorLikeRateLimit` | steam_sales/src/scraping.py:54-57 | replacing a retried 429 by an SSLError/RequestException changes neither the result, nor the GETs, nor the backoff schedule |
| `Fetcher.BaseFetcherAlwaysRateLimited` | steam_sales/src/scraping.py:47-62 | with the defaults and a 429 without `Retry-After` every time, the call sleeps 4,4,16,16,64,64,256,256 and, for SteamSpy parameters, raises KeyError |
| `Fetcher.MetadataAlwaysFailing` | steam_sales/src/collect_metadata.py:29-41 | with a network that always fails: 4 GETs, backoffs 1, 4, 16, 64, then None |
| `Fetcher.IdCollectionMissingRetryAfter` | id_collection.py:15-17 | a 429 without `Retry-After` raises KeyError right after the first GET |
| `Fetcher.IdCollectionRateLimitedRound` | id_collection.py:15-28 | a 429 with `Retry-After: s` sleeps s + 1 seconds and then 5 |
| `Batching.PySlice` | data_download.py:55 | Python's `xs[i:j]` for non-negative `i`: the plain slice when in range, clamped to the end, empty past it |
| `Batching.SliceSplit` | data_download.py:86-87 | slicing `[i, k)` is slicing `[i, j)` followed by `[j, k)` |
| `Batching.SlicesCover` | steam_sales/src/scraping.py:161-165 | the slices `xs[i:i+size]` for `i` in `range(0, len(xs), size)` concatenate back to `xs`; every slice is non-empty and has exactly `size` ids except possibly the last, which is shorter |
| `Batching.ArangeSteps` | data_download.py:77 | `np.arange(begin, end, step)` starts at `begin`, steps by `step`, stays below `end`, is empty iff `begin >= end`, and its last element is within one step of `end` |
| `Batching.BoundariesPartition` | data_download.py:77-78 | `arange(begin, end, bs) + [end]` strictly increases from `begin` to `end` in steps of exactly `bs` except the last, so it partitions `[begin, end)`; `begin >= end` gives `[end]`, with no batch |
| `Validation.ValidateTags` | steam_sales/src/validation.py:41-49 | `[]` becomes None, a dict or None passes unchanged, any other value is rejected |
| `Validation.ValidateScoreRank` | steam_sales/src/validation.py:51-59 | an int (or bool) becomes a string, a str or None passes unchanged, anything else is rejected |
| `Validation.ValidateReleaseDate` | steam_sales/src/validation.py:102-115 | a string goes to the date parser, whose failure gives None; None passes; every other value is rejected |
| `Validation.ValidatorsIdempotent` | steam_sales/src/validation.py:41-59 | running `validate_tags` or `validate_score_rank` on its own output gives the same output |
| `Validation.ScoreRankReadsBack` | steam_sales/src/validation.py:53-54 | the string an int score rank becomes parses back to the same int |
| `Validation.ReleaseDateRejectsInt` | steam_sales/src/validation.py:112-113 | an int release date is rejected, although the error message says ints are accepted |
| `Validation.ReqInt` | steam_sales/src/validation.py:20 | a required int field succeeds iff present and an int, and returns that int |
| `Validation.OptInt` | steam_sales/src/validation.py:33 | an optional int field defaults to None and otherwise returns the int supplied |
| `Validation.StrValue` | steam_sales/src/validation.py:11 | a string value is accepted iff it is a string within 255 characters when limited |
| `Validation.ReqStr` | steam_sales/src/validation.py:21-23 | a required string field returns the supplied string, within 255 characters where limited |
| `Validation.OptStr` | steam_sales/src/validation.py:35 | an optional string field defaults to None and otherwise returns the supplied string, within its limit |
| `Validation.GameMetaFromKwargs` | steam_sales/src/validation.py:9-11 | `GameMetaData(**kw)` succeeds iff `appid` is an int and `name` a string of at most 255 characters, and holds exactly those values |
| `Validation.GameMetaFromJson` | steam_sales/src/validation.py:14-15 | a list element validates only when it is an object whose `appid` and `name` are the record's |
| `Validation.GameMetaListFromJson` | steam_sales/src/validation.py:15 | a list validates iff every element does, giving one record per element, in order |
| `Validation.GameMetaListFromPage` | steam_sales/src/scraping.py:97 | `GameMetaDataList(games=page.values())`: a non-object page raises AttributeError, otherwise one record per value, in order |
| `Validation.GameMetaDumpRoundTrip` | steam_sales/src/validation.py:9-11 | validating the dump of a record with a name within the limit gives the record back |
| `Validation.ScoreRankField` | steam_sales/src/validation.py:24 | `score_rank` defaults to `""`, an explicit null is rejected, and the value is within 255 characters |
| `Validation.IntEntries` | steam_sales/src/validation.py:39 | a tag dictionary validates only when every value is an int, keeping key order |
| `Validation.TagsField` | steam_sales/src/validation.py:39-49 | the `tags` field runs `validate_tags` first, so `[]` becomes None |
| `Validation.GameDetailsFromKwargs` | steam_sales/src/validation.py:19-59 | `GameDetails(**kw)` yields a record that carries the supplied `appid`, keeps the string limits, and defaults `score_rank` to `""` |
| `Validation.GameDetailsCall` | steam_sales/src/scraping.py:127 | `GameDetails(**j)`: unpacking anything but an object raises TypeError, an object is validated as keyword arguments |
| `Validation.TagsJson` | steam_sales/src/validation.py:39 | a tag dictionary dumps to its keys with int values, in order |
| `Validation.GameDetailsDumpRoundTrip` | steam_sales/src/validation.py:19-39 | validating `model_dump()` of a record within the string limits gives the same record back |
| `Crud.Appids` | steam_sales/src/crud.py:26-27 | the appids of a list of records, position by position |
| `Crud.RemoveDuplicatesMeta` | steam_sales/src/crud.py:11-20 | the loop with `seen_appids` computes `Dedup(all_data, set(unique_games))` |
| `Crud.DedupKeys` | steam_sales/src/crud.py:12-18 | no output appid is a known one, output appids are pairwise distinct, and the output's keys are the input's keys minus the known ones |
| `Crud.DedupSubsequence` | steam_sales/src/crud.py:15-18 | the output is an order-preserving subsequence of the input |
| `Crud.DedupFirstOccurrence` | steam_sales/src/crud.py:15-18 | a record survives iff it is the first occurrence of an appid that is not known |
| `Crud.DedupKeepsFresh` | steam_sales/src/crud.py:15-18 | input with distinct, unknown appids passes unchanged |
| `Crud.DedupDropsKnown` | steam_sales/src/crud.py:16 | input whose appids are all known yields nothing |
| `Crud.DedupIdempotent` | steam_sales/src/crud.py:11-20 | deduplicating again changes nothing, and deduplicating against the known keys plus the output's own keys yields nothing |
| `Crud.KeySetAppend` | steam_sales/src/crud.py:26-29 | the key set of a concatenation is the union of the key sets |
| `Crud.IngestKeepsKeysUnique` | steam_sales/src/crud.py:23-35 | appending the deduplicated request keeps the table's appids unique, and afterwards every requested appid is in the table |
| `Crud.Database.constructor` | steam_sales/src/crud.py:23-53 | a fresh database has empty tables and a valid key constraint |
| `Crud.Database.BulkIngestMetaData` | steam_sales/src/crud.py:23-39 | appends exactly the request deduplicated against the stored appids, returns those rows, keeps the appids unique and leaves the other tables alone |
| `Crud.Database.BulkIngestData` | steam_sales/src/crud.py:42-53 | appends one row per record, in order, with no dedup, and returns them |
| `Crud.Database.BulkIngestSteamspyData` | steam_sales/src/scraping.py:165 | the batch is logged, and nothing else changes |
| `Crud.Database.BulkIngestTempData` | steam_sales/src/extra_col.py:140 | the buffer is logged, and nothing else changes |
| `Crud.Database.LogLastRunTime` | steam_sales/src/scraping.py:100-101 | the scraper name is logged, and nothing else changes |
| `Scraping.ExhaustedSteamSpyCallRaises` | steam_sales/src/scraping.py:64 | after four retryable failures a SteamSpy call, whose parameters have no `appids`, raises KeyError instead of returning None |
| `Scraping.PageOf` | steam_sales/src/scraping.py:92-97 | a None fetch, a 200 `null` body included, skips the page; a raised fetch propagates; a page fails only by AttributeError (a body that is not an object) or validation |
| `Scraping.MetadataPagesKeepKeys` | steam_sales/src/scraping.py:90-98 | the page loop keeps the metadata table's appids unique and only adds to it |
| `Scraping.MetadataPagesSkipFailures` | steam_sales/src/scraping.py:90-98 | the ingested pages increase, each yielded games, and a completed run ingested every page that yielded games |
| `Scraping.PagesStep` | steam_sales/src/scraping.py:90-98 | one page of the loop: an exception ends the run, None continues, games are deduplicated into the table |
| `Scraping.SteamSpyMetadataFetcherRun` | steam_sales/src/scraping.py:85-103 | the loop leaves the table the page recursion predicts, keeps it valid, and logs the run as `meta` only when it completes |
| `Scraping.NullPageSkipped` | steam_sales/src/scraping.py:92-95 | a page answered 200 with a `null` body fetches None and is skipped: the run goes on to the next page with the table unchanged |
| `Scraping.NullPagesIngestNothing` | steam_sales/src/scraping.py:90-98 | when every remaining page has a `null` body, the run ingests nothing and completes, so it is logged as `meta` |
| `Scraping.ParseSteamspyRequest` | steam_sales/src/scraping.py:113-127 | a None fetch makes `GameDetails(**None)` raise TypeError; a result is the validation of a fetched body |
| `Scraping.FetchAndProcessAppData` | steam_sales/src/scraping.py:129-145 | the pool's map: one record per id, in input order, or the first id's exception |
| `Scraping.IngestBatchesAll` | steam_sales/src/scraping.py:161-165 | batch by batch ingestion succeeds iff parsing every id does, and then ingests every record exactly once, in order; an exception keeps the batches before it |
| `Scraping.IngestBatchesStep` | steam_sales/src/scraping.py:162-165 | one batch: its exception ends the run, otherwise it is ingested before the next batch is fetched |
| `Scraping.IngestSteamspyBatches` | steam_sales/src/scraping.py:161-165 | the batch loop ingests what the batch recursion predicts and counts its batches |
| `Scraping.SteamSpyFetcherRun` | steam_sales/src/scraping.py:147-167 | a zero batch size raises ValueError from `range`, a negative one ingests nothing, otherwise the batches over the slices are ingested |
| `CollectMetadata.MetadataPage` | steam_sales/src/collect_metadata.py:50-56 | a None answer, a 200 `null` body included, fetches None; a page fails only by AttributeError or validation, since this `get_request` never raises |
| `CollectMetadata.MainStep` | steam_sales/src/collect_metadata.py:49-57 | one page: None stops the loop (`break`), games are ingested before the next page is requested |
| `CollectMetadata.MainIngestsPrefix` | steam_sales/src/collect_metadata.py:48-57 | the ingested pages are the consecutive pages from 0, and a completed run stopped at a None page or at page 100 |
| `CollectMetadata.RunMain` | steam_sales/src/collect_metadata.py:44-57 | the loop leaves the metadata table the page recursion predicts, with unique appids |
| `CollectMetadata.NullPageEndsRun` | steam_sales/src/collect_metadata.py:50-54 | a page answered 200 with a `null` body ends the loop cleanly (`break`), with nothing ingested from it or after it |
| `CollectSteamspyData.ParseSteamspyRequest` | steam_sales/src/collect_steamspy_data.py:15-20 | a None fetch raises TypeError instead of being filtered; a result is the validation of the fetched body |
| `CollectSteamspyData.FetchAndProcessAppData` | steam_sales/src/collect_steamspy_data.py:23-29 | one record per id, in input order, or the first id's exception |
| `CollectSteamspyData.BatchCountFrom` | steam_sales/src/collect_steamspy_data.py:45-47 | from position `i` there are `ceil((n - i) / 1000)` slices |
| `CollectSteamspyData.BatchCount` | steam_sales/src/collect_steamspy_data.py:41-42 | `num_batches = (n + 999) // 1000` is the number of slices |
| `CollectSteamspyData.RunMain` | steam_sales/src/collect_steamspy_data.py:32-51 | ingests the batches over the slices, and a completed run ends with `current_batch == num_batches` |
| `CollectSteamData.SteamRequest` | steam_sales/src/collect_steam_data.py:9-20 | returns `data` iff the answer for `str(appid)` has a true `success`, None when `success` is false, TypeError for a None fetch |
| `CollectSteamData.StoreSteamRequest` | steam_sales/src/collect_steam_data.py:9-20 | through the store, only KeyError or TypeError can escape |
| `CollectSteamData.DictLiteral` | steam_sales/src/collect_steam_data.py:24-52 | a dictionary literal evaluates iff every read succeeds, keeping entry order, and otherwise raises the first failing read's exception |
| `CollectSteamData.GameCall` | steam_sales/src/validation.py:72-100 | `Game(**kw)` fails validation iff a field without a default is missing |
| `CollectSteamData.ParseGameData` | steam_sales/src/collect_steam_data.py:23-54 | a failing read propagates its exception before `Game` is called |
| `CollectSteamData.GameDataTable` | steam_sales/src/collect_steam_data.py:25-50 | `appid` reads `steam_appid`, the two optional reads have their defaults, and three entries are nested reads |
| `CollectSteamData.GameDataNames` | steam_sales/src/collect_steam_data.py:24-52 | no entry is named `pc_platform` or `coming_soon` |
| `CollectSteamData.GameDataAt` | steam_sales/src/collect_steam_data.py:24-52 | entry k of `game_data` is the value its read produced |
| `CollectSteamData.GameDataAppid` | steam_sales/src/collect_steam_data.py:25 | `appid` is the entry's `steam_appid` |
| `CollectSteamData.NestedRead` | steam_sales/src/collect_steam_data.py:46 | a successful `data[key][inner]` reads an object inside an object |
| `CollectSteamData.GameDataNestedValues` | steam_sales/src/collect_steam_data.py:46-50 | `metacritic`, `recommendations` and `achievements` are the nested `score`/`total` values |
| `CollectSteamData.GameDataDefaults` | steam_sales/src/collect_steam_data.py:30-31 | a missing `controller_support` becomes None and a missing `dlc` becomes `[]` |
| `CollectSteamData.MissingKeyRaises` | steam_sales/src/collect_steam_data.py:24-52 | every other key of the literal is mandatory: without it `parse_game_data` raises |
| `CollectSteamData.ParseGameDataAlwaysRaises` | steam_sales/src/collect_steam_data.py:54 | `parse_game_data` never returns: the literal lacks `pc_platform` and `coming_soon`, which `Game` requires |
| `IdCollection.AppidSet` | id_collection.py:42 | `set(existing_data["appid"])` holds exactly the appids of the rows |
| `IdCollection.NewRowsFilter` | id_collection.py:64 | the new rows are exactly the fetched rows whose appid is not an existing one |
| `IdCollection.IdPage` | id_collection.py:55-61 | with the decoding of a body taken as a total parameter, a page fails only by KeyError (a 429 without `Retry-After`); a None answer skips it |
| `IdCollection.NullPageSkipped` | id_collection.py:55-59 | a page answered 200 with a `null` body fetches None and is skipped, the collection going on with the next page unchanged |
| `IdCollection.CollectNeverReadds` | id_collection.py:42-68 | no appid of the existing file is ever added again, and only non-empty lists are appended |
| `IdCollection.CollectKeepsRepeats` | id_collection.py:64-68 | `existing_appids` is not updated, so a new row on two pages is appended twice |
| `IdCollection.CollectAdvance` | id_collection.py:63-68 | one page: its new rows are appended when there are some, and the count grows by their number |
| `IdCollection.CollectPages` | id_collection.py:49-70 | the page loop ends as the run over pages 0 to 74 does, and on success `all_data` and `new_data_count` are that run's appended lists and their total length |
| `IdCollection.InsertPermutes` | id_collection.py:76 | inserting adds exactly the row |
| `IdCollection.InsertSorted` | id_collection.py:76 | inserting into rows sorted by appid keeps them sorted |
| `IdCollection.SortByAppidSpec` | id_collection.py:76 | the rows after `sort_values("appid")` are sorted by appid and a permutation of the input |
| `IdCollection.Script` | id_collection.py:34-87 | `new_data_count` is the number of rows appended, and the file is written only when new rows exist, as the existing and new rows sorted by appid |
| `DataDownload.FirstLine` | data_download.py:19 | `readline()` returns a prefix of the file |
| `DataDownload.FirstLineOf` | data_download.py:19 | the first line of `line + "\n" + rest` is `line + "\n"` |
| `DataDownload.GetIndex` | data_download.py:14-24 | a missing file gives 0, and the only exception that escapes is the ValueError of `int()` on the first line |
| `DataDownload.CheckpointRoundTrip` | data_download.py:106-110 | a checkpoint written with `print(index, file=f)` reads back as the same index |
| `DataDownload.ParseSteamRequest` | data_download.py:36-49 | an unsuccessful answer gives the placeholder `{"name": name, "steam_appid": appid}`, a successful one its `data`, and a None fetch TypeError |
| `DataDownload.GetAppData` | data_download.py:52-66 | the loop calls the parser once per row of `app_list[start:stop]`, in order, and returns one entry per row, or the first exception |
| `DataDownload.MapPyStep` | data_download.py:55-62 | one iteration of that loop: a raising parser call ends it, a result is appended |
| `DataDownload.CheckpointsIncrease` | data_download.py:91-110 | over rising boundaries the checkpoints strictly increase, each after the first boundary and at most the last |
| `DataDownload.DownloadWritesEveryRow` | data_download.py:83-104 | batching changes nothing about what is parsed: the appended batches concatenate to the parse of the whole range |
| `DataDownload.DownloadCheckpoints` | data_download.py:74-110 | the checkpoints strictly increase and lie in `(begin, end]`, with `end == -1` meaning `len(app_list) + 1` |
| `DataDownload.DownloadRows` | data_download.py:74-104 | from `0 <= begin <= end` the run succeeds iff parsing every row of `[begin, end)` does, and then appends exactly those records, in order |
| `DataDownload.DownloadUnfold` | data_download.py:86-110 | one batch: an exception ends the run, an empty batch writes nothing, a non-empty one is appended and then checkpointed |
| `DataDownload.DownloadAdvance` | data_download.py:89-110 | the loop state after a batch that parses matches the rest of the run |
| `DataDownload.DownloadStops` | data_download.py:89 | a batch that raises ends the run with the records written so far |
| `DataDownload.DownloadEnds` | data_download.py:83 | past the last boundary the run has succeeded with everything written |
| `DataDownload.DownloadDir.constructor` | data_download.py:27-33 | the directory holds the given checkpoint file, header and records |
| `DataDownload.DownloadDir.PrepareDataFile` | data_download.py:27-33 | index 0 rewrites the data file with the header only; any other index leaves it alone |
| `DataDownload.DownloadDir.WriteBatch` | data_download.py:91-110 | the batch is appended, then the checkpoint file holds exactly `stop` |
| `DataDownload.DownloadDir.ProcessBatches` | data_download.py:69-126 | appends exactly the records the reference run writes, `apps_written` is their number, and the checkpoint file holds the last non-empty batch's `stop`, unchanged when none |
| `DataDownload.DownloadDir.RunBatches` | data_download.py:83-124 | the loop over the boundaries keeps records, count and checkpoint in step with the reference run |
| `DataDownload.Script` | data_download.py:183-198 | a corrupt checkpoint raises and leaves the header, the records and the checkpoint as they were; otherwise index 0 writes the header `columns` and empties the data file, then `num_records` rows (all with `num_records == 0`) are downloaded in batches of 5 and the checkpoint ends at the last batch that wrote rows |
| `ExtraCol.ParseGameData` | steam_sales/src/extra_col.py:49-72 | a record of `steam_appid`, `pc_requirements`, `platforms` and `release_date.date` exactly when all four are there; another missing key gives None, but a missing `steam_appid` is looked up again in the KeyError handler and raises KeyError; a non-object, or a `release_date` that is not an object, raises TypeError |
| `ExtraCol.ParseSteamRequest` | steam_sales/src/extra_col.py:21-46 | a record is returned iff the answer is truthy, `success` is true, parsing gives a record and its appid equals the requested one; otherwise None, or the parser's exception |
| `ExtraCol.StoreRequest` | steam_sales/src/extra_col.py:31-46 | through the store, a returned record always has the requested appid |
| `ExtraCol.FetchAndProcessAppData` | steam_sales/src/extra_col.py:75-92 | None iff the batch is empty; otherwise it succeeds iff every id does |
| `ExtraCol.FetchAndProcessMembers` | steam_sales/src/extra_col.py:85-91 | the list holds exactly the records some id yielded, and when all yield one it is one per id in input order |
| `ExtraCol.FetchAndProcessResults` | steam_sales/src/extra_col.py:87-89 | a successful batch is `filter(None, results)` of its ids' own results, in input order |
| `ExtraCol.FetchAndProcessSplit` | steam_sales/src/extra_col.py:87-89 | the list for two id batches joined is the first batch's list followed by the second's |
| `ExtraCol.FetchAndProcessOne` | steam_sales/src/extra_col.py:87-89 | a one-id batch gives that id's record, or the empty list when it yields None |
| `ExtraCol.Extend` | steam_sales/src/extra_col.py:136-137 | a truthy batch extends the buffer, a None or empty one leaves it |
| `ExtraCol.SinkConserves` | steam_sales/src/extra_col.py:132-141 | nothing is duplicated or reordered: the flushed lists followed by the final buffer are what the batches delivered |
| `ExtraCol.SinkFlushSizes` | steam_sales/src/extra_col.py:139-141 | every flushed list holds at least `batch_size*bulk_factor` records, and the final buffer stays below it |
| `ExtraCol.SinkResult` | steam_sales/src/extra_col.py:132-134 | the run ends normally iff no batch raises |
| `ExtraCol.SinkLosesShortRun` | steam_sales/src/extra_col.py:132-143 | with the defaults, a run whose only batch yields one record never ingests it |
| `ExtraCol.SinkStep` | steam_sales/src/extra_col.py:133-141 | one batch: an exception ends the run, a buffer reaching the threshold is ingested and emptied, a smaller one is kept |
| `ExtraCol.Ordered` | steam_sales/src/extra_col.py:124-125 | with `reverse` the ids are processed last to first |
| `ExtraCol.SinkTempBatches` | steam_sales/src/extra_col.py:130-141 | the loop flushes what the sink recursion predicts and leaves its final buffer unflushed |
| `ExtraCol.RunMain` | steam_sales/src/extra_col.py:96-143 | the ids (reversed when asked) are sliced by `batch_size` and fed through the sink with threshold `batch_size*bulk_factor`; a zero batch size raises ValueError |
| `Cleaner.Nullify` | steam_sales/src/cleaner.py:74-75 | a cell is either kept or becomes None |
| `Cleaner.NullifyExact` | steam_sales/src/cleaner.py:74-75 | a cell changes iff it is one of the 12 listed strings; replacing twice is replacing once |
| `Cleaner.NullifyKeepsOtherSpellings` | steam_sales/src/cleaner.py:74 | unlisted spellings (`NULL`, `Null`, `nan`, `n/A`, `[]`, two spaces) and non-strings survive |
| `Cleaner.NullifyRow` | steam_sales/src/cleaner.py:75 | a row keeps its columns |
| `Cleaner.Literals` | steam_sales/src/cleaner.py:92 | string literals of the given texts, position by position |
| `Cleaner.JoinTruthy` | steam_sales/src/cleaner.py:94 | `";".join(filter(None, items))` fails only by TypeError, on a truthy non-string |
| `Cleaner.SafeLiteralEval` | steam_sales/src/cleaner.py:78-97 | an unparsable value becomes `""`, a non-list literal returns the value unchanged, and a list is joined |
| `Cleaner.SafeLiteralEvalSplits` | steam_sales/src/cleaner.py:91-94 | a list of strings without `;` comes back from its joined cell as its non-empty strings, in order |
| `Cleaner.JoinedPartsSplit` | steam_sales/src/cleaner.py:94 | splitting the join of non-empty parts without `;` gives the parts back |
| `Cleaner.JoinTruthyLiterals` | steam_sales/src/cleaner.py:94 | on string literals the join is the `;`-join of the non-empty strings |
| `Cleaner.FilterStrings` | steam_sales/src/cleaner.py:94 | `filter(None, ...)` on string literals keeps exactly the non-empty strings, in order |
| `Cleaner.AgeBinSpec` | steam_sales/src/cleaner.py:217-220 | age binning is right-inclusive: category k exactly for ages in `(cut[k], cut[k+1]]`, so 0→0, 1–3→3, 4–7→7, 8–12→12, 13–16→16, 17–1000→18, and no category outside `(-1, 1000]` |
| `Cleaner.AgeBinMonotone` | steam_sales/src/cleaner.py:217-220 | an older age never gets a lower category |
| `Cleaner.AgeCell` | steam_sales/src/cleaner.py:220 | `pd.cut` raises on a string age, and only there |
| `Cleaner.ProcessAge` | steam_sales/src/cleaner.py:207-221 | a frame without `required_age` raises KeyError; otherwise the null ages are dropped and each remaining row is binned |
| `Cleaner.ProcessAgeRows` | steam_sales/src/cleaner.py:219-220 | one row per non-null age survives, in order, with its category and all other columns unchanged; it fails only on a string age |
| `Cleaner.TruthyKeys` | steam_sales/src/cleaner.py:226 | exactly the keys whose value is truthy |
| `Cleaner.ParsePlatforms` | steam_sales/src/cleaner.py:223-226 | a decoded non-object has no `keys` and raises AttributeError |
| `Cleaner.ParsePlatformsSplits` | steam_sales/src/cleaner.py:226 | the joined platforms split back into exactly the truthy keys, in key order |
| `Cleaner.EnglishFlag` | steam_sales/src/cleaner.py:234 | a non-string cell has no `lower` and raises AttributeError |
| `Cleaner.EnglishFlagSpec` | steam_sales/src/cleaner.py:234 | the flag is 1 iff "english" occurs in the lower-cased text, else 0, and letter case does not matter |
| `Cleaner.ControllerFlag` | steam_sales/src/cleaner.py:285 | 1 iff the value is exactly `"full"`, else 0 |
| `Cleaner.ControllerRow` | steam_sales/src/cleaner.py:285 | a row keeps its columns |
| `Cleaner.ProcessDevelopersAndPublishers` | steam_sales/src/cleaner.py:238-252 | a frame missing either column raises KeyError; otherwise it succeeds iff both fields of every selected row evaluate, and each output row is its selected row with `developer` and `publisher` evaluated, the raw columns dropped and the rest unchanged |
| `Cleaner.DevPubSurvivors` | steam_sales/src/cleaner.py:241-248 | a row passes iff both fields are non-null, publishers is not `[""]` or `[" "]`, and neither field holds `["n/a"|"na"|"null"]` or a `;` |
| `Cleaner.DevPubSelections` | steam_sales/src/cleaner.py:241-248 | the five selections applied one after the other keep the same rows, in the same order, as the single combined selection |
| `Cleaner.DevPubRowEvaluated` | steam_sales/src/cleaner.py:249-251 | a row holding both fields is processed iff both evaluations return, into its evaluated row |
| `Cleaner.NaListLiteralAnyCase` | steam_sales/src/cleaner.py:240 | the pattern matches in any letter case, anywhere in the field |
| `Cleaner.NaListLiteralWholeWord` | steam_sales/src/cleaner.py:240 | a quoted word that only starts like one of the words does not match |
| `Cleaner.ParsePrice` | steam_sales/src/cleaner.py:254-259 | a string is evaluated, a non-string that is not None raises ValueError |
| `Cleaner.ParsePriceMissing` | steam_sales/src/cleaner.py:258-259 | `parse_price(None)` is `{"currency": "USD", "initial": -1}` |
| `Cleaner.DataFrame.constructor` | steam_sales/src/cleaner.py:61 | a frame of the given columns and rows |
| `Cleaner.DataFrame.ProcessNull` | steam_sales/src/cleaner.py:64-76 | in place, every cell holding one of the tokens becomes None; columns and row count are kept |
| `Cleaner.DataFrame.ProcessLanguage` | steam_sales/src/cleaner.py:232-236 | rows with null languages are dropped in place; then each row gets its `english` flag and loses `supported_languages`; a non-string language raises after the drop; a frame without the column raises KeyError unchanged |
| `Cleaner.DataFrame.ProcessController` | steam_sales/src/cleaner.py:284-286 | in place, `controller_support` becomes its 0/1 flag in every row and nothing else changes; a frame without the column raises KeyError unchanged |
| `Cleaner.EnglishRowFlag` | steam_sales/src/cleaner.py:233-235 | after the step every row carries a 0/1 `english` flag that says whether its languages mention English, and no `supported_languages` |
| `NaCheck.NaLikeUpperCase` | steam_sales/src/utils.py:41-44 | "N/A" looks missing |
| `NaCheck.NaLikeMixedCase` | steam_sales/steam_etl/utils.py:41-44 | "nA" looks missing |
| `NaCheck.NaLikePadded` | steam_sales/src/utils.py:44 | " Null\t" looks missing: whitespace is stripped before matching |
| `NaCheck.NotNaLikeNan` | steam_sales/src/utils.py:41-44 | the match is of the whole text: "nan" does not look missing |
| `NaCheck.NotNaLikeNone` | steam_sales/steam_etl/utils.py:41-44 | "none" does not look missing |
| `NaCheck.NotNaLikeLonger` | steam_sales/src/utils.py:41-44 | "n/a x" does not look missing |
| `NaCheck.NotNaLikeEmpty` | steam_sales/steam_etl/utils.py:44 | an empty or all-whitespace text does not look missing |
| `NaCheck.IsNaLikeIgnoresCase` | steam_sales/src/utils.py:41 | lower-casing a text never changes whether it looks missing |
| `NaCheck.LowerStrip` | steam_sales/steam_etl/utils.py:44 | lower-casing keeps whitespace where it is, so it commutes with `strip` |
| `NaCheck.IsNaLikeIgnoresSpace` | steam_sales/steam_etl/utils.py:44 | surrounding a text with whitespace never changes whether it looks missing |
| `NaCheck.StripSurrounded` | steam_sales/src/utils.py:44 | `strip` removes any whitespace put around a text |
| `NaCheck.NonStringsAreNotNaLike` | steam_sales/steam_etl/utils.py:43-44 | `str` of None, a bool or an int never looks missing |
| `NaCheck.CheckNa` | steam_sales/src/utils.py:29-51 | a missing column raises KeyError; otherwise the rows returned are the rows whose cell looks missing, in their order and with their repeats, and the count is their number |
| `PyValues.MapPyElementwise` | steam_sales/src/scraping.py:142 | `pool.map` as a sequential map: it succeeds iff every call does, with one result per input in order, and otherwise raises some call's exception |
| `PyValues.MapPyAppend` | steam_sales/src/scraping.py:142 | mapping a concatenation maps the first part and then the second |
| `PyValues.SomesAppend` | steam_sales/src/extra_col.py:89 | `filter(None, …)` keeps the order: on a concatenation it filters each part in turn, keeps a present value and drops None |
| `PyValues.SomesMember` | steam_sales/src/extra_col.py:89 | a value is kept iff it was present |
| `PyValues.FilterThenFilter` | steam_sales/src/cleaner.py:241-248 | selecting twice in a row selects by both conditions at once |
| `PyValues.Filter` | steam_sales/src/utils.py:49 | a boolean mask keeps exactly the rows it selects |
| `PyValues.CountIsFilterLength` | steam_sales/src/utils.py:46-49 | the mask's `sum()` is the number of rows it selects |
| `PyValues.FilterAppend` | steam_sales/src/utils.py:49 | selection keeps order: selecting from a concatenation selects from each part in turn |
| `PyValues.Index` | steam_sales/src/collect_steam_data.py:14-17 | `j[key]` on an object gives the entry or KeyError; on anything else TypeError |
| `PyValues.GetOr` | steam_sales/src/collect_steam_data.py:30-31 | `d.get(key, default)` gives the default for a missing key; a non-object has no `get` |
| `PyValues.Kwargs` | steam_sales/src/scraping.py:127 | `**d` passes exactly the object's keys, each with its value |
| `PyText.IntRoundTrip` | data_download.py:19 | `int(str(i))` is `i` |
| `PyText.SplitJoin` | steam_sales/src/cleaner.py:94 | splitting a `;`-join of parts without `;` gives the parts back |
| `PyText.HasSubstringAt` | steam_sales/src/cleaner.py:234 | `pat in s` holds iff `pat` occurs at some position of `s` |

## Left out

- HTTP, JSON decoding, sleeping, logging, printing, tqdm and typer are not modelled. Answers are an input function, and sleeps are ghost events in the trace.
- `multiprocessing.Pool` is modelled as a sequential map. The first exception in input order is the one that propagates.
- A malformed `Retry-After`, such as the HTTP-date form, makes `int()` raise ValueError. It is not modelled: the header is a `nat` or absent.
- SQLAlchemy, the SQL query files, `model.py`, `db.py`, `bulk_save_objects` and `commit` are not modelled. Each table is a sequence that the ingest methods append to, and a query result is a parameter.
- `bulk_ingest_steamspy_data`, `bulk_ingest_temp_data`, `log_last_run_time`, `LastRun` and `TempDetails` are not defined in the files modelled. They are modelled as logs of what they are handed, and `TempDetails` as a record of the four values it is given, with no validation of its own.
- `check_na` prints the count and returns only the rows. `NaCheck.CheckNa` returns the count alongside the rows instead of printing it.
- The `log_last_run` decorator in utils.py is not modelled. It only calls `log_last_run_time`.
- The pandas and CSV file I/O is not modelled. This covers `read_csv`, `to_csv`, DictWriter serialisation, the `extrasaction="ignore"` column projection, quoting and the text encoding. The data file is a sequence of records; the checkpoint file is its text.
- IdPage: id lists are decoded into rows by the total `decode` parameter. `DataFrame.from_dict(orient="index")[["appid", "name"]]` is not modelled, nor its failures: a body that is not an object, or a page without `appid` or `name`, raises in pandas.
- Floats are not modelled. This covers `userscore`, the currency rates, `convert_to_usd`, `process_price`, the cents ÷100 step, SteamSpy owners ÷1e6, NaN cells and the timing/ETA statistics of `process_batches`.
- `process_platforms` is not modelled as a frame step; `parse_platforms` is. `process_price` is left out with the floats; `parse_price` is modelled.
- `process_categories_and_genres`, `process_dlc`, `process_requirement` and the rest of the cleaner's steps are not modelled.
- `SteamSpyCleaner.process_owners` and `rename` cannot run as written: they are declared without `self` but called as bound methods. They are not modelled.
- `ast.literal_eval`, `json.loads`, `dateutil.parser.parse` and BeautifulSoup are parameters (`eval`, `parse`), so their own behaviour is not modelled.
- Pydantic's lax coercions are not modelled: numeric strings to ints, ints to floats, and so on. Fields are checked by strict JSON type. `HttpUrl`, `datetime` and the list/dict types of `Game` are not checked beyond presence.
- A JSON object is a sequence of key/value pairs, and lookups find the first occurrence of a key. Duplicate keys, where Python keeps the last, are not modelled.
- Python's `int()` also accepts underscores between digits and non-ASCII digits. `PyText.ParseInt` accepts neither, so `DataDownload.GetIndex` raises on them.
- `Lower` lower-cases ASCII letters only. The characters that Python's case folding maps onto `n`, `a`, `l` or `english` are all ASCII, so `is_na_like` and the `english` flag are unaffected.
- IdCollection.SortByAppidSpec: pandas sorts with an unstable quicksort. The model sorts stably, so rows with equal appids may appear in a different order than in the source.
- DataDownload.DownloadDir.ProcessBatches: requires a positive `batchsize`. With zero, `np.arange` raises, and with a negative step the boundaries run the other way; neither is modelled.
- Scraping.IngestSteamspyBatches, ExtraCol.SinkTempBatches: require a positive batch size. Their callers `SteamSpyFetcherRun`, `CollectSteamspyData.RunMain` and `ExtraCol.RunMain` model zero (ValueError from `range`) and negative sizes (no batch). `CollectSteamspyData.RunMain` uses the constant 1000.
- Cleaner.ProcessAge and the other frame functions take a frame whose rows all have the same columns. A missing column raises KeyError at the frame level only.
- In pandas versions before 2.x, `df.replace(list, None)` pads values forward instead of writing None. The model follows the documented replacement by None.
- `Cleaner.AgeCell` treats `pd.cut` on booleans as 0 and 1, and on strings as an error. Categorical dtypes and float ages are not modelled.
- A network that gives different answers to the same request key in different calls is not modelled. Each key always gets the same answer sequence.
