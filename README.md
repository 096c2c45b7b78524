# omg-monitor core in Dafny

This project models the data path of omg-monitor. omg-monitor feeds uptime and metric
samples to a NuPIC anomaly-detection model. The model covers:

- **The smoothing window** (`Window`, `BaseStream`). `deque([0.0] * W, maxlen=W)` becomes a
  zero-filled `seq<real>` of constant length. `appendleft` puts the newest sample at index 0
  and drops the oldest from the end. The window mean is what every adapter feeds to the
  model. `_scale` multiplies the last slot, which is the *oldest* sample.
- **Watermark de-duplication** (`Watermark`). It is shared by the Pingdom, Librato and legacy
  stream adapters (`Pingdom`, `Libratometrics`, `LegacyStream`) and by the stand-alone loop
  of `monitor.py` (`MonitorRun`).
  - A fetched batch is scanned in order.
  - A record is processed only when its time is strictly newer than `servertime`.
  - Processing a record advances `servertime`, pushes the raw sample, and emits the record
    with the window mean attached.
  - Historic loading replays results oldest first without the filter.
  - Each adapter method is imperative Dafny: a class holding the state, and a loop proved
    equal to the `Scan`/`Load` specification functions. The `Watermark` lemmas then prove
    what those functions guarantee: emitted times strictly increase, the final watermark is
    the maximum, there is one push per emitted item, and each value is the mean just after
    its push.
- **The multi-process launcher** (`RunMonitor`). It covers stream-class name derivation,
  credential collection, and the rule that selects the configured streams that are also
  available.
- **The push-mode registry** of the HTTP server (`Registry`). It holds three dictionaries
  keyed by check id. On top of them it models:
  - lazy get-or-create with a zero-filled window;
  - the shallow default-config merge;
  - removal;
  - idle garbage collection with a strict timeout;
  - the smoothing step of a POST.

Each external input is a parameter:

- Network answers (Pingdom, Librato) are sequences, or `None` for a failed request.
- The clock is a `now` argument.
- The NuPIC model is the function `model`, from everything fed so far to its answer.
- Whether a redis write succeeds is the function `stored`.

Averages use real arithmetic. The Python 2 integer division that the legacy code actually
performs is modelled separately in `Py2Arith` (see Findings).

## Model

| member | source | states |
|---|---|---|
| Values.Truncate | monitor/monitor.py:146-151 | `%d` of a float truncates toward zero: the result is within one of x, on x's side of zero |
| Values.IntOf | monitor/run_monitor_dyn.py:49 | `int()` of a JSON value: ints unchanged, booleans 1 or 0, floats truncated toward zero, None and objects raise TypeError; a string converts exactly when it is a decimal literal up to surrounding blanks, to the number `ParseInt` reads, and otherwise raises ValueError |
| Values.ParseIgnoresBlanks | monitor/run_monitor_dyn.py:49 | blanks (space, tab, newline, vertical tab, form feed, carriage return) before and after a number do not change what `int()` reads |
| Values.PaddedTwelve | monitor/run_monitor_dyn.py:49 | `int(" 12\n")` is 12 |
| Values.DecimalStringRoundTrip | monitor/streams/pingdom.py:124 | `str()` of a check id reads back with `int()` to the same id |
| Values.DecimalStringInjective | monitor/streams/pingdom.py:124 | distinct check ids give distinct `str()` ids |
| Window.Mean | monitor/streams/base.py:86-89 | the mean is 0.0 on an empty window, else mean × length = sum |
| Window.PushLeftDropsOldest | monitor/streams/base.py:47 | `appendleft` on a full window keeps its length, puts x at index 0 and drops exactly the last (oldest) element |
| Window.PushAllAt | monitor/streams/base.py:47 | after pushes xs, slot k holds the k-th newest push, or the original slot k - \|xs\| once the pushes run out |
| Window.OldestSlotAfterPushes | monitor/streams/base.py:95 | the last slot of a W-window holds the W-th newest push, or 0.0 when fewer than W pushes happened |
| Window.ReverseAt | monitor/streams/pingdom.py:59-60 | `appendleft` of a page into an empty deque yields the page reversed: element k is the page's element n-1-k |
| Window.MeanWithin | monitor/streams/base.py:89 | the window mean lies between the smallest and largest slot bounds |
| Window.MeanOfConstantPushes | monitor/streams/base.py:86-89 | after k pushes of v into a zero-filled W-window, the mean is v·min(k,W)/W |
| Window.ConstantPushesFill | monitor/streams/base.py:47 | after k pushes of v, the first min(k,W) slots hold v and the rest 0.0 |
| Window.MeanSettles | monitor/streams/base.py:86-89 | once k ≥ W constant pushes of v have happened, the mean is exactly v |
| BaseStream.WindowCapacity | monitor/streams/base.py:44-47 | a non-negative int builds a window of that length and a bool one of length 1 or 0; a negative int raises ValueError; any other value (float, str, None, object) raises TypeError |
| BaseStream.Normalize | monitor/streams/base.py:36-42 | `moving_average` and `scale` are kept with their factor; any other transform becomes `scale` with factor 1 |
| BaseStream.ParseStreamConfigAsWritten | monitor/streams/base.py:26-47 | `__init__` reads id, name, scaling_factor, transform, moving_average_window in turn: the first missing key raises the KeyError naming it; with all keys present, an invalid window raises the error `deque` gives it; success means all keys present and a valid window |
| BaseStream.ParseStreamConfig | monitor/streams/base.py:36-42 | with scaling_factor and transform optional, a config without transform gets `scale` with factor 1 (the documented default) |
| BaseStream.ParseAgreesWhenKeysPresent | monitor/streams/base.py:36-37 | when both optional keys are present, the defaulting parse and the original agree |
| BaseStream.ScaleReadsLastSlot | monitor/streams/base.py:92-95 | `_scale` depends only on the last slot of the window |
| BaseStream.ScaleIgnoresNewest | monitor/streams/base.py:95 | after `appendleft(x)`, `_scale` does not depend on x: it reads the slot that was second-to-last before the push |
| BaseStream.ScaleLagsByWindow | monitor/streams/base.py:92-95 | after pushes xs into a zero W-window, `_scale` is 0.0 for fewer than W pushes and xs[\|xs\|-W]·f otherwise: it lags W samples behind |
| BaseStream.ScaleByOne | monitor/streams/base.py:39-42 | with factor 1 `_scale` returns the oldest slot unchanged |
| BaseStream.Stream.constructor | monitor/streams/base.py:26-47 | servertime 0, a window of W zeros, and the checked id, name, factor and transform |
| BaseStream.Stream.Transformed | monitor/streams/base.py:80-95 | dispatches to exactly one transform: `moving_average` gives the mean (0.0 when empty); `scale` is `ScaleOf`, the oldest slot times the factor (see ScaleReadsLastSlot and ScaleLagsByWindow), raising IndexError on an empty window and returning the oldest slot itself when the factor is 1 |
| Py2Arith.Py2SumAgrees | monitor/streams/stream.py:105 | Python 2 `sum` equals the real sum, and is a float exactly when some element is a float |
| Py2Arith.Py2MeanExactWithFloat | monitor/streams/stream.py:105 | while a float is in the window, `sum/len` is the exact mean |
| Py2Arith.Py2MeanFloorsInts | monitor/streams/stream.py:105 | once the window holds only ints, `sum/len` is the floor of the exact mean |
| Py2Arith.LegacyMeanTruncates | monitor/streams/stream.py:96-105 | concrete case: 30 ones and then a 2 pushed into the legacy window give 1, not 31/30 |
| Watermark.AdmitSmoothed | monitor/streams/pingdom.py:103-104 | processing a record keeps the invariant: the window is the start window plus every emitted raw value pushed in order, and each emitted value is the mean right after its own push |
| Watermark.ScanSmoothed | monitor/streams/pingdom.py:93-106 | the filtered scan keeps that smoothing invariant |
| Watermark.LoadSmoothed | monitor/streams/pingdom.py:64-75 | the unfiltered historic replay keeps that smoothing invariant |
| Watermark.ScanPushesOncePerItem | monitor/streams/libratometrics.py:99-108 | after a scan, the window has received exactly one push per emitted item, in order, and none for skipped records; each value is the mean after its push |
| Watermark.StepTracks | monitor/streams/pingdom.py:94-96 | one record keeps the watermark invariant: emitted times strictly increase, all are newer than the initial mark, and the mark is the last emitted time |
| Watermark.ScanTracks | monitor/streams/pingdom.py:93-106 | a whole batch keeps that watermark invariant |
| Watermark.ScanEmitsIncreasing | monitor/streams/libratometrics.py:99-108 | emitted times strictly increase, are all newer than the starting servertime, and the final servertime is the last emitted time (unchanged if nothing was emitted) |
| Watermark.ScanMarkIsMax | monitor/streams/pingdom.py:93-97 | the final servertime is at least every scanned time and the old servertime, and is one of them: their maximum |
| Watermark.ScanGrows | monitor/streams/pingdom.py:106 | a scan only appends to the output |
| Watermark.ScanAppend | monitor/streams/libratometrics.py:55-73 | scanning two pages in turn equals scanning their concatenation |
| Watermark.ScanShift | monitor/streams/libratometrics.py:63-72 | a scan continuing earlier output emits the earlier output followed by a fresh scan from the same watermark and window |
| Watermark.ScanEmitsFromBatch | monitor/streams/libratometrics.py:99-108 | every newly emitted item is a record of the batch, with its time, raw value and source |
| Watermark.ScanKeepsFreshRecord | monitor/streams/pingdom.py:93-97 | a record newer than servertime and newer than every earlier record in the batch is emitted |
| Watermark.ScanOfStaleBatch | monitor/streams/pingdom.py:94 | a batch with nothing newer than servertime changes nothing |
| Watermark.RefetchEmitsNothing | monitor/streams/pingdom.py:91-97 | scanning the same batch again right after emits nothing and changes nothing: no duplicates |
| Watermark.SuccessiveScansIncrease | monitor/streams/libratometrics.py:64-65 | across two successive polls all emitted times strictly increase |
| Watermark.LoadEmitsAll | monitor/streams/pingdom.py:64-75 | historic replay emits every record in order, with no filter, and leaves servertime at the last record's time |
| Watermark.LoadPushesEveryRecord | monitor/streams/pingdom.py:69-70 | historic replay pushes every raw value, and each value is the mean after its push |
| Watermark.SortedBatchEmitsAll | monitor/streams/pingdom.py:93-97 | a strictly increasing batch all newer than servertime is scanned exactly as it would be replayed |
| Watermark.Fresh | monitor/streams/pingdom.py:94 | every kept record is in the batch and newer than the mark |
| Watermark.FreshKeepsEveryNewer | monitor/streams/pingdom.py:94 | every record of the batch newer than the mark is kept |
| Watermark.FreshAppend | monitor/streams/pingdom.py:94 | the filter distributes over concatenation, so the fresh records keep the batch's order |
| Watermark.ScanOfIncreasing | monitor/streams/libratometrics.py:99-108 | on a batch in increasing time order, the scan is the replay of exactly the records newer than servertime |
| Pingdom.ResponseTime | monitor/streams/pingdom.py:99-101 | a missing response time is replaced by 30000, a present one kept |
| Pingdom.AsRecords | monitor/streams/pingdom.py:66-69 | one record per result, in order: its time, its response time (30000 when missing) as the raw value, and the result itself |
| Libratometrics.AsRecords | monitor/streams/libratometrics.py:64-69 | one record per measurement, in order: its `measure_time`, its value as the raw value, and the measurement itself |
| Pingdom.NewestFiveAt | monitor/streams/pingdom.py:93 | `pingdom_results[4::-1]` holds min(5,n) results, element k being result min(5,n)-1-k |
| Pingdom.NewDataEmitsFreshResults | monitor/streams/pingdom.py:91-106 | on a newest-first listing, `new_data` emits exactly the results among the five newest that are newer than servertime, oldest first |
| Pingdom.HistoricEmitsPageReversed | monitor/streams/pingdom.py:59-75 | `historic_data` emits the page reversed, each with its response time defaulted, and ends with servertime at the page's first (newest) result |
| Pingdom.EntryIdReadsBack | monitor/streams/pingdom.py:124 | an entry's id reads back to the check id, so entries of distinct checks differ |
| Pingdom.PingdomStream.constructor | monitor/streams/pingdom.py:13-31 | the base state is fresh (servertime 0, zero window of the configured size) with the parsed factor and transform; label "Response time", unit "ms" |
| Pingdom.PingdomStream.HistoricData | monitor/streams/pingdom.py:46-77 | the new state and output are the unfiltered replay of the fetched page reversed; a failed request replays nothing; the window keeps its length |
| Pingdom.PingdomStream.NewData | monitor/streams/pingdom.py:79-110 | a failed request returns [] and changes nothing; otherwise state and output are the watermark scan of `[4::-1]`; the window keeps its length |
| Pingdom.CollectLeft | monitor/streams/pingdom.py:50-61 | accumulating a page with `appendleft` yields it reversed |
| Pingdom.AvailableStreams | monitor/streams/pingdom.py:121-125 | one entry per check, in order, with `str(id)` and the name |
| Libratometrics.PageStartsShape | monitor/streams/libratometrics.py:52-55 | the k-th page starts at start + 6000k; there are ⌈(now-start)/6000⌉ pages, all starting before now |
| Libratometrics.HistoricPageCount | monitor/streams/libratometrics.py:52-73 | three days of history are requested as 44 pages |
| Libratometrics.LastFiveIsNewest | monitor/streams/libratometrics.py:99 | `[-5::1]` is the last min(5,n) measurements, oldest first |
| Libratometrics.NewDataEmitsFreshMeasurements | monitor/streams/libratometrics.py:97-108 | on an oldest-first listing, `new_data` emits exactly the last-five measurements newer than servertime, in order |
| Libratometrics.EntryOf | monitor/streams/libratometrics.py:128 | an entry's name equals its id |
| Libratometrics.LibratometricsStream.constructor | monitor/streams/libratometrics.py:21-34 | fresh base state with the parsed factor and transform and a zero window of the configured size; label is the metric; unit is the metric's short unit or "u" |
| Libratometrics.ScanBatch | monitor/streams/libratometrics.py:63-72 | the per-measurement loop's new state and output are the watermark scan of the batch |
| Libratometrics.LibratometricsStream.HistoricData | monitor/streams/libratometrics.py:49-75 | pages from now-3 days in 6000 s steps are scanned in turn, with state and output equal to one scan of all pages concatenated; the window keeps its length |
| Libratometrics.LibratometricsStream.NewData | monitor/streams/libratometrics.py:77-112 | a failed request returns [] and changes nothing; otherwise a scan of the last five measurements; the window keeps its length |
| Libratometrics.AvailableStreams | monitor/streams/libratometrics.py:124-130 | one entry per instance, in order, name equal to id |
| LegacyStream.Stream.constructor | monitor/streams/stream.py:12-27 | servertime None and 30 zeros |
| LegacyStream.Stream.HistoricData | monitor/streams/stream.py:41-72 | the unfiltered replay of the page reversed, response times defaulted to 30000 |
| LegacyStream.Stream.NewData | monitor/streams/stream.py:74-100 | a failed request returns [] unchanged; fewer than five results raise IndexError before any change; otherwise the scan of indices 4..0 |
| LegacyStream.FirstPollEmitsAllFive | monitor/streams/stream.py:86-89 | with servertime None (older than every time), a first poll on a newest-first listing emits all five results, oldest first |
| MonitorRun.ProcessAllFeedsEvery | monitor/monitor.py:117-155 | every item is fed to the model once, in order; rows are only appended, at most one per item |
| MonitorRun.FeedsCarryFields | monitor/monitor.py:117-129 | the k-th fed input is the k-th item's time, check status and smoothed value |
| MonitorRun.RowsOnlyForPredictions | monitor/monitor.py:142-155 | every new row comes from some item whose model answer had a one-step prediction, and carries that item's time, status, smoothed value, prediction, score and likelihood in the documented order |
| MonitorRun.RowsAreThePredictedOnes | monitor/monitor.py:142-155 | for any model answers and any redis outcome (the no-prediction branch of monitor.py:213-214 included), the rows stored are the earlier rows followed by exactly the rows of the items whose answer predicts and whose write succeeds, in item order |
| MonitorRun.RowForEachPrediction | monitor/monitor.py:142-155 | for any model and redis, an item whose answer predicts and whose write succeeds has its row among the new rows |
| MonitorRun.RowForEveryPrediction | monitor/monitor.py:142-155 | when every answer has a prediction and every write succeeds, the earlier rows stay and item k gets the row built from it and the model's answer after feeding items 0..k; with no predictions no row is written |
| MonitorRun.IncreasingSinceAppend | monitor/monitor.py:172-176 | fed times stay strictly increasing when a poll's newer items are appended |
| MonitorRun.AfterPollKeepsFedSince | monitor/monitor.py:161-214 | a poll keeps the invariant: the times fed since a point strictly increase, and servertime is the last of them |
| MonitorRun.PolledTimesIncrease | monitor/monitor.py:172-176 | over any sequence of polls, the times fed strictly increase and are all newer than the servertime at the start |
| MonitorRun.PolledFedSince | monitor/monitor.py:161-217 | over any sequence of polls, servertime stays the last fed time |
| MonitorRun.AfterPollsStopsAtExit | monitor/monitor.py:218-220 | once a poll raises, later polls change nothing: the loop has exited |
| MonitorRun.CollectPages | monitor/monitor.py:104-114 | six pages accumulated with `appendleft` yield their concatenation reversed |
| MonitorRun.ProcessResult | monitor/monitor.py:117-155 | one result is pushed, smoothed, fed to the model and stored when it has a prediction |
| MonitorRun.Train | monitor/monitor.py:116-155 | training state is the unfiltered replay of all results from a 30-zero window, with every item processed |
| MonitorRun.Poll | monitor/monitor.py:163-214 | one poll: a failed request changes nothing, fewer than five results raise IndexError, otherwise the new results are scanned and processed |
| MonitorRun.Run | monitor/monitor.py:66-220 | the session is training followed by the polls, stopping at the first exception |
| RunMonitor.Title | monitor/run_monitor.py:55 | `str.title()` keeps the length |
| RunMonitor.TitleIdempotent | monitor/run_monitor.py:55 | title case keeps which characters are letters, leaves the others unchanged, and is idempotent |
| RunMonitor.ClassNamesOfAdapters | monitor/run_monitor.py:52-55 | stream type `pingdom` names `PingdomStream`; `libratometrics` names `LibratometricsStream` |
| RunMonitor.ItemsMapKeys | monitor/run_monitor.py:58-60 | the credentials dict has exactly the keys of the section's items |
| RunMonitor.ItemsMapLastWins | monitor/run_monitor.py:58-60 | each key maps to the value of its last occurrence among the items |
| RunMonitor.CollectCredentials | monitor/run_monitor.py:58-60 | the loop builds that dict |
| RunMonitor.StreamConfig | monitor/run_monitor.py:83-86 | each stream config has exactly the keys id, name, moving_average_window and credentials |
| RunMonitor.LauncherConfigFailsAsWritten | monitor/run_monitor.py:83-86 | such a config makes `BaseStream.__init__` raise KeyError('scaling_factor') |
| RunMonitor.LauncherConfigParses | monitor/run_monitor.py:111-114 | with the optional keys defaulted, the config parses to scale-by-1 with the given id, name and window; a negative window raises ValueError |
| RunMonitor.AvailableStreamsArgFails | monitor/run_monitor.py:63 | with the credentials dict passed as `data`, every `data['credentials'][key]` lookup fails: KeyError without a credential named `credentials`, TypeError with one |
| RunMonitor.AvailableStreamsArgFound | monitor/streams/pingdom.py:118-120 | wrapped as `{'credentials': ...}`, each `data['credentials'][key]` lookup of the adapters (also monitor/streams/libratometrics.py:121) yields that credential, and a missing one raises KeyError of its name |
| RunMonitor.LastMatchIsLast | monitor/run_monitor.py:96-101 | the lookup finds nothing exactly when no stream has the id; otherwise it is the name of the last stream with that id |
| RunMonitor.SelectedIsConfiguredAndAvailable | monitor/run_monitor.py:94-105 | every selected stream is configured and available under its last name; every configured id that is available is selected; unknown ids are skipped |
| RunMonitor.FindName | monitor/run_monitor.py:96-101 | the nested loop computes that last match |
| RunMonitor.ConfigsForAll | monitor/run_monitor.py:73-90 | without a monitors section, one config per available stream, in order |
| RunMonitor.ConfigsForSelected | monitor/run_monitor.py:91-117 | with a monitors section, one config per selected stream, in configured order |
| RunMonitor.LaunchConfigs | monitor/run_monitor.py:69-117 | an `encoder_resolution` that is not an integer raises ValueError, checked first; then a window setting that is not an integer raises ValueError; otherwise the parsed resolution and one config per chosen stream, carrying the parsed window |
| Registry.UpdateSpec | monitor/run_monitor_dyn.py:117 | `dict.update`: the keys of both, the caller's value winning, other defaults kept |
| Registry.StreamOf | monitor/run_monitor_dyn.py:121-132 | the stream's id and name default to the check id, unit and label to the unknown markers, each overridable by the config |
| Registry.NewMonitorConfig | monitor/run_monitor_dyn.py:103-138 | the monitor config has exactly the default and supplied keys except `stream`; a supplied value replaces the default whole, an unsupplied key keeps its default; the stream is built from the same config |
| Registry.NewMonitorDefaults | monitor/run_monitor_dyn.py:108-116 | an empty config gives anomaly_threshold 0.9, likelihood_threshold None, seconds_per_request 60, and stream name = id |
| Registry.WindowSize | monitor/run_monitor_dyn.py:49-50 | the window capacity defaults to 10; an `int()` error of the setting is raised as is; a non-negative `int()` of it is the capacity; a negative one raises ValueError |
| Registry.NegativeWindowLeavesHalfRegisteredMonitor | monitor/run_monitor_dyn.py:45-51 | a first input with window -1 raises but leaves the three dictionaries disagreeing: later inputs for the id raise KeyError, and so does its removal |
| Registry.GetMonitorAgreesWhenWindowValid | monitor/run_monitor_dyn.py:42-51 | where the window is valid or the id known, the validating `get_monitor` equals the original |
| Registry.GetMonitorSpec | monitor/run_monitor_dyn.py:42-51 | success marks the id seen at now; a hit returns the stored monitor and window and ignores config; a miss stores a new monitor and a zero window of the configured size; other ids are untouched; the dictionaries keep equal keys |
| Registry.RemoveMonitorSpec | monitor/run_monitor_dyn.py:77-84 | an unknown id raises KeyError and changes nothing; a known id is removed from all three dictionaries and its monitor deleted |
| Registry.EvictStaleExactly | monitor/run_monitor_dyn.py:53-63 | collection keeps an id exactly when now - last_seen ≤ timeout, leaving every kept entry unchanged |
| Registry.HourlyTimeoutBoundary | monitor/run_monitor_dyn.py:69 | with the 3600 s timeout, an id idle for 3600 s is kept and one idle for 3601 s is collected |
| Registry.Smooth | monitor/run_monitor_dyn.py:165-166 | an empty window raises ZeroDivisionError; otherwise the smoothed value × length is the sum of the window after pushing the value |
| Registry.FirstInputSmoothed | monitor/run_monitor_dyn.py:165-166 | the first value v into a fresh W-window smooths to v/W |
| Registry.Registry.constructor | monitor/run_monitor_dyn.py:34-40 | the three dictionaries start empty |
| Registry.Registry.GetMonitor | monitor/run_monitor_dyn.py:42-51 | the dictionaries change as the validating `get_monitor` specifies, keeping equal keys |
| Registry.Registry.RemoveMonitor | monitor/run_monitor_dyn.py:77-84 | the dictionaries change as `remove_monitor` specifies |
| Registry.Registry.StaleIds | monitor/run_monitor_dyn.py:56-59 | the listed ids are exactly those idle for more than timeout, each once |
| Registry.Registry.GarbageCollect | monitor/run_monitor_dyn.py:53-63 | afterwards the dictionaries are the old ones without the stale ids, and each stale monitor was deleted exactly once |
| Registry.Registry.Post | monitor/run_monitor_dyn.py:160-169 | get-or-create through the validating `get_monitor`, then the window with the value pushed left is stored back, and the window mean is returned (both `value` and `raw_value`) |

## Left out

- Network, redis and logging are not modelled. This covers Pingdom and Librato requests, redis writes, the log handlers, and the HTTP server and handlers beyond the smoothing step. Fetched results are inputs, and a failed request is `None`.
- The `Monitor` class (thresholds, webhook, result trimming) and NuPIC are not modelled, because the class is not part of this model's source. `monitor.update` and `mon.delete()` are opaque: the registry records the ids whose monitors were deleted.
- Threads and processes are not modelled: the garbage-collection thread, the `multiprocessing` fan-out and `serve_forever`. The registry is modelled sequentially.
- The endless retry loops are not modelled:
  - A failed training page in monitor.py:106-111 is retried without advancing. `fetch` there is a total function.
  - The Librato historic loop in monitor/streams/libratometrics.py:55-61 likewise retries a failed page forever. The model has each page fetched once.
  - The `while True` polling loop runs over a finite sequence of poll outcomes.
- Float rounding, `%.5f`, `datetime.utcfromtimestamp` and `float()` of response times are not modelled. Reals are used throughout.
- Registry.Registry.StaleIds: uses one `now` for the whole pass; the source re-reads `time.time()` for every id.
- Registry.Registry.StaleIds: visits ids in an unspecified order, so dictionary iteration order is not modelled. The order of deletions is only pinned down as a permutation of the stale ids.
- Registry.Registry.Post: the deque returned by `get_monitor` is aliased by the registry. The model writes the pushed window back into the map, which has the same effect. The JSON decoding of the request and `monitor.update` are not modelled.
- Registry.Registry.Post: runs the validating `get_monitor` (Finding 3). A first POST with an invalid `moving_average_window` registers nothing, whereas monitor/run_monitor_dyn.py:45-50 leaves last_seen and the monitor behind; that as-written state is `Registry.GetMonitorAsWritten`.
- Values.IntOf: strips only the six ASCII blanks around a string. Python 2 also accepts blanks between the sign and the digits, and `int()` of a unicode string also strips other Unicode whitespace; neither is modelled.
- Registry.WindowSize: reads the setting with `Values.IntOf`, so the same whitespace limits apply.
- RunMonitor.LaunchConfigs: reads both settings with `Values.ParseInt`, so the same whitespace limits apply.
- BaseStream.ParseStreamConfig: the comment at monitor/streams/base.py:29 says the name defaults to the id, but base.py:30 reads `config['name']`. The model follows the code, so a missing name raises KeyError.
- RunMonitor.Title: only ASCII letters are cased.
- Check ids are strings in `Registry.Maps` and `Registry.StreamDefaults`. `req['check_id']` from `json.loads` (monitor/run_monitor_dyn.py:163-164) may also be a number, in which case the default stream id and name are that number; the model does not cover that case.
- The credentials object and the Pingdom or Librato client built in each adapter's `__init__` are not modelled.
- Libratometrics.LibratometricsStream.constructor: the metric's unit lookup is a network call, so the looked-up unit is a parameter.
- BaseStream.Stream.Transformed: `_transform` can return None, but only when the transform is neither `moving_average` nor `scale`, which `__init__` rules out. The model's two-valued kind has no such case.
- Dynamic's `value_label`/`value_unit` properties are the fields `valueLabel`/`valueUnit` of `Registry.Dynamic`.
- server/main.go, the browser UI, start.py, check.py, run_check.py and the swarm script are not modelled.
- The legacy `Stream`'s `_moving_average`, monitor.py's `moving_average`, and the `sum(averages)/len(averages)` of monitor/run_monitor_dyn.py:166 (`Registry.Smooth`, `Registry.Registry.Post`) are modelled with real division. The integer division they actually perform is the subject of Finding 1.

Behaviour kept as the code has it:

- The smoothing window starts filled with zeros, so early means are damped towards 0.
- `_scale` reads the oldest sample, not the newest.
- Pingdom historic loading applies no servertime filter.

## Findings

| source | as written | input that shows it | evidently intended | confidence | as-written member | corrected member |
|---|---|---|---|---|---|---|
| monitor/streams/stream.py:96-105 | integer response times are pushed into a window of 0.0 floats; once the floats are flushed, `sum/len` is Python 2 integer division (also monitor.py:60,122 and run_monitor_dyn.py:166 for integer inputs) | 30 pushes of 1 and one push of 2 into the 30-slot window give 1 instead of 31/30 | the exact mean of the window | not executed; medium (the code is Python 2) | Py2Arith.LegacyMeanTruncates | Window.MeanSettles |
| monitor/run_monitor.py:83-86 | the stream configs built by the launcher have no `scaling_factor` or `transform`, which `BaseStream.__init__` reads with `[]` (monitor/streams/base.py:36-37) | any available stream | the documented default: scale with factor 1 when no transform is given | not executed; high | RunMonitor.LauncherConfigFailsAsWritten | RunMonitor.LauncherConfigParses |
| monitor/run_monitor_dyn.py:45-50 | `get_monitor` stores last_seen and the new monitor before building the window, so an invalid `moving_average_window` leaves a monitor with no window | first POST for an id with `moving_average_window` = -1; once that id has been idle past the timeout, `garbage_collect` calls `remove_monitor` on it, `del moving_averages[check_id]` (monitor/run_monitor_dyn.py:81) raises KeyError, and `do_gc` (monitor/run_monitor_dyn.py:69-72) has no handler, so the collection thread ends: the ids after it are not removed and no check is collected again | validate the window first, so a failure registers nothing | not executed; high | Registry.NegativeWindowLeavesHalfRegisteredMonitor | Registry.GetMonitorSpec |
| monitor/run_monitor.py:63 | `available_streams(credentials)` passes the credentials dict itself, but the adapters read `data['credentials'][...]` (monitor/streams/pingdom.py:118-120) | a credentials section without a key named `credentials` | pass `{'credentials': credentials}`; for the Librato adapter also a `metric`, which `available_streams` (monitor/streams/libratometrics.py:125) and `__init__` (monitor/streams/libratometrics.py:30) read and which monitor/run_monitor.py supplies nowhere | not executed; high | RunMonitor.AvailableStreamsArgFails | RunMonitor.AvailableStreamsArgFound |
