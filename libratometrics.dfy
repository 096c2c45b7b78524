/**
 * LibratometricsStream (monitor/streams/libratometrics.py): the BaseStream
 * adapter for a Librato metric of one source. Librato lists measurements
 * oldest first. The clock is the parameter `now`; the paged query is the
 * function `fetch` from a page's start time to the measurements it returns.
 */
module Libratometrics {
  import opened Wrappers
  import opened Window
  import opened Watermark
  import BaseStream

  /** One Librato measurement: `measure_time` and `value`. */
  datatype Measurement = Measurement(measureTime: int, value: real)

  /** Historic data reaches back three days. */
  const HistorySpan: int := 60 * 60 * 24 * 3

  /** Each historic page asks for 100 one-minute points, so the next page starts 6000 s later. */
  const PageStep: int := 100 * 60

  function AsRecord(m: Measurement): Record<Measurement> {
    Record(m.measureTime, m.value, m)
  }

  function AsRecords(ms: seq<Measurement>): (rs: seq<Record<Measurement>>)
    ensures |rs| == |ms|
    ensures forall k :: 0 <= k < |ms| ==> rs[k] == AsRecord(ms[k])
    ensures forall k :: 0 <= k < |ms| ==>
      rs[k].time == ms[k].measureTime && rs[k].raw == ms[k].value && rs[k].source == ms[k]
  {
    Records(ms, AsRecord)
  }

  /** The successive values of `time_start` for which a page is requested. */
  function PageStarts(start: int, now: int): seq<int>
    decreases now - start
  {
    if start >= now then [] else [start] + PageStarts(start + PageStep, now)
  }

  /** Pages start every 6000 s from `start`, as many as fit below `now` (a partial last span included). */
  lemma {:induction false} PageStartsShape(start: int, now: int)
    ensures |PageStarts(start, now)| == if start >= now then 0 else (now - start + PageStep - 1) / PageStep
    ensures forall k :: 0 <= k < |PageStarts(start, now)| ==>
      PageStarts(start, now)[k] == start + k * PageStep && PageStarts(start, now)[k] < now
    decreases now - start
  {
    if start < now {
      PageStartsShape(start + PageStep, now);
      var ps := PageStarts(start, now);
      forall k | 0 < k < |ps|
        ensures ps[k] == start + k * PageStep
      {
        assert ps[k] == PageStarts(start + PageStep, now)[k - 1];
      }
    }
  }

  /** Three days in 6000 s steps: `historic_data` requests 44 pages. */
  lemma HistoricPageCount(now: int)
    ensures |PageStarts(now - HistorySpan, now)| == 44
  {
    PageStartsShape(now - HistorySpan, now);
  }

  /** The records of the pages starting at `starts`, page after page. */
  function Pages(fetch: int -> seq<Measurement>, starts: seq<int>): seq<Record<Measurement>> {
    if starts == [] then [] else AsRecords(fetch(starts[0])) + Pages(fetch, starts[1..])
  }

  /** Requesting the page at `start` moves its records from the pages still to come to those done. */
  lemma PagesStep(fetch: int -> seq<Measurement>, start: int, now: int, done: seq<Record<Measurement>>)
    requires start < now
    ensures done + Pages(fetch, PageStarts(start, now)) ==
      (done + AsRecords(fetch(start))) + Pages(fetch, PageStarts(start + PageStep, now))
  {
    assert PageStarts(start, now)[1..] == PageStarts(start + PageStep, now);
  }

  /** `librato_results[-5::1]`: the last five measurements, or all when there are fewer. */
  function LastFive(ms: seq<Measurement>): seq<Measurement> {
    if |ms| <= 5 then ms else ms[|ms| - 5..]
  }

  lemma LastFiveIsNewest(ms: seq<Measurement>)
    ensures |LastFive(ms)| == Min(5, |ms|)
    ensures LastFive(ms) == ms[|ms| - Min(5, |ms|)..]
  {
  }

  /** Measurements oldest first with strictly increasing times. */
  predicate OldestFirst(ms: seq<Measurement>) {
    forall i, j :: 0 <= i < j < |ms| ==> ms[i].measureTime < ms[j].measureTime
  }

  /**
   * On an oldest-first listing, `new_data` emits exactly those of the last
   * five measurements that are newer than servertime, in order.
   */
  lemma NewDataEmitsFreshMeasurements(servertime: int, h: seq<real>, ms: seq<Measurement>)
    requires OldestFirst(ms)
    ensures var batch := AsRecords(LastFive(ms));
      Scan(Start<Measurement>(Some(servertime), h), batch) ==
      Load(Start<Measurement>(Some(servertime), h), Fresh(Some(servertime), batch))
  {
    var batch := AsRecords(LastFive(ms));
    var d := |ms| - |LastFive(ms)|;
    assert Increasing(batch) by {
      forall i, j | 0 <= i < j < |batch|
        ensures batch[i].time < batch[j].time
      {
        assert batch[i].time == ms[d + i].measureTime && batch[j].time == ms[d + j].measureTime;
      }
    }
    ScanOfIncreasing(Start<Measurement>(Some(servertime), h), batch);
  }

  /** The entry `available_streams` lists for an instance: its id, also as its name. */
  function EntryOf(id: string): (e: BaseStream.StreamEntry)
    ensures e.id == e.name == id
  {
    BaseStream.StreamEntry(id, id)
  }

  class LibratometricsStream {
    const base: BaseStream.Stream
    const metric: string
    const valueLabel: string
    const valueUnit: string

    /**
     * `__init__` once BaseStream has read its config; `unit` is the metric's
     * `display_units_short` attribute (`u` when it has none), which the
     * caller looks up.
     */
    constructor (s: BaseStream.Settings, metric: string, unit: Option<string>)
      ensures fresh(base) && base.Valid()
      ensures base.id == s.id && base.name == s.name && base.window == s.window
      ensures base.scalingFactor == s.scalingFactor && base.transform == s.transform
      ensures base.servertime == 0 && base.history == ZeroWindow(s.window)
      ensures this.metric == metric && valueLabel == metric && valueUnit == unit.GetOr("u")
    {
      base := new BaseStream.Stream(s);
      this.metric, valueLabel := metric, metric;
      valueUnit := unit.GetOr("u");
    }

    /**
     * `historic_data`: pages starting three days before `now` and 6000 s
     * apart are scanned in turn, through the same servertime filter.
     */
    method HistoricData(now: int, fetch: int -> seq<Measurement>) returns (out: seq<Item<Measurement>>)
      requires base.Valid()
      modifies base
      ensures base.Valid()
      ensures var r := Scan(Start<Measurement>(Some(old(base.servertime)), old(base.history)),
                            Pages(fetch, PageStarts(now - HistorySpan, now)));
        Some(base.servertime) == r.mark && base.history == r.history && out == r.emitted
    {
      ghost var s0 := Start<Measurement>(Some(base.servertime), base.history);
      ghost var all := Pages(fetch, PageStarts(now - HistorySpan, now));
      ghost var done: seq<Record<Measurement>> := [];
      var servertime, history := base.servertime, base.history;
      var timeStart := now - HistorySpan;
      out := [];
      while timeStart < now
        invariant done + Pages(fetch, PageStarts(timeStart, now)) == all
        invariant Scanned(Some(servertime), history, out) == Scan(s0, done)
        decreases now - timeStart
      {
        var page := fetch(timeStart);
        ghost var before := Scanned(Some(servertime), history, out);
        var pageOut;
        servertime, history, pageOut := ScanBatch(servertime, history, page);
        ScanAppend(s0, done, AsRecords(page));
        ScanShift(before, AsRecords(page));
        PagesStep(fetch, timeStart, now, done);
        done := done + AsRecords(page);
        out := out + pageOut;
        timeStart := timeStart + PageStep;
      }
      assert done == all;
      ScanPushesOncePerItem(s0.mark, s0.history, all);
      base.servertime, base.history := servertime, history;
    }

    /**
     * `new_data`: the last five measurements are scanned; a failed request
     * returns nothing and changes nothing.
     */
    method NewData(fetched: Option<seq<Measurement>>) returns (out: seq<Item<Measurement>>)
      requires base.Valid()
      modifies base
      ensures base.Valid()
      ensures fetched.None? ==>
        out == [] && base.servertime == old(base.servertime) && base.history == old(base.history)
      ensures fetched.Some? ==>
        var r := Scan(Start<Measurement>(Some(old(base.servertime)), old(base.history)),
                      AsRecords(LastFive(fetched.value)));
        Some(base.servertime) == r.mark && base.history == r.history && out == r.emitted
    {
      out := [];
      if fetched.Some? {
        base.servertime, base.history, out := ScanBatch(base.servertime, base.history, LastFive(fetched.value));
      }
    }
  }

  /**
   * The loop both `historic_data` and `new_data` run over a batch: a
   * measurement newer than servertime advances it, its value is pushed
   * into the window and it is emitted with the window mean.
   */
  method ScanBatch(servertime: int, history: seq<real>, batch: seq<Measurement>)
    returns (servertime': int, history': seq<real>, out: seq<Item<Measurement>>)
    ensures var r := Scan(Start<Measurement>(Some(servertime), history), AsRecords(batch));
      Some(servertime') == r.mark && history' == r.history && out == r.emitted
    ensures |history'| == |history|
  {
    ghost var s0 := Start<Measurement>(Some(servertime), history);
    ghost var recs := AsRecords(batch);
    servertime', history', out := servertime, history, [];
    var j := 0;
    while j < |batch|
      invariant 0 <= j <= |batch|
      invariant Scanned(Some(servertime'), history', out) == Scan(s0, recs[..j])
    {
      ScanNext(s0, recs, j);
      var m := batch[j];
      if servertime' < m.measureTime {
        servertime' := m.measureTime;
        history' := PushLeft(history', m.value);
        var value := Mean(history');
        out := out + [Item(m.measureTime, m.value, value, m)];
      }
      j := j + 1;
    }
    assert recs[..|batch|] == recs;
    ScanPushesOncePerItem(s0.mark, s0.history, recs);
  }

  /** `available_streams`: one entry per instance id of the metric, in listing order. */
  method AvailableStreams(instances: seq<string>) returns (result: seq<BaseStream.StreamEntry>)
    ensures |result| == |instances|
    ensures forall k :: 0 <= k < |instances| ==> result[k] == EntryOf(instances[k])
  {
    result := [];
    var i := 0;
    while i < |instances|
      invariant 0 <= i <= |instances|
      invariant |result| == i
      invariant forall k :: 0 <= k < i ==> result[k] == EntryOf(instances[k])
    {
      result := result + [BaseStream.StreamEntry(instances[i], instances[i])];
      i := i + 1;
    }
  }
}
