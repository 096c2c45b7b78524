/**
 * PingdomStream (monitor/streams/pingdom.py): the BaseStream adapter for
 * Pingdom check results. The Pingdom API answers newest result first; a
 * request that fails is an absent batch (None).
 */
module Pingdom {
  import opened Wrappers
  import opened Values
  import opened Window
  import opened Watermark
  import BaseStream

  /** One Pingdom check result; `responsetime` is absent when the check was not up. */
  datatype PingdomResult = PingdomResult(time: int, status: string, responsetime: Option<int>)

  /** One entry of the `checks` listing. */
  datatype Check = Check(id: int, name: string)

  /** The response time that stands for a check that got none. */
  const TimeoutDefault: int := 30000

  /** The response time pushed into the window: the reported one, or the timeout default. */
  function ResponseTime(p: PingdomResult): (t: int)
    ensures p.responsetime.Some? ==> t == p.responsetime.value
    ensures p.responsetime.None? ==> t == TimeoutDefault
  {
    p.responsetime.GetOr(TimeoutDefault)
  }

  function AsRecord(p: PingdomResult): Record<PingdomResult> {
    Record(p.time, ResponseTime(p) as real, p)
  }

  function AsRecords(ps: seq<PingdomResult>): (rs: seq<Record<PingdomResult>>)
    ensures |rs| == |ps|
    ensures forall k :: 0 <= k < |ps| ==> rs[k] == AsRecord(ps[k])
    ensures forall k :: 0 <= k < |ps| ==>
      rs[k].time == ps[k].time && rs[k].raw == ResponseTime(ps[k]) as real && rs[k].source == ps[k]
  {
    Records(ps, AsRecord)
  }

  /** `pingdom_results[4::-1]`: the first five results (fewer if fewer came), last one first. */
  function NewestFive(ps: seq<PingdomResult>): seq<PingdomResult> {
    Reverse(ps[..Min(5, |ps|)])
  }

  lemma NewestFiveAt(ps: seq<PingdomResult>)
    ensures |NewestFive(ps)| == Min(5, |ps|)
    ensures forall k :: 0 <= k < Min(5, |ps|) ==> NewestFive(ps)[k] == ps[Min(5, |ps|) - 1 - k]
  {
    ReverseAt(ps[..Min(5, |ps|)]);
  }

  /** Newest first, as the API lists results: times strictly decrease. */
  predicate NewestFirst(ps: seq<PingdomResult>) {
    forall i, j :: 0 <= i < j < |ps| ==> ps[i].time > ps[j].time
  }

  /**
   * On a newest-first listing, `new_data` emits exactly the results among
   * the first five that are newer than servertime, oldest first, each one
   * processed once.
   */
  lemma NewDataEmitsFreshResults(servertime: int, h: seq<real>, ps: seq<PingdomResult>)
    requires NewestFirst(ps)
    ensures var batch := AsRecords(NewestFive(ps));
      Scan(Start<PingdomResult>(Some(servertime), h), batch) ==
      Load(Start<PingdomResult>(Some(servertime), h), Fresh(Some(servertime), batch))
  {
    var batch := AsRecords(NewestFive(ps));
    NewestFiveAt(ps);
    assert Increasing(batch) by {
      forall i, j | 0 <= i < j < |batch|
        ensures batch[i].time < batch[j].time
      {
        var n := Min(5, |ps|);
        assert batch[i].time == ps[n - 1 - i].time && batch[j].time == ps[n - 1 - j].time;
      }
    }
    ScanOfIncreasing(Start<PingdomResult>(Some(servertime), h), batch);
  }

  /**
   * `historic_data` emits the fetched page in reverse order, every result
   * of it, each with its response time (or the timeout default) as the
   * pushed sample, and ends with servertime at the time of the page's first
   * (newest) result.
   */
  lemma HistoricEmitsPageReversed(servertime: int, h: seq<real>, page: seq<PingdomResult>)
    ensures var r := Load(Start<PingdomResult>(Some(servertime), h), AsRecords(Reverse(page)));
      && |r.emitted| == |page|
      && (forall k :: 0 <= k < |page| ==>
            var p := page[|page| - 1 - k];
            r.emitted[k].source == p && r.emitted[k].time == p.time && r.emitted[k].raw == ResponseTime(p) as real)
      && r.mark == if page == [] then Some(servertime) else Some(page[0].time)
  {
    var s := Start<PingdomResult>(Some(servertime), h);
    var rs := AsRecords(Reverse(page));
    ReverseAt(page);
    LoadEmitsAll(s, rs);
    var r := Load(s, rs);
    forall k | 0 <= k < |page|
      ensures r.emitted[k].source == page[|page| - 1 - k]
      ensures r.emitted[k].time == page[|page| - 1 - k].time
      ensures r.emitted[k].raw == ResponseTime(page[|page| - 1 - k]) as real
    {
      assert rs[k] == AsRecord(page[|page| - 1 - k]);
    }
    if page != [] {
      assert rs[|rs| - 1] == AsRecord(page[0]);
    }
  }

  /** The entry `available_streams` lists for a check: its id as a decimal string, and its name. */
  function EntryOf(c: Check): BaseStream.StreamEntry {
    BaseStream.StreamEntry(DecimalString(c.id), c.name)
  }

  /** The listed id reads back as the check id, so distinct checks keep distinct stream ids. */
  lemma EntryIdReadsBack(c: Check, d: Check)
    ensures ParseInt(EntryOf(c).id) == Some(c.id)
    ensures EntryOf(c).id == EntryOf(d).id ==> c.id == d.id
  {
    DecimalStringRoundTrip(c.id);
    if EntryOf(c).id == EntryOf(d).id {
      DecimalStringInjective(c.id, d.id);
    }
  }

  class PingdomStream {
    const base: BaseStream.Stream
    const valueLabel: string
    const valueUnit: string

    /** `__init__` once BaseStream has read its config. */
    constructor (s: BaseStream.Settings)
      ensures fresh(base)
      ensures base.Valid()
      ensures base.id == s.id && base.name == s.name && base.window == s.window
      ensures base.scalingFactor == s.scalingFactor && base.transform == s.transform
      ensures base.servertime == 0 && base.history == ZeroWindow(s.window)
      ensures valueLabel == "Response time" && valueUnit == "ms"
    {
      base := new BaseStream.Stream(s);
      valueLabel, valueUnit := "Response time", "ms";
    }

    /**
     * `historic_data`: one page of results is requested (none if the request
     * fails); the results are collected with appendleft, so the page is
     * replayed oldest first, and every result is processed with no
     * servertime filter.
     */
    method HistoricData(fetched: Option<seq<PingdomResult>>) returns (out: seq<Item<PingdomResult>>)
      requires base.Valid()
      modifies base
      ensures base.Valid()
      ensures var r := Load(Start<PingdomResult>(Some(old(base.servertime)), old(base.history)),
                            AsRecords(Reverse(fetched.GetOr([]))));
        Some(base.servertime) == r.mark && base.history == r.history && out == r.emitted
    {
      var results := CollectLeft(if fetched.Some? then fetched.value else []);
      ghost var s0 := Start<PingdomResult>(Some(base.servertime), base.history);
      ghost var recs := AsRecords(results);
      var servertime, history := base.servertime, base.history;
      out := [];
      var j := 0;
      while j < |results|
        invariant 0 <= j <= |results|
        invariant Scanned(Some(servertime), history, out) == Load(s0, recs[..j])
      {
        LoadNext(s0, recs, j);
        var p := results[j];
        assert recs[j] == AsRecord(p);
        var rt := ResponseTime(p);
        history := PushLeft(history, rt as real);
        var value := Mean(history);
        servertime := p.time;
        out := out + [Item(p.time, rt as real, value, p)];
        j := j + 1;
      }
      assert recs[..|results|] == recs;
      LoadPushesEveryRecord(s0.mark, s0.history, recs);
      base.servertime, base.history := servertime, history;
    }

    /**
     * `new_data`: the five newest results are scanned oldest first; one newer
     * than servertime advances it, is pushed into the window and emitted.
     * A failed request returns nothing and changes nothing.
     */
    method NewData(fetched: Option<seq<PingdomResult>>) returns (out: seq<Item<PingdomResult>>)
      requires base.Valid()
      modifies base
      ensures base.Valid()
      ensures fetched.None? ==>
        out == [] && base.servertime == old(base.servertime) && base.history == old(base.history)
      ensures fetched.Some? ==>
        var r := Scan(Start<PingdomResult>(Some(old(base.servertime)), old(base.history)),
                      AsRecords(NewestFive(fetched.value)));
        Some(base.servertime) == r.mark && base.history == r.history && out == r.emitted
    {
      out := [];
      if fetched.None? {
        return;
      }
      var batch := NewestFive(fetched.value);
      ghost var s0 := Start<PingdomResult>(Some(base.servertime), base.history);
      ghost var recs := AsRecords(batch);
      var j := 0;
      while j < |batch|
        invariant 0 <= j <= |batch|
        invariant Scanned(Some(base.servertime), base.history, out) == Scan(s0, recs[..j])
      {
        ScanNext(s0, recs, j);
        var p := batch[j];
        if base.servertime < p.time {
          base.servertime := p.time;
          var rt := ResponseTime(p);
          base.history := PushLeft(base.history, rt as real);
          var value := Mean(base.history);
          out := out + [Item(p.time, rt as real, value, p)];
        }
        j := j + 1;
      }
      assert recs[..|batch|] == recs;
      ScanPushesOncePerItem(s0.mark, s0.history, recs);
    }
  }

  /** Appending each result of a page at the left of an initially empty deque. */
  method CollectLeft(page: seq<PingdomResult>) returns (results: seq<PingdomResult>)
    ensures results == Reverse(page)
  {
    results := [];
    var i := 0;
    while i < |page|
      invariant 0 <= i <= |page|
      invariant results == Reverse(page[..i])
    {
      assert page[..i + 1][..i] == page[..i];
      results := [page[i]] + results;
      i := i + 1;
    }
    assert page[..|page|] == page;
  }

  /** `available_streams`: one entry per check, in listing order. */
  method AvailableStreams(checks: seq<Check>) returns (result: seq<BaseStream.StreamEntry>)
    ensures |result| == |checks|
    ensures forall k :: 0 <= k < |checks| ==> result[k] == EntryOf(checks[k])
  {
    result := [];
    var i := 0;
    while i < |checks|
      invariant 0 <= i <= |checks|
      invariant |result| == i
      invariant forall k :: 0 <= k < i ==> result[k] == EntryOf(checks[k])
    {
      result := result + [BaseStream.StreamEntry(DecimalString(checks[i].id), checks[i].name)];
      i := i + 1;
    }
  }
}
