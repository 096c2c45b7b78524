/**
 * The legacy Pingdom `Stream` (monitor/streams/stream.py): the same
 * watermark scan as PingdomStream, but with servertime unset (None) until
 * the first result is processed and a fixed 30-slot window. Its mean is the
 * real-valued one; the Python 2 integer division it inherits is modelled
 * separately in Py2Arith.
 */
module LegacyStream {
  import opened Wrappers
  import opened Window
  import opened Watermark
  import opened Pingdom

  /** MAVG_WINDOW */
  const MovingAverageWindow: nat := 30

  class Stream {
    const checkId: int
    var servertime: Option<int>
    var history: seq<real>

    ghost predicate Valid()
      reads this
    {
      |history| == MovingAverageWindow
    }

    /** `__init__`: servertime None and a window of 30 zeros. */
    constructor (checkId: int)
      ensures Valid()
      ensures this.checkId == checkId
      ensures servertime == None && history == ZeroWindow(MovingAverageWindow)
    {
      this.checkId := checkId;
      servertime := None;
      history := ZeroWindow(MovingAverageWindow);
    }

    /**
     * `historic_data`: the single requested page (none if the request fails)
     * is replayed oldest first, every result processed, servertime set to
     * each result's time in turn.
     */
    method HistoricData(fetched: Option<seq<PingdomResult>>) returns (out: seq<Item<PingdomResult>>)
      requires Valid()
      modifies this
      ensures Valid()
      ensures var r := Load(Start<PingdomResult>(old(servertime), old(history)), AsRecords(Reverse(fetched.GetOr([]))));
        servertime == r.mark && history == r.history && out == r.emitted
    {
      var results := CollectLeft(if fetched.Some? then fetched.value else []);
      ghost var s0 := Start<PingdomResult>(servertime, history);
      ghost var recs := AsRecords(results);
      var time, window := servertime, history;
      out := [];
      var j := 0;
      while j < |results|
        invariant 0 <= j <= |results|
        invariant Scanned(time, window, out) == Load(s0, recs[..j])
        invariant |window| == MovingAverageWindow
      {
        LoadNext(s0, recs, j);
        var p := results[j];
        assert recs[j] == AsRecord(p);
        var rt := ResponseTime(p);
        window := PushLeft(window, rt as real);
        var value := Mean(window);
        time := Some(p.time);
        out := out + [Item(p.time, rt as real, value, p)];
        j := j + 1;
      }
      assert recs[..|results|] == recs;
      servertime, history := time, window;
    }

    /**
     * `new_data`: results 4, 3, 2, 1, 0 are read by index, so a listing of
     * fewer than five raises IndexError before anything changes; a failed
     * request returns nothing.
     */
    method NewData(fetched: Option<seq<PingdomResult>>) returns (r: Result<seq<Item<PingdomResult>>, PyError>)
      requires Valid()
      modifies this
      ensures Valid()
      ensures fetched.None? ==> r == Ok([]) && servertime == old(servertime) && history == old(history)
      ensures fetched.Some? && |fetched.value| < 5 ==>
        r == Err(IndexError) && servertime == old(servertime) && history == old(history)
      ensures fetched.Some? && |fetched.value| >= 5 ==>
        var s := Scan(Start<PingdomResult>(old(servertime), old(history)), AsRecords(NewestFive(fetched.value)));
        r == Ok(s.emitted) && servertime == s.mark && history == s.history
    {
      if fetched.None? {
        return Ok([]);
      }
      var ps := fetched.value;
      if |ps| < 5 {
        return Err(IndexError);
      }
      var batch := [ps[4], ps[3], ps[2], ps[1], ps[0]];
      NewestFiveAt(ps);
      assert batch == NewestFive(ps);
      ghost var s0 := Start<PingdomResult>(servertime, history);
      ghost var recs := AsRecords(batch);
      var time, window := servertime, history;
      var out := [];
      var j := 0;
      while j < |batch|
        invariant 0 <= j <= |batch|
        invariant Scanned(time, window, out) == Scan(s0, recs[..j])
        invariant |window| == MovingAverageWindow
      {
        ScanNext(s0, recs, j);
        var p := batch[j];
        if time.None? || time.value < p.time {
          time := Some(p.time);
          var rt := ResponseTime(p);
          window := PushLeft(window, rt as real);
          var value := Mean(window);
          out := out + [Item(p.time, rt as real, value, p)];
        }
        j := j + 1;
      }
      assert recs[..|batch|] == recs;
      servertime, history := time, window;
      return Ok(out);
    }
  }

  /**
   * Before any result has been processed servertime is None, which Python 2
   * orders before every int: a first poll on a newest-first listing emits
   * all five results, oldest first.
   */
  lemma FirstPollEmitsAllFive(h: seq<real>, ps: seq<PingdomResult>)
    requires |ps| >= 5 && NewestFirst(ps)
    ensures var r := Scan(Start<PingdomResult>(None, h), AsRecords(NewestFive(ps)));
      && |r.emitted| == 5
      && forall k :: 0 <= k < 5 ==> r.emitted[k].source == ps[4 - k]
  {
    var s := Start<PingdomResult>(None, h);
    var batch := AsRecords(NewestFive(ps));
    NewestFiveAt(ps);
    SortedBatchEmitsAll(s, batch);
    LoadEmitsAll(s, batch);
    forall k | 0 <= k < 5
      ensures Load(s, batch).emitted[k].source == ps[4 - k]
    {
      assert batch[k] == AsRecord(ps[4 - k]);
    }
  }
}
