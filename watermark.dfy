/**
 * The watermark de-duplication shared by every metric adapter: a fetched
 * batch is scanned in order, and a record is processed only when its time is
 * strictly greater than the running `servertime`; a processed record advances
 * `servertime`, pushes its raw value into the smoothing window and is emitted
 * with the window mean attached as its `value`.
 *
 * Historic loading uses the same per-record processing without the filter.
 * All definitions recurse on the last record, the order in which the
 * adapters' loops consume a batch.
 */
module Watermark {
  import opened Wrappers
  import opened Window

  /** A fetched record: its time, the raw sample to smooth, and the record itself. */
  datatype Record<P> = Record(time: int, raw: real, source: P)

  /** One record per element of an adapter's listing, in order, by the adapter's conversion. */
  function Records<T, P>(xs: seq<T>, conv: T -> Record<P>): (rs: seq<Record<P>>)
    ensures |rs| == |xs|
    ensures forall k :: 0 <= k < |xs| ==> rs[k] == conv(xs[k])
  {
    seq(|xs|, k requires 0 <= k < |xs| => conv(xs[k]))
  }

  /** An emitted model input: the record with its smoothed `value` attached. */
  datatype Item<P> = Item(time: int, raw: real, value: real, source: P)

  /** The adapter state a scan threads through: servertime, window, output list. */
  datatype Scanned<P> = Scanned(mark: Option<int>, history: seq<real>, emitted: seq<Item<P>>)

  function Start<P>(mark: Option<int>, h: seq<real>): Scanned<P> {
    Scanned(mark, h, [])
  }

  /** `servertime < time`; an unset servertime (Python 2 None) is older than any time. */
  predicate Newer(mark: Option<int>, t: int) {
    mark.None? || mark.value < t
  }

  /** mark a is at or past mark b. */
  predicate AtLeast(a: Option<int>, b: Option<int>) {
    b.None? || (a.Some? && b.value <= a.value)
  }

  /** Process one record: advance servertime, push the raw value, attach the mean. */
  function Admit<P>(s: Scanned<P>, r: Record<P>): Scanned<P> {
    var h := PushLeft(s.history, r.raw);
    Scanned(Some(r.time), h, s.emitted + [Item(r.time, r.raw, Mean(h), r.source)])
  }

  /** One iteration of a `new_data` loop. */
  function Step<P>(s: Scanned<P>, r: Record<P>): Scanned<P> {
    if Newer(s.mark, r.time) then Admit(s, r) else s
  }

  /** A `new_data` loop over a whole batch. */
  function Scan<P>(s: Scanned<P>, rs: seq<Record<P>>): Scanned<P> {
    if rs == [] then s else Step(Scan(s, rs[..|rs| - 1]), rs[|rs| - 1])
  }

  /** A `historic_data` loop: every record is processed, none is filtered. */
  function Load<P>(s: Scanned<P>, rs: seq<Record<P>>): Scanned<P> {
    if rs == [] then s else Admit(Load(s, rs[..|rs| - 1]), rs[|rs| - 1])
  }

  /** A `new_data` loop that has seen one more record has taken one more step. */
  lemma ScanNext<P>(s: Scanned<P>, rs: seq<Record<P>>, j: nat)
    requires j < |rs|
    ensures Scan(s, rs[..j + 1]) == Step(Scan(s, rs[..j]), rs[j])
  {
    assert rs[..j + 1][..j] == rs[..j];
  }

  /** A `historic_data` loop that has seen one more record has admitted it. */
  lemma LoadNext<P>(s: Scanned<P>, rs: seq<Record<P>>, j: nat)
    requires j < |rs|
    ensures Load(s, rs[..j + 1]) == Admit(Load(s, rs[..j]), rs[j])
  {
    assert rs[..j + 1][..j] == rs[..j];
  }

  function Raws<P>(items: seq<Item<P>>): seq<real> {
    seq(|items|, i requires 0 <= i < |items| => items[i].raw)
  }

  /**
   * The window is the start window h0 with the raw values of exactly the
   * emitted items pushed, in order, and each emitted value is the window
   * mean just after that item's push.
   */
  ghost predicate Smoothed<P>(h0: seq<real>, s: Scanned<P>) {
    && s.history == PushAll(h0, Raws(s.emitted))
    && forall k :: 0 <= k < |s.emitted| ==> s.emitted[k].value == MeanAfter(h0, s.emitted, k)
  }

  /** The window mean once the raw values of items[0..k] have been pushed onto h0. */
  ghost function MeanAfter<P>(h0: seq<real>, items: seq<Item<P>>, k: nat): real
    requires k < |items|
  {
    Mean(PushAll(h0, Raws(items[..k + 1])))
  }

  lemma MeanAfterPrefix<P>(h0: seq<real>, items: seq<Item<P>>, it: Item<P>, k: nat)
    requires k < |items|
    ensures MeanAfter(h0, items + [it], k) == MeanAfter(h0, items, k)
  {
    assert (items + [it])[..k + 1] == items[..k + 1];
  }

  /** Emitted times strictly increase, all beat mark0, and the mark is the last of them. */
  ghost predicate Tracks<P>(mark0: Option<int>, s: Scanned<P>) {
    && (forall i, j :: 0 <= i < j < |s.emitted| ==> s.emitted[i].time < s.emitted[j].time)
    && (forall k :: 0 <= k < |s.emitted| ==> Newer(mark0, s.emitted[k].time))
    && s.mark == if s.emitted == [] then mark0 else Some(s.emitted[|s.emitted| - 1].time)
  }

  lemma RawsSnoc<P>(items: seq<Item<P>>, it: Item<P>)
    ensures Raws(items + [it]) == Raws(items) + [it.raw]
  {
  }

  lemma AdmitSmoothed<P>(h0: seq<real>, s: Scanned<P>, r: Record<P>)
    requires Smoothed(h0, s)
    ensures Smoothed(h0, Admit(s, r))
  {
    var t := Admit(s, r);
    var n := |s.emitted|;
    var it := t.emitted[n];
    assert t.emitted == s.emitted + [it];
    RawsSnoc(s.emitted, it);
    PushAllSnoc(h0, Raws(s.emitted), r.raw);
    assert t.history == PushAll(h0, Raws(t.emitted));
    assert t.emitted[..n + 1] == t.emitted;
    assert t.emitted[n].value == MeanAfter(h0, t.emitted, n);
    forall k | 0 <= k < n
      ensures t.emitted[k].value == MeanAfter(h0, t.emitted, k)
    {
      MeanAfterPrefix(h0, s.emitted, it, k);
    }
  }

  lemma {:induction false} ScanSmoothed<P>(h0: seq<real>, s: Scanned<P>, rs: seq<Record<P>>)
    requires Smoothed(h0, s)
    ensures Smoothed(h0, Scan(s, rs))
  {
    if rs != [] {
      ScanSmoothed(h0, s, rs[..|rs| - 1]);
      var p := Scan(s, rs[..|rs| - 1]);
      if Newer(p.mark, rs[|rs| - 1].time) {
        AdmitSmoothed(h0, p, rs[|rs| - 1]);
      }
    }
  }

  lemma {:induction false} LoadSmoothed<P>(h0: seq<real>, s: Scanned<P>, rs: seq<Record<P>>)
    requires Smoothed(h0, s)
    ensures Smoothed(h0, Load(s, rs))
  {
    if rs != [] {
      LoadSmoothed(h0, s, rs[..|rs| - 1]);
      AdmitSmoothed(h0, Load(s, rs[..|rs| - 1]), rs[|rs| - 1]);
    }
  }

  /**
   * A scan pushes exactly one value per emitted item and none for a skipped
   * record, so the window keeps its capacity, and every emitted value is the
   * window mean right after its own push.
   */
  lemma ScanPushesOncePerItem<P>(mark: Option<int>, h: seq<real>, rs: seq<Record<P>>)
    ensures var r := Scan(Start<P>(mark, h), rs);
      && r.history == PushAll(h, Raws(r.emitted))
      && |r.history| == |h|
      && forall k :: 0 <= k < |r.emitted| ==>
           r.emitted[k].value == Mean(PushAll(h, Raws(r.emitted[..k + 1])))
  {
    assert Raws<P>([]) == [];
    ScanSmoothed(h, Start<P>(mark, h), rs);
    var r := Scan(Start<P>(mark, h), rs);
    PushAllAt(h, Raws(r.emitted));
  }

  lemma StepTracks<P>(mark0: Option<int>, s: Scanned<P>, r: Record<P>)
    requires Tracks(mark0, s)
    ensures Tracks(mark0, Step(s, r))
  {
  }

  lemma {:induction false} ScanTracks<P>(mark0: Option<int>, s: Scanned<P>, rs: seq<Record<P>>)
    requires Tracks(mark0, s)
    ensures Tracks(mark0, Scan(s, rs))
  {
    if rs != [] {
      ScanTracks(mark0, s, rs[..|rs| - 1]);
      StepTracks(mark0, Scan(s, rs[..|rs| - 1]), rs[|rs| - 1]);
    }
  }

  /**
   * The times a scan emits strictly increase and are all newer than the
   * starting servertime; the final servertime is the last emitted time, or
   * the starting one when nothing was emitted.
   */
  lemma ScanEmitsIncreasing<P>(mark: Option<int>, h: seq<real>, rs: seq<Record<P>>)
    ensures var r := Scan(Start<P>(mark, h), rs);
      && (forall i, j :: 0 <= i < j < |r.emitted| ==> r.emitted[i].time < r.emitted[j].time)
      && (forall k :: 0 <= k < |r.emitted| ==> Newer(mark, r.emitted[k].time))
      && r.mark == if r.emitted == [] then mark else Some(r.emitted[|r.emitted| - 1].time)
  {
    ScanTracks(mark, Start<P>(mark, h), rs);
  }

  /**
   * After a scan the servertime is the maximum of the starting one and of
   * every scanned time: at least each of them, and equal to one of them.
   */
  lemma {:induction false} ScanMarkIsMax<P>(s: Scanned<P>, rs: seq<Record<P>>)
    ensures var m := Scan(s, rs).mark;
      && (forall j :: 0 <= j < |rs| ==> !Newer(m, rs[j].time))
      && AtLeast(m, s.mark)
      && (m == s.mark || exists j :: 0 <= j < |rs| && m == Some(rs[j].time))
  {
    if rs != [] {
      var init := rs[..|rs| - 1];
      ScanMarkIsMax(s, init);
      var p := Scan(s, init);
      var m := Scan(s, rs).mark;
      if m != s.mark && m != Some(rs[|rs| - 1].time) {
        assert m == p.mark;
        var j :| 0 <= j < |init| && p.mark == Some(init[j].time);
        assert m == Some(rs[j].time);
      }
    }
  }

  /** A scan only appends to the output list. */
  lemma {:induction false} ScanGrows<P>(s: Scanned<P>, rs: seq<Record<P>>)
    ensures |Scan(s, rs).emitted| >= |s.emitted|
    ensures Scan(s, rs).emitted[..|s.emitted|] == s.emitted
  {
    if rs != [] {
      ScanGrows(s, rs[..|rs| - 1]);
    }
  }

  /** Scanning two batches one after the other is scanning their concatenation. */
  lemma {:induction false} ScanAppend<P>(s: Scanned<P>, xs: seq<Record<P>>, ys: seq<Record<P>>)
    ensures Scan(s, xs + ys) == Scan(Scan(s, xs), ys)
  {
    if ys == [] {
      assert xs + ys == xs;
    } else {
      assert (xs + ys)[..|xs + ys| - 1] == xs + ys[..|ys| - 1];
      ScanAppend(s, xs, ys[..|ys| - 1]);
    }
  }

  /** What a scan emits does not depend on the items already in the output list. */
  lemma {:induction false} ScanShift<P>(s: Scanned<P>, rs: seq<Record<P>>)
    ensures var r := Scan(Start<P>(s.mark, s.history), rs);
      Scan(s, rs) == Scanned(r.mark, r.history, s.emitted + r.emitted)
  {
    if rs != [] {
      ScanShift(s, rs[..|rs| - 1]);
    }
  }

  /** The item carries the time, raw value and record of one of rs. */
  ghost predicate InBatch<P>(rs: seq<Record<P>>, it: Item<P>) {
    exists j :: 0 <= j < |rs| && rs[j].time == it.time && rs[j].raw == it.raw && rs[j].source == it.source
  }

  /** Every emitted item is one of the scanned records. */
  lemma {:induction false} ScanEmitsFromBatch<P>(s: Scanned<P>, rs: seq<Record<P>>)
    ensures var e := Scan(s, rs).emitted;
      forall k :: |s.emitted| <= k < |e| ==> InBatch(rs, e[k])
  {
    if rs != [] {
      var init := rs[..|rs| - 1];
      ScanEmitsFromBatch(s, init);
      ScanGrows(s, init);
      var e := Scan(s, rs).emitted;
      var pe := Scan(s, init).emitted;
      forall k | |s.emitted| <= k < |e|
        ensures InBatch(rs, e[k])
      {
        if k < |pe| {
          assert InBatch(init, pe[k]);
          var j :| 0 <= j < |init| &&
            init[j].time == pe[k].time && init[j].raw == pe[k].raw && init[j].source == pe[k].source;
          assert rs[j] == init[j];
        } else {
          assert e[k].time == rs[|rs| - 1].time && e[k].source == rs[|rs| - 1].source;
        }
      }
    }
  }

  /**
   * No new sample is lost: a record newer than the starting servertime and
   * than every record scanned before it is emitted.
   */
  lemma ScanKeepsFreshRecord<P>(mark: Option<int>, h: seq<real>, rs: seq<Record<P>>, j: nat)
    requires j < |rs|
    requires Newer(mark, rs[j].time)
    requires forall i :: 0 <= i < j ==> rs[i].time < rs[j].time
    ensures var e := Scan(Start<P>(mark, h), rs).emitted;
      exists k :: 0 <= k < |e| &&
        e[k].time == rs[j].time && e[k].raw == rs[j].raw && e[k].source == rs[j].source
  {
    var s := Start<P>(mark, h);
    var p := Scan(s, rs[..j]);
    FreshAfterPrefix(mark, h, rs, j);
    ScanNext(s, rs, j);
    var q := Scan(s, rs[..j + 1]);
    assert q.emitted[|p.emitted|].time == rs[j].time;
    ScanAppend(s, rs[..j + 1], rs[j + 1..]);
    assert rs[..j + 1] + rs[j + 1..] == rs;
    ScanGrows(q, rs[j + 1..]);
    var e := Scan(s, rs).emitted;
    assert e[|p.emitted|] == q.emitted[|p.emitted|];
  }

  /** A record newer than the start and than every record before it still beats the mark they leave. */
  lemma FreshAfterPrefix<P>(mark: Option<int>, h: seq<real>, rs: seq<Record<P>>, j: nat)
    requires j < |rs|
    requires Newer(mark, rs[j].time)
    requires forall i :: 0 <= i < j ==> rs[i].time < rs[j].time
    ensures Newer(Scan(Start<P>(mark, h), rs[..j]).mark, rs[j].time)
  {
    var pre := rs[..j];
    ScanMarkIsMax(Start<P>(mark, h), pre);
    var m := Scan(Start<P>(mark, h), pre).mark;
    if m != mark {
      var i :| 0 <= i < |pre| && m == Some(pre[i].time);
      assert pre[i] == rs[i];
    }
  }

  /** A scan from a servertime no record beats changes nothing. */
  lemma {:induction false} ScanOfStaleBatch<P>(s: Scanned<P>, rs: seq<Record<P>>)
    requires forall j :: 0 <= j < |rs| ==> !Newer(s.mark, rs[j].time)
    ensures Scan(s, rs) == s
  {
    if rs != [] {
      ScanOfStaleBatch(s, rs[..|rs| - 1]);
    }
  }

  /**
   * Fetching the same batch again (the adapters re-read the last five
   * results on every poll) emits nothing and changes neither servertime nor
   * the window.
   */
  lemma RefetchEmitsNothing<P>(mark: Option<int>, h: seq<real>, rs: seq<Record<P>>)
    ensures var r := Scan(Start<P>(mark, h), rs);
      Scan(Start<P>(r.mark, r.history), rs) == Start<P>(r.mark, r.history)
  {
    var r := Scan(Start<P>(mark, h), rs);
    ScanMarkIsMax(Start<P>(mark, h), rs);
    ScanOfStaleBatch(Start<P>(r.mark, r.history), rs);
  }

  /**
   * Two successive scans, the second starting from the servertime and window
   * the first left, together emit strictly increasing times.
   */
  lemma SuccessiveScansIncrease<P>(mark: Option<int>, h: seq<real>, xs: seq<Record<P>>, ys: seq<Record<P>>)
    ensures var r1 := Scan(Start<P>(mark, h), xs);
      var r2 := Scan(Start<P>(r1.mark, r1.history), ys);
      forall i, j :: 0 <= i < j < |r1.emitted + r2.emitted| ==>
        (r1.emitted + r2.emitted)[i].time < (r1.emitted + r2.emitted)[j].time
  {
    var r1 := Scan(Start<P>(mark, h), xs);
    ScanShift(r1, ys);
    ScanAppend(Start<P>(mark, h), xs, ys);
    ScanEmitsIncreasing(mark, h, xs + ys);
  }

  /** Loading processes every record, in order, and leaves servertime at the last one. */
  lemma LoadEmitsAll<P>(s: Scanned<P>, rs: seq<Record<P>>)
    ensures var r := Load(s, rs);
      && |r.emitted| == |s.emitted| + |rs|
      && r.emitted[..|s.emitted|] == s.emitted
      && (forall k :: 0 <= k < |rs| ==>
            var e := r.emitted[|s.emitted| + k];
            e.time == rs[k].time && e.raw == rs[k].raw && e.source == rs[k].source)
      && r.mark == if rs == [] then s.mark else Some(rs[|rs| - 1].time)
  {
    LoadAppends(s, rs);
    forall k | 0 <= k < |rs|
      ensures var e := Load(s, rs).emitted[|s.emitted| + k];
        e.time == rs[k].time && e.raw == rs[k].raw && e.source == rs[k].source
    {
      LoadItemAt(s, rs, k);
    }
  }

  /** Loading appends one item per record and leaves servertime at the last record. */
  lemma {:induction false} LoadAppends<P>(s: Scanned<P>, rs: seq<Record<P>>)
    ensures |Load(s, rs).emitted| == |s.emitted| + |rs|
    ensures Load(s, rs).emitted[..|s.emitted|] == s.emitted
    ensures Load(s, rs).mark == if rs == [] then s.mark else Some(rs[|rs| - 1].time)
  {
    if rs != [] {
      var p := Load(s, rs[..|rs| - 1]);
      LoadAppends(s, rs[..|rs| - 1]);
      assert Load(s, rs).emitted[..|p.emitted|] == p.emitted;
      assert p.emitted[..|s.emitted|] == s.emitted;
    }
  }

  /** The item for the k-th record comes from that record. */
  lemma {:induction false} LoadItemAt<P>(s: Scanned<P>, rs: seq<Record<P>>, k: nat)
    requires k < |rs|
    ensures |Load(s, rs).emitted| == |s.emitted| + |rs|
    ensures var e := Load(s, rs).emitted[|s.emitted| + k];
      e.time == rs[k].time && e.raw == rs[k].raw && e.source == rs[k].source
  {
    LoadAppends(s, rs);
    var init := rs[..|rs| - 1];
    LoadAppends(s, init);
    var p := Load(s, init);
    if k < |init| {
      LoadItemAt(s, init, k);
      assert Load(s, rs).emitted[|s.emitted| + k] == p.emitted[|s.emitted| + k];
      assert rs[k] == init[k];
    }
  }

  /** Historic loading pushes every record's raw value; each value is the mean after its push. */
  lemma LoadPushesEveryRecord<P>(mark: Option<int>, h: seq<real>, rs: seq<Record<P>>)
    ensures var r := Load(Start<P>(mark, h), rs);
      && r.history == PushAll(h, Raws(r.emitted))
      && |r.history| == |h|
      && forall k :: 0 <= k < |r.emitted| ==>
           r.emitted[k].value == Mean(PushAll(h, Raws(r.emitted[..k + 1])))
  {
    assert Raws<P>([]) == [];
    LoadSmoothed(h, Start<P>(mark, h), rs);
    var r := Load(Start<P>(mark, h), rs);
    PushAllAt(h, Raws(r.emitted));
  }

  /**
   * On a batch sorted by strictly increasing time and newer than the
   * servertime, the filter drops nothing: the scan is the unconditional load.
   */
  lemma {:induction false} SortedBatchEmitsAll<P>(s: Scanned<P>, rs: seq<Record<P>>)
    requires forall i, j :: 0 <= i < j < |rs| ==> rs[i].time < rs[j].time
    requires forall j :: 0 <= j < |rs| ==> Newer(s.mark, rs[j].time)
    ensures Scan(s, rs) == Load(s, rs)
  {
    if rs != [] {
      var init := rs[..|rs| - 1];
      SortedBatchEmitsAll(s, init);
      LoadEmitsAll(s, init);
    }
  }

  /** The records of rs newer than mark, in batch order. */
  function Fresh<P>(mark: Option<int>, rs: seq<Record<P>>): (f: seq<Record<P>>)
    ensures |f| <= |rs|
    ensures forall x :: x in f ==> x in rs && Newer(mark, x.time)
  {
    if rs == [] then []
    else Fresh(mark, rs[..|rs| - 1]) + (if Newer(mark, rs[|rs| - 1].time) then [rs[|rs| - 1]] else [])
  }

  /** No record newer than the mark is filtered out. */
  lemma {:induction false} FreshKeepsEveryNewer<P>(mark: Option<int>, rs: seq<Record<P>>)
    ensures forall x :: x in rs && Newer(mark, x.time) ==> x in Fresh(mark, rs)
  {
    if rs != [] {
      var init := rs[..|rs| - 1];
      FreshKeepsEveryNewer(mark, init);
      assert rs == init + [rs[|rs| - 1]];
    }
  }

  /**
   * Filtering distributes over concatenation: the fresh records of a batch
   * keep the batch's order, those of an earlier part before those of a later one.
   */
  lemma {:induction false} FreshAppend<P>(mark: Option<int>, xs: seq<Record<P>>, ys: seq<Record<P>>)
    ensures Fresh(mark, xs + ys) == Fresh(mark, xs) + Fresh(mark, ys)
    decreases |ys|
  {
    if ys == [] {
      assert xs + ys == xs;
    } else {
      var init := ys[..|ys| - 1];
      var last := ys[|ys| - 1];
      assert (xs + ys)[..|xs + ys| - 1] == xs + init;
      assert (xs + ys)[|xs + ys| - 1] == last;
      FreshAppend(mark, xs, init);
    }
  }

  /** Times strictly increase along the batch. */
  predicate Increasing<P>(rs: seq<Record<P>>) {
    forall i, j :: 0 <= i < j < |rs| ==> rs[i].time < rs[j].time
  }

  /**
   * On a batch in strictly increasing time order, the filter emits exactly
   * the records newer than the starting servertime: the scan is the
   * unconditional load of those records.
   */
  lemma {:induction false} ScanOfIncreasing<P>(s: Scanned<P>, rs: seq<Record<P>>)
    requires Increasing(rs)
    ensures Scan(s, rs) == Load(s, Fresh(s.mark, rs))
  {
    if rs != [] {
      var init, last := rs[..|rs| - 1], rs[|rs| - 1];
      ScanOfIncreasing(s, init);
      var f := Fresh(s.mark, init);
      LoadEmitsAll(s, f);
      var p := Scan(s, init);
      if f != [] {
        var x := f[|f| - 1];
        assert x in init;
        var j :| 0 <= j < |init| && init[j] == x;
        assert rs[j] == x;
        assert Newer(s.mark, x.time);
        assert p.mark == Some(x.time);
        assert Newer(p.mark, last.time) <==> Newer(s.mark, last.time);
      } else {
        assert p.mark == s.mark;
      }
      if Newer(s.mark, last.time) {
        assert Fresh(s.mark, rs) == f + [last];
        assert (f + [last])[..|f|] == f;
      } else {
        assert Fresh(s.mark, rs) == f;
      }
    }
  }
}
