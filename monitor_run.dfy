/**
 * The stand-alone Pingdom monitor loop `run` (monitor/monitor.py): train on
 * the last six pages of results, then poll the five newest results, feed
 * every new smoothed response time to the model and store a result row
 * whenever the model has a one-step prediction.
 *
 * The NuPIC model with its shifter and anomaly likelihood is the function
 * `model` from everything fed so far to the answer for the latest input;
 * whether the redis write succeeds is the function `stored` of the same.
 * The endless polling loop runs over a finite sequence of poll outcomes.
 */
module MonitorRun {
  import opened Wrappers
  import opened Values
  import opened Window
  import opened Watermark
  import opened Pingdom

  /** MAVG_WINDOW */
  const MovingAverageWindow: nat := 30

  /** The training loop requests pages 0 to 5 of 1000 results each. */
  const HistoricPages: nat := 6

  /** The fields of one model input: time, status and the smoothed response time. */
  datatype Fed = Fed(time: int, status: string, responsetime: real)

  /**
   * The model's answer for its latest input: the one-step prediction when
   * `inference[1]` is non-empty, the anomaly score, and the likelihood.
   */
  datatype Inference = Inference(prediction: Option<real>, anomalyScore: real, likelihood: real)

  /**
   * One redis row 'time,status,actual,prediction,anomaly,likelihood'.
   * `actual` is `rawInput['responsetime']`, which by then holds the smoothed
   * value; it and the prediction are written with %d.
   */
  datatype ResultRow = ResultRow(time: int, status: string, actual: int, prediction: int,
                                 anomalyScore: real, likelihood: real)

  /** Everything fed to the model and every row stored. */
  datatype Session = Session(fed: seq<Fed>, rows: seq<ResultRow>)

  /** The loop's variables: servertime, the window, and the session so far. */
  datatype Loop = Loop(servertime: Option<int>, history: seq<real>, session: Session)

  /** Where the loop is after some polls; `exit` is the exception that ended it. */
  datatype Outcome = Outcome(state: Loop, exit: Option<PyError>)

  function FedOf(it: Item<PingdomResult>): Fed {
    Fed(it.time, it.source.status, it.value)
  }

  function RowOf(it: Item<PingdomResult>, inf: Inference): ResultRow
    requires inf.prediction.Some?
  {
    ResultRow(it.time, it.source.status, Truncate(it.value), Truncate(inf.prediction.value),
              inf.anomalyScore, inf.likelihood)
  }

  /** One processed result: feed it, then store a row if there is a prediction and redis takes it. */
  function Process(model: seq<Fed> -> Inference, stored: seq<Fed> -> bool, s: Session, it: Item<PingdomResult>): Session {
    var fed := s.fed + [FedOf(it)];
    var inf := model(fed);
    if inf.prediction.Some? && stored(fed) then Session(fed, s.rows + [RowOf(it, inf)])
    else Session(fed, s.rows)
  }

  function ProcessAll(model: seq<Fed> -> Inference, stored: seq<Fed> -> bool, s: Session,
                      items: seq<Item<PingdomResult>>): Session
  {
    if items == [] then s
    else Process(model, stored, ProcessAll(model, stored, s, items[..|items| - 1]), items[|items| - 1])
  }

  lemma ProcessAllNext(model: seq<Fed> -> Inference, stored: seq<Fed> -> bool, s: Session,
                       items: seq<Item<PingdomResult>>, it: Item<PingdomResult>)
    ensures ProcessAll(model, stored, s, items + [it]) == Process(model, stored, ProcessAll(model, stored, s, items), it)
  {
    assert (items + [it])[..|items|] == items;
  }

  /** Pages 0 to n - 1, one after the other. */
  function PagesUpTo(fetch: nat -> seq<PingdomResult>, n: nat): seq<PingdomResult> {
    if n == 0 then [] else PagesUpTo(fetch, n - 1) + fetch(n - 1)
  }

  /** The loop state once training has replayed all six pages oldest first. */
  function AfterTraining(model: seq<Fed> -> Inference, stored: seq<Fed> -> bool,
                         fetch: nat -> seq<PingdomResult>): Loop
  {
    var l := Load(Start<PingdomResult>(None, ZeroWindow(MovingAverageWindow)),
                  AsRecords(Reverse(PagesUpTo(fetch, HistoricPages))));
    Loop(l.mark, l.history, ProcessAll(model, stored, Session([], []), l.emitted))
  }

  /**
   * One pass of the polling loop: a failed request changes nothing; fewer
   * than five results raise IndexError, which ends the loop; otherwise the
   * new results among the five newest are processed.
   */
  function AfterPoll(model: seq<Fed> -> Inference, stored: seq<Fed> -> bool, s: Loop,
                     fetched: Option<seq<PingdomResult>>): Outcome
  {
    if fetched.None? then Outcome(s, None)
    else if |fetched.value| < 5 then Outcome(s, Some(IndexError))
    else
      var r := Scan(Start<PingdomResult>(s.servertime, s.history), AsRecords(NewestFive(fetched.value)));
      Outcome(Loop(r.mark, r.history, ProcessAll(model, stored, s.session, r.emitted)), None)
  }

  function AfterPolls(model: seq<Fed> -> Inference, stored: seq<Fed> -> bool, s: Loop,
                      polls: seq<Option<seq<PingdomResult>>>): Outcome
  {
    if polls == [] then Outcome(s, None)
    else
      var o := AfterPolls(model, stored, s, polls[..|polls| - 1]);
      if o.exit.Some? then o else AfterPoll(model, stored, o.state, polls[|polls| - 1])
  }

  /** Processing only appends: every item is fed, in order, and earlier rows stay. */
  lemma {:induction false} ProcessAllFeedsEvery(model: seq<Fed> -> Inference, stored: seq<Fed> -> bool,
                                                s: Session, items: seq<Item<PingdomResult>>)
    ensures var t := ProcessAll(model, stored, s, items);
      && |t.fed| == |s.fed| + |items|
      && t.fed[..|s.fed|] == s.fed
      && (forall k :: 0 <= k < |items| ==> t.fed[|s.fed| + k] == FedOf(items[k]))
      && |s.rows| <= |t.rows| <= |s.rows| + |items|
      && t.rows[..|s.rows|] == s.rows
  {
    if items != [] {
      ProcessAllFeedsEvery(model, stored, s, items[..|items| - 1]);
    }
  }

  /** The item k's row, as it is written when the model predicts after item k has been fed. */
  ghost predicate RowFor(model: seq<Fed> -> Inference, s: Session, items: seq<Item<PingdomResult>>,
                         k: int, row: ResultRow)
    requires 0 <= k < |items|
  {
    var inf := model(s.fed + Feeds(items[..k + 1]));
    inf.prediction.Some? && row == RowOf(items[k], inf)
  }

  function Feeds(items: seq<Item<PingdomResult>>): (fs: seq<Fed>)
    ensures |fs| == |items|
    ensures forall k :: 0 <= k < |items| ==> fs[k] == FedOf(items[k])
  {
    seq(|items|, k requires 0 <= k < |items| => FedOf(items[k]))
  }

  /** What is fed for each item: its time, its check status and its smoothed value. */
  lemma FeedsCarryFields(items: seq<Item<PingdomResult>>, k: nat)
    requires k < |items|
    ensures var f := Feeds(items)[k];
      f.time == items[k].time && f.status == items[k].source.status && f.responsetime == items[k].value
  {
  }

  /**
   * A row is only ever stored for an item the model had a prediction for:
   * each new row is the row of one processed item.
   */
  lemma {:induction false} RowsOnlyForPredictions(model: seq<Fed> -> Inference, stored: seq<Fed> -> bool,
                                                  s: Session, items: seq<Item<PingdomResult>>, n: nat)
    requires |s.rows| <= n < |ProcessAll(model, stored, s, items).rows|
    ensures exists k :: 0 <= k < |items| && RowFor(model, s, items, k, ProcessAll(model, stored, s, items).rows[n])
  {
    var init := items[..|items| - 1];
    var last := |items| - 1;
    ProcessAllFed(model, stored, s, init);
    var p := ProcessAll(model, stored, s, init);
    var t := ProcessAll(model, stored, s, items);
    var fed := p.fed + [FedOf(items[last])];
    assert t == Process(model, stored, p, items[last]);
    if n < |p.rows| {
      RowsOnlyForPredictions(model, stored, s, init, n);
      var k :| 0 <= k < |init| && RowFor(model, s, init, k, p.rows[n]);
      assert items[..k + 1] == init[..k + 1];
      assert t.rows[n] == p.rows[n];
      assert RowFor(model, s, items, k, t.rows[n]);
    } else {
      assert items[..last + 1] == items;
      assert Feeds(items) == Feeds(init) + [FedOf(items[last])];
      assert s.fed + Feeds(items[..last + 1]) == fed;
      assert t.rows[n] == RowOf(items[last], model(fed));
      assert RowFor(model, s, items, last, t.rows[n]);
    }
  }

  /**
   * When the model predicts and redis takes every write, each processed item
   * gets its row, in order; when the model never predicts, no row is stored.
   */
  lemma {:induction false} RowForEveryPrediction(model: seq<Fed> -> Inference, stored: seq<Fed> -> bool,
                                                 s: Session, items: seq<Item<PingdomResult>>)
    ensures (forall fs :: model(fs).prediction.Some? && stored(fs)) ==>
      var t := ProcessAll(model, stored, s, items);
      && |t.rows| == |s.rows| + |items|
      && t.rows[..|s.rows|] == s.rows
      && var added := t.rows[|s.rows|..];
         forall k :: 0 <= k < |items| ==> RowFor(model, s, items, k, added[k])
    ensures (forall fs :: model(fs).prediction.None?) ==> ProcessAll(model, stored, s, items).rows == s.rows
  {
    if items != [] {
      var init := items[..|items| - 1];
      RowForEveryPrediction(model, stored, s, init);
      if forall fs :: model(fs).prediction.Some? && stored(fs) {
        RowsExtend(model, stored, s, items);
      }
    }
  }

  /**
   * The rows the items should leave behind, item by item: the row of each
   * item whose answer, once it and every item before it are fed, has a
   * prediction and whose redis write succeeds; nothing for the others.
   */
  ghost function PredictedRows(model: seq<Fed> -> Inference, stored: seq<Fed> -> bool, fed0: seq<Fed>,
                               items: seq<Item<PingdomResult>>): seq<ResultRow>
  {
    if items == [] then []
    else
      var fed := fed0 + Feeds(items);
      var inf := model(fed);
      PredictedRows(model, stored, fed0, items[..|items| - 1])
        + (if inf.prediction.Some? && stored(fed) then [RowOf(items[|items| - 1], inf)] else [])
  }

  /**
   * Whatever the model answers and redis does, the rows stored are the
   * earlier rows followed by exactly the predicted-and-stored items' rows,
   * in item order.
   */
  lemma {:induction false} RowsAreThePredictedOnes(model: seq<Fed> -> Inference, stored: seq<Fed> -> bool,
                                                   s: Session, items: seq<Item<PingdomResult>>)
    ensures ProcessAll(model, stored, s, items).rows == s.rows + PredictedRows(model, stored, s.fed, items)
  {
    if items != [] {
      var init := items[..|items| - 1];
      RowsAreThePredictedOnes(model, stored, s, init);
      ProcessAllFed(model, stored, s, init);
      assert Feeds(items) == Feeds(init) + [FedOf(items[|items| - 1])];
      assert s.fed + Feeds(items) == (s.fed + Feeds(init)) + [FedOf(items[|items| - 1])];
    }
  }

  lemma {:induction false} PredictedRowsHas(model: seq<Fed> -> Inference, stored: seq<Fed> -> bool, fed0: seq<Fed>,
                                            items: seq<Item<PingdomResult>>, k: nat)
    requires k < |items|
    requires var fed := fed0 + Feeds(items[..k + 1]); model(fed).prediction.Some? && stored(fed)
    ensures RowOf(items[k], model(fed0 + Feeds(items[..k + 1]))) in PredictedRows(model, stored, fed0, items)
  {
    var init := items[..|items| - 1];
    if k == |items| - 1 {
      assert items[..k + 1] == items;
    } else {
      assert init[..k + 1] == items[..k + 1];
      PredictedRowsHas(model, stored, fed0, init, k);
    }
  }

  /**
   * Completeness for any model and any redis: an item whose answer has a
   * prediction and whose write succeeds gets its row among the new rows.
   */
  lemma RowForEachPrediction(model: seq<Fed> -> Inference, stored: seq<Fed> -> bool,
                             s: Session, items: seq<Item<PingdomResult>>, k: nat)
    requires k < |items|
    ensures var fed := s.fed + Feeds(items[..k + 1]);
      var t := ProcessAll(model, stored, s, items);
      && |s.rows| <= |t.rows|
      && (model(fed).prediction.Some? && stored(fed) ==> RowOf(items[k], model(fed)) in t.rows[|s.rows|..])
  {
    var fed := s.fed + Feeds(items[..k + 1]);
    RowsAreThePredictedOnes(model, stored, s, items);
    var t := ProcessAll(model, stored, s, items);
    assert t.rows[|s.rows|..] == PredictedRows(model, stored, s.fed, items);
    if model(fed).prediction.Some? && stored(fed) {
      PredictedRowsHas(model, stored, s.fed, items, k);
    }
  }

  /** The induction step of RowForEveryPrediction: the last item's row follows the others. */
  lemma RowsExtend(model: seq<Fed> -> Inference, stored: seq<Fed> -> bool,
                   s: Session, items: seq<Item<PingdomResult>>)
    requires items != []
    requires forall fs :: model(fs).prediction.Some? && stored(fs)
    requires var p := ProcessAll(model, stored, s, items[..|items| - 1]);
      && |p.rows| == |s.rows| + |items| - 1 && p.rows[..|s.rows|] == s.rows
      && var added := p.rows[|s.rows|..];
         forall k :: 0 <= k < |items| - 1 ==> RowFor(model, s, items[..|items| - 1], k, added[k])
    ensures var t := ProcessAll(model, stored, s, items);
      && |t.rows| == |s.rows| + |items| && t.rows[..|s.rows|] == s.rows
      && var added := t.rows[|s.rows|..];
         forall k :: 0 <= k < |items| ==> RowFor(model, s, items, k, added[k])
  {
    var init := items[..|items| - 1];
    var last := |items| - 1;
    ProcessAllFed(model, stored, s, init);
    var p := ProcessAll(model, stored, s, init);
    var t := ProcessAll(model, stored, s, items);
    var fed := p.fed + [FedOf(items[last])];
    assert t == Process(model, stored, p, items[last]);
    assert t.rows == p.rows + [RowOf(items[last], model(fed))];
    var added := t.rows[|s.rows|..];
    var before := p.rows[|s.rows|..];
    assert added == before + [t.rows[|t.rows| - 1]];
    forall k | 0 <= k < |items|
      ensures RowFor(model, s, items, k, added[k])
    {
      if k < last {
        assert items[..k + 1] == init[..k + 1];
        assert added[k] == before[k];
        assert RowFor(model, s, init, k, before[k]);
      } else {
        assert items[..last + 1] == items;
        assert Feeds(items) == Feeds(init) + [FedOf(items[last])];
        assert s.fed + Feeds(items[..k + 1]) == fed;
      }
    }
  }

  /**
   * The times of fed[from..] strictly increase and all beat `mark`; `st` is
   * the last of them, or `mark` when there is none.
   */
  ghost predicate IncreasingSince(mark: Option<int>, from: nat, fed: seq<Fed>, st: Option<int>) {
    && from <= |fed|
    && (forall i, j :: from <= i < j < |fed| ==> fed[i].time < fed[j].time)
    && (forall k :: from <= k < |fed| ==> Newer(mark, fed[k].time))
    && st == if |fed| == from then mark else Some(fed[|fed| - 1].time)
  }

  ghost predicate FedSince(mark: Option<int>, from: nat, s: Loop) {
    IncreasingSince(mark, from, s.session.fed, s.servertime)
  }

  /** Feeding a run that beats the current servertime continues an increasing run. */
  lemma IncreasingSinceAppend(mark: Option<int>, from: nat, fed: seq<Fed>, st: Option<int>,
                              news: seq<Fed>, st': Option<int>)
    requires IncreasingSince(mark, from, fed, st)
    requires IncreasingSince(st, 0, news, st')
    ensures IncreasingSince(mark, from, fed + news, st')
  {
    AppendedBeatMark(mark, from, fed, st, news);
    AppendedIncrease(from, fed, st, news);
  }

  lemma AppendedBeatMark(mark: Option<int>, from: nat, fed: seq<Fed>, st: Option<int>, news: seq<Fed>)
    requires IncreasingSince(mark, from, fed, st)
    requires forall k :: 0 <= k < |news| ==> Newer(st, news[k].time)
    ensures forall k :: from <= k < |fed + news| ==> Newer(mark, (fed + news)[k].time)
  {
    var all := fed + news;
    var n := |fed|;
    forall k | n <= k < |all|
      ensures Newer(mark, all[k].time)
    {
      assert all[k] == news[k - n];
      assert Newer(st, news[k - n].time);
      if n > from {
        assert fed[from].time <= fed[n - 1].time;
        assert Newer(mark, fed[from].time);
      }
    }
    forall k | from <= k < n
      ensures Newer(mark, all[k].time)
    {
      assert all[k] == fed[k];
    }
  }

  lemma AppendedIncrease(from: nat, fed: seq<Fed>, st: Option<int>, news: seq<Fed>)
    requires from <= |fed|
    requires forall i, j :: from <= i < j < |fed| ==> fed[i].time < fed[j].time
    requires |fed| > from ==> st == Some(fed[|fed| - 1].time)
    requires forall i, j :: 0 <= i < j < |news| ==> news[i].time < news[j].time
    requires forall k :: 0 <= k < |news| ==> Newer(st, news[k].time)
    ensures forall i, j :: from <= i < j < |fed + news| ==> (fed + news)[i].time < (fed + news)[j].time
  {
    var all := fed + news;
    var n := |fed|;
    forall i, j | from <= i < j < |all|
      ensures all[i].time < all[j].time
    {
      if j < n {
        assert all[i] == fed[i] && all[j] == fed[j];
      } else if i >= n {
        assert all[i] == news[i - n] && all[j] == news[j - n];
      } else {
        assert all[i] == fed[i] && all[j] == news[j - n];
        assert fed[i].time <= fed[n - 1].time;
        assert Newer(st, news[j - n].time);
      }
    }
  }

  lemma AfterPollKeepsFedSince(model: seq<Fed> -> Inference, stored: seq<Fed> -> bool,
                               mark: Option<int>, from: nat, s: Loop, fetched: Option<seq<PingdomResult>>)
    requires FedSince(mark, from, s)
    ensures FedSince(mark, from, AfterPoll(model, stored, s, fetched).state)
  {
    if fetched.Some? && |fetched.value| >= 5 {
      var rs := AsRecords(NewestFive(fetched.value));
      var r := Scan(Start<PingdomResult>(s.servertime, s.history), rs);
      ScanEmitsIncreasing(s.servertime, s.history, rs);
      var news := Feeds(r.emitted);
      FeedsIncreasingSince(s.servertime, r.emitted, r.mark);
      IncreasingSinceAppend(mark, from, s.session.fed, s.servertime, news, r.mark);
      ProcessAllFed(model, stored, s.session, r.emitted);
    }
  }

  /** Processing feeds exactly the items, in order, after what was fed before. */
  lemma {:induction false} ProcessAllFed(model: seq<Fed> -> Inference, stored: seq<Fed> -> bool,
                                         s: Session, items: seq<Item<PingdomResult>>)
    ensures ProcessAll(model, stored, s, items).fed == s.fed + Feeds(items)
  {
    if items != [] {
      var init := items[..|items| - 1];
      ProcessAllFed(model, stored, s, init);
      assert Feeds(items) == Feeds(init) + [FedOf(items[|items| - 1])];
    }
  }

  /** Items emitted in increasing time order, all beating `mark`, feed an increasing run. */
  lemma FeedsIncreasingSince(mark: Option<int>, items: seq<Item<PingdomResult>>, st: Option<int>)
    requires forall i, j :: 0 <= i < j < |items| ==> items[i].time < items[j].time
    requires forall k :: 0 <= k < |items| ==> Newer(mark, items[k].time)
    requires st == if items == [] then mark else Some(items[|items| - 1].time)
    ensures IncreasingSince(mark, 0, Feeds(items), st)
  {
    var fs := Feeds(items);
    assert forall k :: 0 <= k < |items| ==> fs[k].time == items[k].time;
  }

  /**
   * Over any run of polls, the times fed to the model strictly increase,
   * each newer than servertime when polling started.
   */
  lemma {:induction false} PolledTimesIncrease(model: seq<Fed> -> Inference, stored: seq<Fed> -> bool,
                                               s: Loop, polls: seq<Option<seq<PingdomResult>>>)
    ensures var o := AfterPolls(model, stored, s, polls);
      var fed := o.state.session.fed;
      && |s.session.fed| <= |fed|
      && (forall i, j :: |s.session.fed| <= i < j < |fed| ==> fed[i].time < fed[j].time)
      && (forall k :: |s.session.fed| <= k < |fed| ==> Newer(s.servertime, fed[k].time))
  {
    PolledFedSince(model, stored, s, polls);
  }

  lemma {:induction false} PolledFedSince(model: seq<Fed> -> Inference, stored: seq<Fed> -> bool,
                                          s: Loop, polls: seq<Option<seq<PingdomResult>>>)
    ensures FedSince(s.servertime, |s.session.fed|, AfterPolls(model, stored, s, polls).state)
  {
    if polls != [] {
      PolledFedSince(model, stored, s, polls[..|polls| - 1]);
      var o := AfterPolls(model, stored, s, polls[..|polls| - 1]);
      if o.exit.None? {
        AfterPollKeepsFedSince(model, stored, s.servertime, |s.session.fed|, o.state, polls[|polls| - 1]);
      }
    }
  }

  /** Reading one more element of a page puts it in front of the reversed results. */
  lemma ReverseTakeOneMore<T>(before: seq<T>, page: seq<T>, k: nat)
    requires k < |page|
    ensures Reverse(before + page[..k + 1]) == [page[k]] + Reverse(before + page[..k])
  {
    var all := before + page[..k + 1];
    assert all[..|all| - 1] == before + page[..k];
  }

  /** The training phase collects pages 0 to 5 with appendleft, so the newest result comes first. */
  method CollectPages(fetch: nat -> seq<PingdomResult>) returns (results: seq<PingdomResult>)
    ensures results == Reverse(PagesUpTo(fetch, HistoricPages))
  {
    results := [];
    var i := 0;
    while i < HistoricPages
      invariant 0 <= i <= HistoricPages
      invariant results == Reverse(PagesUpTo(fetch, i))
    {
      var page := fetch(i);
      ghost var before := PagesUpTo(fetch, i);
      assert before + page[..0] == before;
      var k := 0;
      while k < |page|
        invariant 0 <= k <= |page|
        invariant results == Reverse(before + page[..k])
      {
        ReverseTakeOneMore(before, page, k);
        results := [page[k]] + results;
        k := k + 1;
      }
      assert page[..|page|] == page;
      i := i + 1;
    }
  }

  /** The body both loops of `run` share for a result they process. */
  method ProcessResult(model: seq<Fed> -> Inference, stored: seq<Fed> -> bool,
                       history: seq<real>, session: Session, p: PingdomResult)
    returns (history': seq<real>, session': Session, it: Item<PingdomResult>)
    ensures var a := Admit(Start<PingdomResult>(None, history), AsRecord(p));
      history' == a.history && [it] == a.emitted && session' == Process(model, stored, session, it)
  {
    var rt := ResponseTime(p);
    history' := PushLeft(history, rt as real);
    var value := Mean(history');
    it := Item(p.time, rt as real, value, p);
    var fed := session.fed + [Fed(p.time, p.status, value)];
    var inf := model(fed);
    if inf.prediction.Some? {
      var row := ResultRow(p.time, p.status, Truncate(value), Truncate(inf.prediction.value),
                           inf.anomalyScore, inf.likelihood);
      if stored(fed) {
        session' := Session(fed, session.rows + [row]);
      } else {
        session' := Session(fed, session.rows);
      }
    } else {
      session' := Session(fed, session.rows);
    }
  }

  /** The training loop of `run`: every collected result is processed and fed, none filtered. */
  method Train(model: seq<Fed> -> Inference, stored: seq<Fed> -> bool, results: seq<PingdomResult>)
    returns (state: Loop)
    ensures var l := Load(Start<PingdomResult>(None, ZeroWindow(MovingAverageWindow)), AsRecords(results));
      state == Loop(l.mark, l.history, ProcessAll(model, stored, Session([], []), l.emitted))
  {
    var history := ZeroWindow(MovingAverageWindow);
    var servertime: Option<int> := None;
    var session := Session([], []);
    ghost var s0 := Start<PingdomResult>(None, history);
    ghost var recs := AsRecords(results);
    ghost var items: seq<Item<PingdomResult>> := [];
    var j := 0;
    while j < |results|
      invariant 0 <= j <= |results|
      invariant Scanned(servertime, history, items) == Load(s0, recs[..j])
      invariant session == ProcessAll(model, stored, Session([], []), items)
    {
      LoadNext(s0, recs, j);
      assert recs[j] == AsRecord(results[j]);
      ghost var next := Admit(Scanned(servertime, history, items), recs[j]);
      assert Load(s0, recs[..j + 1]) == next;
      var it;
      history, session, it := ProcessResult(model, stored, history, session, results[j]);
      servertime := Some(results[j].time);
      assert next == Scanned(servertime, history, items + [it]);
      ProcessAllNext(model, stored, Session([], []), items, it);
      items := items + [it];
      j := j + 1;
    }
    assert recs[..|results|] == recs;
    state := Loop(servertime, history, session);
  }

  /** One pass of the polling loop of `run`. */
  method Poll(model: seq<Fed> -> Inference, stored: seq<Fed> -> bool, state: Loop,
              fetched: Option<seq<PingdomResult>>) returns (o: Outcome)
    ensures o == AfterPoll(model, stored, state, fetched)
  {
    if fetched.None? {
      return Outcome(state, None);
    }
    var ps := fetched.value;
    if |ps| < 5 {
      return Outcome(state, Some(IndexError));
    }
    var batch := [ps[4], ps[3], ps[2], ps[1], ps[0]];
    NewestFiveAt(ps);
    assert batch == NewestFive(ps);
    var servertime, history, session := state.servertime, state.history, state.session;
    ghost var b0 := Start<PingdomResult>(servertime, history);
    ghost var brecs := AsRecords(batch);
    ghost var emitted: seq<Item<PingdomResult>> := [];
    var k := 0;
    while k < |batch|
      invariant 0 <= k <= |batch|
      invariant Scanned(servertime, history, emitted) == Scan(b0, brecs[..k])
      invariant session == ProcessAll(model, stored, state.session, emitted)
    {
      ScanNext(b0, brecs, k);
      var p := batch[k];
      assert brecs[k] == AsRecord(p);
      if servertime.None? || servertime.value < p.time {
        ghost var next := Admit(Scanned(servertime, history, emitted), brecs[k]);
        servertime := Some(p.time);
        var it;
        history, session, it := ProcessResult(model, stored, history, session, p);
        assert next == Scanned(servertime, history, emitted + [it]);
        ProcessAllNext(model, stored, state.session, emitted, it);
        emitted := emitted + [it];
      }
      k := k + 1;
    }
    assert brecs[..|batch|] == brecs;
    return Outcome(Loop(servertime, history, session), None);
  }

  /**
   * `run`: train on six pages, then one pass of the polling loop per entry
   * of `polls` until an exception ends it.
   */
  method Run(model: seq<Fed> -> Inference, stored: seq<Fed> -> bool, fetch: nat -> seq<PingdomResult>,
             polls: seq<Option<seq<PingdomResult>>>) returns (session: Session, exit: Option<PyError>)
    ensures var o := AfterPolls(model, stored, AfterTraining(model, stored, fetch), polls);
      session == o.state.session && exit == o.exit
  {
    var results := CollectPages(fetch);
    var state := Train(model, stored, results);
    ghost var start := state;
    exit := None;
    var n := 0;
    while n < |polls| && exit.None?
      invariant 0 <= n <= |polls|
      invariant AfterPolls(model, stored, start, polls[..n]) == Outcome(state, exit)
    {
      assert polls[..n + 1][..n] == polls[..n];
      var o := Poll(model, stored, state, polls[n]);
      state, exit := o.state, o.exit;
      n := n + 1;
    }
    if n < |polls| {
      AfterPollsStopsAtExit(model, stored, start, polls, n);
    } else {
      assert polls[..n] == polls;
    }
    session := state.session;
  }

  /** Once an exception has ended the loop, later polls change nothing. */
  lemma {:induction false} AfterPollsStopsAtExit(model: seq<Fed> -> Inference, stored: seq<Fed> -> bool,
                                                 s: Loop, polls: seq<Option<seq<PingdomResult>>>, n: nat)
    requires n <= |polls|
    requires AfterPolls(model, stored, s, polls[..n]).exit.Some?
    ensures AfterPolls(model, stored, s, polls) == AfterPolls(model, stored, s, polls[..n])
    decreases |polls| - n
  {
    if n < |polls| {
      assert polls[..n + 1][..n] == polls[..n];
      AfterPollsStopsAtExit(model, stored, s, polls, n + 1);
    } else {
      assert polls[..n] == polls;
    }
  }
}
