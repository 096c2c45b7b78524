/**
 * The push-mode monitor registry of the HTTP server (monitor/run_monitor_dyn.py):
 * three dictionaries keyed by check id, holding each check's monitor, the
 * time it was last seen and its smoothing window. `time.time()` is the
 * parameter `now`; the Monitor objects are values whose `delete()` calls
 * are recorded in order.
 */
module Registry {
  import opened Wrappers
  import opened Values
  import opened Window

  /** The stream `new_monitor` builds from its merged stream config. */
  datatype Dynamic = Dynamic(id: Value, name: Value, valueUnit: Value, valueLabel: Value)

  /**
   * A monitor as the registry holds it: the merged monitor config (without
   * its `stream` entry) and the stream. The Monitor class is not part of
   * this model.
   */
  datatype Monitor = Monitor(config: map<string, Value>, stream: Dynamic)

  /** The defaults of `new_monitor`, overridable by the first input to a check. */
  function MonitorDefaults(): map<string, Value> {
    map[
      "resolution" := Int(10),
      "seconds_per_request" := Int(60),
      "webhook" := Null,
      "channel" := Null,
      "likelihood_threshold" := Null,
      "anomaly_threshold" := Float(0.9),
      "domain" := Str("localhost"),
      "protocol" := Str("http"),
      "nupic_model_params" := Obj(map["spParams" := Obj(map["maxBoost" := Float(1.1)])])
    ]
  }

  /** `dict.update`: the keys of both, the caller's value winning; values are replaced whole. */
  function Update(base: map<string, Value>, config: map<string, Value>): map<string, Value> {
    base + config
  }

  lemma UpdateSpec(base: map<string, Value>, config: map<string, Value>)
    ensures Update(base, config).Keys == base.Keys + config.Keys
    ensures forall k :: k in config ==> Update(base, config)[k] == config[k]
    ensures forall k :: k in base && k !in config ==> Update(base, config)[k] == base[k]
  {
  }

  /** The value under `key`, or `default`: `dict.get`. */
  function Get(config: map<string, Value>, key: string, default: Value): Value {
    if key in config then config[key] else default
  }

  /** The stream config of `new_monitor`: id and name default to the check id. */
  function StreamDefaults(id: string): map<string, Value> {
    map["id" := Str(id), "name" := Str(id), "unit" := Str("unknown_unit"), "label" := Str("unknown_label")]
  }

  /** The `Dynamic` stream built from the stream defaults updated with the caller's config. */
  function StreamOf(id: string, config: map<string, Value>): (d: Dynamic)
    ensures d.id == Get(config, "id", Str(id)) && d.name == Get(config, "name", Str(id))
    ensures d.valueUnit == Get(config, "unit", Str("unknown_unit"))
    ensures d.valueLabel == Get(config, "label", Str("unknown_label"))
  {
    var streamConfig := Update(StreamDefaults(id), config);
    Dynamic(streamConfig["id"], streamConfig["name"], streamConfig["unit"], streamConfig["label"])
  }

  /** `new_monitor(check_id, config)` */
  function NewMonitor(id: string, config: map<string, Value>): Monitor {
    Monitor(Update(MonitorDefaults(), config) - {"stream"}, StreamOf(id, config))
  }

  /**
   * The monitor config is the defaults updated with the caller's config,
   * without its `stream` entry, which configures the stream instead.
   */
  lemma NewMonitorConfig(id: string, config: map<string, Value>)
    ensures var m := NewMonitor(id, config);
      && m.config.Keys == (MonitorDefaults().Keys + config.Keys) - {"stream"}
      && (forall k :: k in config && k != "stream" ==> m.config[k] == config[k])
      && (forall k :: k in MonitorDefaults() && k !in config && k != "stream" ==> m.config[k] == MonitorDefaults()[k])
      && m.stream == StreamOf(id, config)
  {
    UpdateWithout(MonitorDefaults(), config, "stream");
  }

  /** `dict.update` followed by removing one key. */
  lemma UpdateWithout(base: map<string, Value>, config: map<string, Value>, key: string)
    ensures (Update(base, config) - {key}).Keys == (base.Keys + config.Keys) - {key}
    ensures forall k :: k in config && k != key ==> (Update(base, config) - {key})[k] == config[k]
    ensures forall k :: k in base && k !in config && k != key ==> (Update(base, config) - {key})[k] == base[k]
  {
  }

  /** The documented defaults a check gets when its first input has no config. */
  lemma NewMonitorDefaults(id: string)
    ensures var m := NewMonitor(id, map[]);
      && m.config["anomaly_threshold"] == Float(0.9)
      && m.config["likelihood_threshold"] == Null
      && m.config["seconds_per_request"] == Int(60)
      && m.stream.name == Str(id)
  {
    NewMonitorConfig(id, map[]);
    DefaultThresholds();
  }

  lemma DefaultThresholds()
    ensures "anomaly_threshold" in MonitorDefaults() && MonitorDefaults()["anomaly_threshold"] == Float(0.9)
    ensures "likelihood_threshold" in MonitorDefaults() && MonitorDefaults()["likelihood_threshold"] == Null
    ensures "seconds_per_request" in MonitorDefaults() && MonitorDefaults()["seconds_per_request"] == Int(60)
  {
  }

  /** `deque([0.0] * int(config.get('moving_average_window', 10)), maxlen=...)`: its capacity. */
  function WindowSize(config: map<string, Value>): (r: Result<nat, PyError>)
    ensures "moving_average_window" !in config ==> r == Ok(10)
    ensures var w := IntOf(Get(config, "moving_average_window", Int(10)));
      && (w.Err? ==> r == Err(w.error))
      && (w.Ok? && w.value >= 0 ==> r == Ok(w.value))
      && (w.Ok? && w.value < 0 ==> r == Err(ValueError))
  {
    match IntOf(Get(config, "moving_average_window", Int(10)))
    case Err(e) => Err(e)
    case Ok(w) => if w < 0 then Err(ValueError) else Ok(w)
  }

  /** The three dictionaries and the ids whose monitors have been deleted, in order. */
  datatype Maps = Maps(monitors: map<string, Monitor>, lastSeen: map<string, real>,
                       windows: map<string, seq<real>>, deleted: seq<string>)

  /** The dictionaries hold the same ids. */
  predicate Consistent(r: Maps) {
    r.monitors.Keys == r.lastSeen.Keys && r.lastSeen.Keys == r.windows.Keys
  }

  /**
   * `get_monitor` as written: last_seen is set first, then a new monitor is
   * stored, and only then is the window built, whose int() or deque() may
   * raise. The final lookup raises KeyError for an id without a window.
   */
  function GetMonitorAsWritten(r: Maps, id: string, config: map<string, Value>, now: real)
    : (Maps, Result<(Monitor, seq<real>), PyError>)
  {
    var r1 := r.(lastSeen := r.lastSeen[id := now]);
    if id in r1.monitors then
      (r1, if id in r1.windows then Ok((r1.monitors[id], r1.windows[id])) else Err(KeyError(id)))
    else
      var r2 := r1.(monitors := r1.monitors[id := NewMonitor(id, config)]);
      match WindowSize(config)
      case Err(e) => (r2, Err(e))
      case Ok(w) => (r2.(windows := r2.windows[id := ZeroWindow(w)]), Ok((r2.monitors[id], ZeroWindow(w))))
  }

  /** `remove_monitor` as written: three deletions in turn, the first missing key raising. */
  function RemoveMonitorAsWritten(r: Maps, id: string): (Maps, Result<(), PyError>) {
    if id !in r.lastSeen then (r, Err(KeyError(id)))
    else
      var r1 := r.(lastSeen := r.lastSeen - {id});
      if id !in r1.windows then (r1, Err(KeyError(id)))
      else
        var r2 := r1.(windows := r1.windows - {id});
        if id !in r2.monitors then (r2, Err(KeyError(id)))
        else (r2.(monitors := r2.monitors - {id}, deleted := r2.deleted + [id]), Ok(()))
  }

  /**
   * A first input whose `moving_average_window` is negative leaves a
   * monitor without a window behind: the dictionaries disagree, every later
   * input for the check raises KeyError, and so does its removal. In the
   * server that removal is made by `garbage_collect` once the check has been
   * idle past the timeout; `do_gc` does not catch the KeyError, so the
   * collection thread ends there, the ids after it in that pass are not
   * removed, and no check is collected again.
   */
  lemma NegativeWindowLeavesHalfRegisteredMonitor(r: Maps, id: string, now: real, later: real)
    requires Consistent(r) && id !in r.monitors
    ensures var config := map["moving_average_window" := Int(-1)];
      var (r1, res) := GetMonitorAsWritten(r, id, config, now);
      && res == Err(ValueError)
      && !Consistent(r1)
      && GetMonitorAsWritten(r1, id, map[], later).1 == Err(KeyError(id))
      && var (r2, rem) := RemoveMonitorAsWritten(r1, id);
         rem == Err(KeyError(id)) && id in r2.monitors && id !in r2.lastSeen
  {
    var config := map["moving_average_window" := Int(-1)];
    assert WindowSize(config) == Err(ValueError);
    var r1 := GetMonitorAsWritten(r, id, config, now).0;
    assert id in r1.monitors && id !in r1.windows;
  }

  /**
   * `get_monitor` with the window validated before anything is stored: a
   * config whose window cannot be built changes nothing.
   */
  function GetMonitorOn(r: Maps, id: string, config: map<string, Value>, now: real)
    : (Maps, Result<(Monitor, seq<real>), PyError>)
    requires Consistent(r)
  {
    if id in r.monitors then
      (r.(lastSeen := r.lastSeen[id := now]), Ok((r.monitors[id], r.windows[id])))
    else
      match WindowSize(config)
      case Err(e) => (r, Err(e))
      case Ok(w) =>
        (r.(monitors := r.monitors[id := NewMonitor(id, config)], lastSeen := r.lastSeen[id := now],
            windows := r.windows[id := ZeroWindow(w)]),
         Ok((NewMonitor(id, config), ZeroWindow(w))))
  }

  lemma GetMonitorOnMiss(r: Maps, id: string, config: map<string, Value>, now: real, w: nat)
    requires Consistent(r) && id !in r.monitors && WindowSize(config) == Ok(w)
    ensures GetMonitorOn(r, id, config, now) ==
      (r.(monitors := r.monitors[id := NewMonitor(id, config)], lastSeen := r.lastSeen[id := now],
          windows := r.windows[id := ZeroWindow(w)]),
       Ok((NewMonitor(id, config), ZeroWindow(w))))
  {
  }

  /** Where the window can be built, or the id is known, the reordered `get_monitor` does what the original does. */
  lemma GetMonitorAgreesWhenWindowValid(r: Maps, id: string, config: map<string, Value>, now: real)
    requires Consistent(r)
    requires id in r.monitors || WindowSize(config).Ok?
    ensures GetMonitorOn(r, id, config, now) == GetMonitorAsWritten(r, id, config, now)
  {
  }

  /**
   * A successful `get_monitor` marks the id seen at `now` and keeps the
   * dictionaries in agreement; a hit returns the stored monitor and window
   * whatever the config; a miss stores a new monitor and a zero window of
   * the configured capacity (10 by default). No other id is touched.
   */
  lemma GetMonitorSpec(r: Maps, id: string, config: map<string, Value>, now: real)
    requires Consistent(r)
    ensures var (r1, res) := GetMonitorOn(r, id, config, now);
      && Consistent(r1)
      && (res.Ok? <==> id in r.monitors || WindowSize(config).Ok?)
      && (res.Err? ==> r1 == r)
      && (res.Ok? ==> id in r1.monitors && r1.lastSeen[id] == now)
      && (id in r.monitors ==> res == Ok((r.monitors[id], r.windows[id])) && r1.monitors == r.monitors)
      && (id !in r.monitors && res.Ok? ==>
            res.value == (NewMonitor(id, config), ZeroWindow(WindowSize(config).value))
            && |res.value.1| == WindowSize(config).value)
      && (forall k :: k in r.monitors && k != id ==>
            k in r1.monitors && r1.monitors[k] == r.monitors[k] && r1.lastSeen[k] == r.lastSeen[k]
            && r1.windows[k] == r.windows[k])
      && r1.deleted == r.deleted
  {
    GetMonitorResult(r, id, config, now);
    GetMonitorFrame(r, id, config, now);
  }

  lemma GetMonitorResult(r: Maps, id: string, config: map<string, Value>, now: real)
    requires Consistent(r)
    ensures var (r1, res) := GetMonitorOn(r, id, config, now);
      && (res.Ok? <==> id in r.monitors || WindowSize(config).Ok?)
      && (res.Err? ==> r1 == r)
      && (res.Ok? ==> id in r1.monitors && r1.lastSeen[id] == now)
      && (id in r.monitors ==> res == Ok((r.monitors[id], r.windows[id])) && r1.monitors == r.monitors)
      && (id !in r.monitors && res.Ok? ==>
            res.value == (NewMonitor(id, config), ZeroWindow(WindowSize(config).value))
            && |res.value.1| == WindowSize(config).value)
  {
  }

  lemma GetMonitorFrame(r: Maps, id: string, config: map<string, Value>, now: real)
    requires Consistent(r)
    ensures var r1 := GetMonitorOn(r, id, config, now).0;
      && Consistent(r1)
      && (forall k :: k in r.monitors && k != id ==>
            k in r1.monitors && r1.monitors[k] == r.monitors[k] && r1.lastSeen[k] == r.lastSeen[k]
            && r1.windows[k] == r.windows[k])
      && r1.deleted == r.deleted
  {
    if id !in r.monitors && WindowSize(config).Ok? {
      var w := WindowSize(config).value;
      GetMonitorOnMiss(r, id, config, now, w);
      StoreFrame(r, id, NewMonitor(id, config), now, ZeroWindow(w));
    }
  }

  /** Storing entries for a new id keeps the dictionaries in agreement and leaves every other id alone. */
  lemma StoreFrame(r: Maps, id: string, m: Monitor, now: real, window: seq<real>)
    requires Consistent(r)
    ensures var r1 := r.(monitors := r.monitors[id := m], lastSeen := r.lastSeen[id := now],
                         windows := r.windows[id := window]);
      && Consistent(r1)
      && (forall k :: k in r.monitors && k != id ==>
            k in r1.monitors && r1.monitors[k] == r.monitors[k] && r1.lastSeen[k] == r.lastSeen[k]
            && r1.windows[k] == r.windows[k])
  {
  }

  /** `remove_monitor` on agreeing dictionaries. */
  function RemoveMonitorOn(r: Maps, id: string): (Maps, Result<(), PyError>)
    requires Consistent(r)
  {
    RemoveMonitorAsWritten(r, id)
  }

  /** Removing a present id deletes it from all three and deletes its monitor; an unknown id raises and changes nothing. */
  lemma RemoveMonitorSpec(r: Maps, id: string)
    requires Consistent(r)
    ensures var (r1, res) := RemoveMonitorOn(r, id);
      && Consistent(r1)
      && (id !in r.monitors ==> res == Err(KeyError(id)) && r1 == r)
      && (id in r.monitors ==> res == Ok(()) && r1 == Evict(r, {id}).(deleted := r.deleted + [id]))
  {
    if id in r.monitors {
      var r1 := RemoveMonitorOn(r, id).0;
      assert r1.monitors == Without(r.monitors, {id});
      assert r1.lastSeen == Without(r.lastSeen, {id});
      assert r1.windows == Without(r.windows, {id});
    }
  }

  function Without<V>(m: map<string, V>, ids: set<string>): map<string, V> {
    map k | k in m && k !in ids :: m[k]
  }

  /** The dictionaries with the given ids removed. */
  function Evict(r: Maps, ids: set<string>): Maps {
    Maps(Without(r.monitors, ids), Without(r.lastSeen, ids), Without(r.windows, ids), r.deleted)
  }

  /** The ids not seen for strictly more than `timeout` seconds. */
  function Stale(lastSeen: map<string, real>, now: real, timeout: real): set<string> {
    set id | id in lastSeen && now - lastSeen[id] > timeout
  }

  /**
   * Garbage collection removes exactly the stale ids: an id idle for
   * exactly `timeout` stays, and every remaining entry is unchanged.
   */
  lemma EvictStaleExactly(r: Maps, now: real, timeout: real)
    requires Consistent(r)
    ensures var r1 := Evict(r, Stale(r.lastSeen, now, timeout));
      && Consistent(r1)
      && (forall id :: id in r.lastSeen ==> (id in r1.lastSeen <==> now - r.lastSeen[id] <= timeout))
      && (forall id :: id in r1.monitors ==>
            r1.monitors[id] == r.monitors[id] && r1.lastSeen[id] == r.lastSeen[id] && r1.windows[id] == r.windows[id])
  {
  }

  /** With the hourly timeout, a check idle for 3600 s is kept and one idle for 3601 s is collected. */
  lemma HourlyTimeoutBoundary(r: Maps, a: string, b: string)
    requires Consistent(r) && a in r.lastSeen && b in r.lastSeen
    requires r.lastSeen[a] == 1000.0 && r.lastSeen[b] == 999.0
    ensures var r1 := Evict(r, Stale(r.lastSeen, 4600.0, 3600.0));
      a in r1.monitors && b !in r1.monitors
  {
  }

  /**
   * The smoothing step of `do_POST`: the value is pushed at the left of the
   * check's window, and sum / len of the window is the smoothed value; an
   * empty window raises ZeroDivisionError.
   */
  function Smooth(window: seq<real>, value: real): (r: Result<real, PyError>)
    ensures |window| == 0 <==> r == Err(ZeroDivisionError)
    ensures r.Ok? ==> r.value * |window| as real == Sum(PushLeft(window, value))
  {
    var h := PushLeft(window, value);
    if |h| == 0 then Err(ZeroDivisionError) else Ok(Mean(h))
  }

  /** The smoothed value of a fresh check of capacity w after its first input v is v / w. */
  lemma FirstInputSmoothed(w: nat, v: real)
    requires w > 0
    ensures Smooth(ZeroWindow(w), v) == Ok(v / w as real)
  {
    var h := PushLeft(ZeroWindow(w), v);
    assert PushAll(ZeroWindow(w), Repeat(v, 1)) == h by {
      assert Repeat(v, 1) == [v];
      assert Repeat(v, 1)[..0] == [];
    }
    MeanOfConstantPushes(v, w, 1);
    assert Min(1, w) == 1;
    assert Mean(h) == v / w as real;
    assert Smooth(ZeroWindow(w), v) == Ok(Mean(h));
  }

  class Registry {
    var monitors: map<string, Monitor>
    var lastSeen: map<string, real>
    var windows: map<string, seq<real>>
    var deleted: seq<string>

    function Snapshot(): Maps
      reads this
    {
      Maps(monitors, lastSeen, windows, deleted)
    }

    ghost predicate Valid()
      reads this
    {
      Consistent(Snapshot())
    }

    /** The three module-level dictionaries, empty at start-up. */
    constructor ()
      ensures Valid()
      ensures monitors == map[] && lastSeen == map[] && windows == map[] && deleted == []
    {
      monitors, lastSeen, windows, deleted := map[], map[], map[], [];
    }

    /** `get_monitor`, with the window validated before anything is stored. */
    method GetMonitor(id: string, config: map<string, Value>, now: real)
      returns (res: Result<(Monitor, seq<real>), PyError>)
      requires Valid()
      modifies this
      ensures Valid()
      ensures (Snapshot(), res) == GetMonitorOn(old(Snapshot()), id, config, now)
    {
      if id in monitors {
        lastSeen := lastSeen[id := now];
        return Ok((monitors[id], windows[id]));
      }
      var w := WindowSize(config);
      if w.Err? {
        return Err(w.error);
      }
      var monitor := NewMonitor(id, config);
      var window := ZeroWindow(w.value);
      Register(id, monitor, window, now);
      GetMonitorOnMiss(old(Snapshot()), id, config, now, w.value);
      return Ok((monitor, window));
    }

    /** A new id's entries in the three dictionaries. */
    method Register(id: string, monitor: Monitor, window: seq<real>, now: real)
      requires Valid()
      modifies this
      ensures Valid()
      ensures Snapshot() == old(Snapshot()).(monitors := old(monitors)[id := monitor],
                                             lastSeen := old(lastSeen)[id := now],
                                             windows := old(windows)[id := window])
    {
      lastSeen := lastSeen[id := now];
      monitors := monitors[id := monitor];
      windows := windows[id := window];
    }

    /** `remove_monitor`: delete the id from all three dictionaries and delete its monitor. */
    method RemoveMonitor(id: string) returns (res: Result<(), PyError>)
      requires Valid()
      modifies this
      ensures Valid()
      ensures (Snapshot(), res) == RemoveMonitorOn(old(Snapshot()), id)
    {
      if id !in lastSeen {
        return Err(KeyError(id));
      }
      lastSeen := lastSeen - {id};
      windows := windows - {id};
      deleted := deleted + [id];
      monitors := monitors - {id};
      return Ok(());
    }

    /**
     * The first half of `garbage_collect`: the ids idle for more than
     * `timeout`, each listed once. Dictionary order is not modelled: the ids
     * are visited in some order.
     */
    method StaleIds(now: real, timeout: real) returns (ids: seq<string>)
      ensures forall id :: id in ids <==> id in Stale(lastSeen, now, timeout)
      ensures forall i, j :: 0 <= i < j < |ids| ==> ids[i] != ids[j]
    {
      ids := [];
      var pending := lastSeen.Keys;
      while pending != {}
        invariant pending <= lastSeen.Keys
        invariant forall id :: id in ids <==> id in Stale(lastSeen, now, timeout) && id !in pending
        invariant forall i, j :: 0 <= i < j < |ids| ==> ids[i] != ids[j]
        decreases |pending|
      {
        var id :| id in pending;
        if now - lastSeen[id] > timeout {
          ids := ids + [id];
        }
        pending := pending - {id};
      }
    }

    /** `garbage_collect`: the stale ids are listed, then removed one by one. */
    method GarbageCollect(now: real, timeout: real)
      requires Valid()
      modifies this
      ensures Valid()
      ensures var stale := Stale(old(lastSeen), now, timeout);
        && Snapshot().(deleted := old(deleted)) == Evict(old(Snapshot()), stale)
        && |deleted| >= |old(deleted)|
        && deleted[..|old(deleted)|] == old(deleted)
        && multiset(deleted[|old(deleted)|..]) == multiset(stale)
    {
      ghost var stale := Stale(lastSeen, now, timeout);
      ghost var r0 := Snapshot();
      var toRemove := StaleIds(now, timeout);
      ghost var removed: set<string> := {};
      var i := 0;
      while i < |toRemove|
        invariant 0 <= i <= |toRemove|
        invariant Valid()
        invariant removed <= r0.monitors.Keys
        invariant forall k :: k in removed <==> k in toRemove[..i]
        invariant monitors == Without(r0.monitors, removed) && lastSeen == Without(r0.lastSeen, removed)
        invariant windows == Without(r0.windows, removed)
        invariant deleted == r0.deleted + toRemove[..i]
      {
        var id := toRemove[i];
        assert id in stale && id !in removed;
        assert Snapshot() == Evict(r0, removed).(deleted := deleted);
        EvictOne(r0, removed, id, deleted);
        var res := RemoveMonitor(id);
        ghost var after := Evict(r0, removed + {id});
        assert monitors == after.monitors && lastSeen == after.lastSeen && windows == after.windows;
        assert toRemove[..i + 1] == toRemove[..i] + [id];
        removed := removed + {id};
        i := i + 1;
      }
      assert toRemove[..|toRemove|] == toRemove;
      assert removed == stale;
      DistinctMultiset(toRemove, stale);
    }

    /**
     * `do_POST` for a numeric value: get or create the check's monitor, push
     * the value into its window and return the window mean, which is what is
     * fed to the monitor as both `value` and `raw_value`.
     */
    method Post(id: string, config: map<string, Value>, value: real, now: real)
      returns (res: Result<real, PyError>)
      requires Valid()
      modifies this
      ensures Valid()
      ensures var (r1, got) := GetMonitorOn(old(Snapshot()), id, config, now);
        && (got.Err? ==> res == Err(got.error) && Snapshot() == r1)
        && (got.Ok? ==>
              Snapshot() == r1.(windows := r1.windows[id := PushLeft(got.value.1, value)])
              && res == Smooth(got.value.1, value))
    {
      var got := GetMonitor(id, config, now);
      if got.Err? {
        return Err(got.error);
      }
      var window := PushLeft(got.value.1, value);
      windows := windows[id := window];
      if |window| == 0 {
        return Err(ZeroDivisionError);
      }
      return Ok(Mean(window));
    }
  }

  /** Removing one more id from an eviction is the eviction of one more id. */
  lemma EvictOne(r: Maps, removed: set<string>, id: string, deleted: seq<string>)
    requires Consistent(r) && id in r.monitors && id !in removed
    ensures Consistent(Evict(r, removed).(deleted := deleted))
    ensures RemoveMonitorOn(Evict(r, removed).(deleted := deleted), id)
      == (Evict(r, removed + {id}).(deleted := deleted + [id]), Ok(()))
  {
    var e := Evict(r, removed);
    assert Without(e.monitors, {id}) == Without(r.monitors, removed + {id});
    assert Without(e.lastSeen, {id}) == Without(r.lastSeen, removed + {id});
    assert Without(e.windows, {id}) == Without(r.windows, removed + {id});
    assert e.monitors - {id} == Without(e.monitors, {id});
    assert e.lastSeen - {id} == Without(e.lastSeen, {id});
    assert e.windows - {id} == Without(e.windows, {id});
  }

  /** A duplicate-free sequence listing a set holds each element once. */
  lemma {:induction false} DistinctMultiset(s: seq<string>, ids: set<string>)
    requires forall i, j :: 0 <= i < j < |s| ==> s[i] != s[j]
    requires (set k | k in s) == ids
    ensures multiset(s) == multiset(ids)
  {
    if s != [] {
      var init := s[..|s| - 1];
      var x := s[|s| - 1];
      assert s == init + [x];
      assert x !in init;
      assert (set k | k in init) == ids - {x};
      DistinctMultiset(init, ids - {x});
      assert multiset(ids) == multiset(ids - {x}) + multiset{x};
    } else {
      assert ids == {};
    }
  }
}
