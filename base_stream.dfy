/**
 * BaseStream (monitor/streams/base.py): the state every metric adapter shares
 * (servertime and the smoothing window) and the transforms over the window.
 * The adapters' subclassing is modelled by composition: each adapter object
 * holds a BaseStream.
 */
module BaseStream {
  import opened Wrappers
  import opened Values
  import opened Window

  datatype TransformKind = MovingAverage | Scale

  /** One entry of `available_streams`: {'id': ..., 'name': ...}. */
  datatype StreamEntry = StreamEntry(id: string, name: string)

  /** What `__init__` keeps of its config once it has been checked. */
  datatype Settings = Settings(id: Value, name: Value, scalingFactor: Value, transform: TransformKind, window: nat)

  /** `deque([0.0] * w, maxlen=w)`: w must be an int (a bool counts as one) and not negative. */
  function WindowCapacity(w: Value): (r: Result<nat, PyError>)
    ensures w.Int? && w.i >= 0 ==> r == Ok(w.i)
    ensures w.Int? && w.i < 0 ==> r == Err(ValueError)
    ensures w.Bool? ==> r == Ok(if w.b then 1 else 0)
    ensures !w.Int? && !w.Bool? ==> r == Err(TypeError)
  {
    match w
    case Int(i) => if i < 0 then Err(ValueError) else Ok(i)
    case Bool(b) => Ok(if b then 1 else 0)
    case _ => Err(TypeError)
  }

  /** Any transform other than 'moving_average' or 'scale' becomes 'scale' with factor 1. */
  function Normalize(transform: Value, factor: Value): (r: (TransformKind, Value))
    ensures transform == Str("moving_average") ==> r == (MovingAverage, factor)
    ensures transform == Str("scale") ==> r == (Scale, factor)
    ensures transform != Str("moving_average") && transform != Str("scale") ==> r == (Scale, Int(1))
  {
    if transform == Str("moving_average") then (MovingAverage, factor)
    else if transform == Str("scale") then (Scale, factor)
    else (Scale, Int(1))
  }

  /**
   * `BaseStream.__init__` as written: every key is read with config[...], so
   * a missing key raises KeyError, the first missing one in reading order.
   */
  function ParseStreamConfigAsWritten(config: map<string, Value>): (r: Result<Settings, PyError>)
    ensures "id" !in config ==> r == Err(KeyError("id"))
    ensures "id" in config && "name" !in config ==> r == Err(KeyError("name"))
    ensures "id" in config && "name" in config && "scaling_factor" !in config ==> r == Err(KeyError("scaling_factor"))
    ensures "id" in config && "name" in config && "scaling_factor" in config && "transform" !in config ==>
      r == Err(KeyError("transform"))
    ensures var keys := {"id", "name", "scaling_factor", "transform"};
      keys <= config.Keys && "moving_average_window" !in config ==> r == Err(KeyError("moving_average_window"))
    ensures var keys := {"id", "name", "scaling_factor", "transform", "moving_average_window"};
      keys <= config.Keys && WindowCapacity(config["moving_average_window"]).Err? ==>
        r == Err(WindowCapacity(config["moving_average_window"]).error)
    ensures r.Ok? <==>
      && "id" in config && "name" in config && "scaling_factor" in config && "transform" in config
      && "moving_average_window" in config && WindowCapacity(config["moving_average_window"]).Ok?
    ensures r.Ok? ==>
      && r.value.id == config["id"] && r.value.name == config["name"]
      && (r.value.transform, r.value.scalingFactor) == Normalize(config["transform"], config["scaling_factor"])
      && r.value.window == WindowCapacity(config["moving_average_window"]).value
  {
    if "id" !in config then Err(KeyError("id"))
    else if "name" !in config then Err(KeyError("name"))
    else if "scaling_factor" !in config then Err(KeyError("scaling_factor"))
    else if "transform" !in config then Err(KeyError("transform"))
    else if "moving_average_window" !in config then Err(KeyError("moving_average_window"))
    else
      var (kind, factor) := Normalize(config["transform"], config["scaling_factor"]);
      match WindowCapacity(config["moving_average_window"])
      case Err(e) => Err(e)
      case Ok(w) => Ok(Settings(config["id"], config["name"], factor, kind, w))
  }

  /**
   * `BaseStream.__init__` as its comment describes it ("If no transform is
   * given, default to scale with factor 1"): a missing transform is treated
   * like an unknown one and a missing scaling_factor is 1.
   */
  function ParseStreamConfig(config: map<string, Value>): (r: Result<Settings, PyError>)
    ensures r.Ok? <==>
      && "id" in config && "name" in config && "moving_average_window" in config
      && WindowCapacity(config["moving_average_window"]).Ok?
    ensures r.Ok? && "transform" !in config ==> r.value.transform == Scale && r.value.scalingFactor == Int(1)
  {
    var factor := if "scaling_factor" in config then config["scaling_factor"] else Int(1);
    var transform := if "transform" in config then config["transform"] else Null;
    ParseStreamConfigAsWritten(config["scaling_factor" := factor]["transform" := transform])
  }

  /** Where both keys are present, the corrected reading is the original one. */
  lemma ParseAgreesWhenKeysPresent(config: map<string, Value>)
    requires "scaling_factor" in config && "transform" in config
    ensures ParseStreamConfig(config) == ParseStreamConfigAsWritten(config)
  {
    assert config["scaling_factor" := config["scaling_factor"]]["transform" := config["transform"]] == config;
  }

  /** `_scale`: the LAST slot times the factor; an empty window raises IndexError. */
  function ScaleOf(h: seq<real>, factor: Value): Result<real, PyError> {
    if |h| == 0 then Err(IndexError)
    else if NumOf(factor).None? then Err(TypeError)
    else Ok(h[|h| - 1] * NumOf(factor).value)
  }

  /** `_scale` depends on the window only through its last slot. */
  lemma ScaleReadsLastSlot(h: seq<real>, g: seq<real>, factor: Value)
    requires |h| > 0 && |g| > 0 && h[|h| - 1] == g[|g| - 1]
    ensures ScaleOf(h, factor) == ScaleOf(g, factor)
  {
    var a, b := ScaleOf(h, factor), ScaleOf(g, factor);
    assert a.Ok? == b.Ok?;
    if a.Ok? {
      assert a.value == b.value;
    }
  }

  /**
   * Because samples are pushed with appendleft, the last slot is the OLDEST
   * one: the value just pushed does not reach `_scale` (unless the window
   * has a single slot).
   */
  lemma ScaleIgnoresNewest(h: seq<real>, x: real, factor: Value)
    requires |h| >= 2
    ensures ScaleOf(PushLeft(h, x), factor) == ScaleOf(h[..|h| - 1], factor)
  {
    ScaleReadsLastSlot(PushLeft(h, x), h[..|h| - 1], factor);
  }

  /**
   * From a fresh zero-filled window of capacity w, `_scale` after the pushes
   * xs yields the w-th newest sample, and 0 until w samples have arrived.
   */
  lemma ScaleLagsByWindow(w: nat, xs: seq<real>, f: real)
    requires w > 0
    ensures var r := ScaleOf(PushAll(ZeroWindow(w), xs), Float(f));
      r.Ok? && r.value == Lagged(w, xs) * f
  {
    OldestSlotAfterPushes(w, xs);
    ScaleOfSlot(PushAll(ZeroWindow(w), xs), f, Lagged(w, xs));
  }

  /** The sample w pushes back: the w-th newest of xs, or a starting zero while fewer than w have arrived. */
  function Lagged(w: nat, xs: seq<real>): real
    requires w > 0
  {
    if |xs| >= w then xs[|xs| - w] else 0.0
  }

  /** `_scale` with a float factor, for a window whose oldest slot is known. */
  lemma ScaleOfSlot(h: seq<real>, f: real, oldest: real)
    requires |h| > 0 && h[|h| - 1] == oldest
    ensures ScaleOf(h, Float(f)).Ok?
    ensures ScaleOf(h, Float(f)).value == oldest * f
  {
  }

  /** With factor 1 the scale transform is the identity on the oldest slot. */
  lemma ScaleByOne(h: seq<real>)
    requires |h| > 0
    ensures ScaleOf(h, Int(1)) == Ok(h[|h| - 1])
  {
  }

  /** Helper for `Transformed`: the identity scaling factor. */
  lemma ScaleByOneAt(h: seq<real>, factor: Value)
    ensures |h| > 0 && factor == Int(1) ==> ScaleOf(h, factor) == Ok(h[|h| - 1])
  {
    if |h| > 0 && factor == Int(1) {
      ScaleByOne(h);
    }
  }

  class Stream {
    const id: Value
    const name: Value
    const scalingFactor: Value
    const transform: TransformKind
    const window: nat
    var servertime: int
    var history: seq<real>

    ghost predicate Valid()
      reads this
    {
      |history| == window
    }

    /** `__init__` once its config has been read: servertime 0 and a zero-filled window. */
    constructor (s: Settings)
      ensures Valid()
      ensures id == s.id && name == s.name && scalingFactor == s.scalingFactor
      ensures transform == s.transform && window == s.window
      ensures servertime == 0 && history == ZeroWindow(s.window)
    {
      id, name, scalingFactor := s.id, s.name, s.scalingFactor;
      transform, window := s.transform, s.window;
      servertime := 0;
      history := ZeroWindow(s.window);
    }

    /** `_transform`: exactly one of the two transforms, by the normalised kind. */
    function Transformed(): (r: Result<real, PyError>)
      reads this
      ensures transform == MovingAverage ==> r.Ok? && r.value * |history| as real == Sum(history)
      ensures transform == MovingAverage && |history| == 0 ==> r == Ok(0.0)
      ensures transform == Scale && |history| == 0 ==> r == Err(IndexError)
      ensures transform == Scale && |history| > 0 && scalingFactor == Int(1) ==> r == Ok(history[|history| - 1])
      ensures transform == Scale ==> r == ScaleOf(history, scalingFactor)
    {
      ScaleByOneAt(history, scalingFactor);
      match transform
      case MovingAverage => Ok(Mean(history))
      case Scale => ScaleOf(history, scalingFactor)
    }
  }
}
