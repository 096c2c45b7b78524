/**
 * The multi-process launcher (monitor/run_monitor.py): it derives the
 * stream class from the configured stream type, collects the credentials,
 * lists the available streams and builds one stream config per stream to
 * monitor. Starting the processes is left out; the model returns the
 * configs the jobs would be started with, in order.
 */
module RunMonitor {
  import opened Wrappers
  import opened Values
  import BaseStream

  predicate IsLetter(c: char) {
    'a' <= c <= 'z' || 'A' <= c <= 'Z'
  }

  function Upper(c: char): char {
    if 'a' <= c <= 'z' then (c as int - 32) as char else c
  }

  function Lower(c: char): char {
    if 'A' <= c <= 'Z' then (c as int + 32) as char else c
  }

  /** Character i of `str.title()`: a letter after a non-letter (or first) is upper-cased, any other letter lower-cased. */
  function TitleAt(t: string, i: nat): char
    requires i < |t|
  {
    if !IsLetter(t[i]) then t[i]
    else if i == 0 || !IsLetter(t[i - 1]) then Upper(t[i])
    else Lower(t[i])
  }

  /** `str.title()` on ASCII text. */
  function Title(t: string): (r: string)
    ensures |r| == |t|
  {
    seq(|t|, i requires 0 <= i < |t| => TitleAt(t, i))
  }

  /** Title keeps every non-letter and the letter positions, and is idempotent. */
  lemma TitleIdempotent(t: string)
    ensures forall i :: 0 <= i < |t| ==> IsLetter(Title(t)[i]) == IsLetter(t[i])
    ensures forall i :: 0 <= i < |t| && !IsLetter(t[i]) ==> Title(t)[i] == t[i]
    ensures Title(Title(t)) == Title(t)
  {
    var u := Title(t);
    forall i | 0 <= i < |t|
      ensures IsLetter(u[i]) == IsLetter(t[i])
    {
      assert u[i] == TitleAt(t, i);
    }
    forall i | 0 <= i < |t|
      ensures Title(u)[i] == u[i]
    {
      assert u[i] == TitleAt(t, i);
      if i > 0 {
        assert u[i - 1] == TitleAt(t, i - 1);
      }
    }
  }

  /** `"%sStream" % stream_type.title()` */
  function StreamClassName(streamType: string): string {
    Title(streamType) + "Stream"
  }

  /** `"streams.%s" % stream_type` */
  function StreamModuleName(streamType: string): string {
    "streams." + streamType
  }

  /** The two adapters resolve to their own class names. */
  lemma ClassNamesOfAdapters()
    ensures StreamClassName("pingdom") == "PingdomStream"
    ensures StreamClassName("libratometrics") == "LibratometricsStream"
  {
    assert Title("pingdom") == "Pingdom" by {
      var t := "pingdom";
      forall i | 0 <= i < |t| ensures Title(t)[i] == "Pingdom"[i] {
        assert Title(t)[i] == TitleAt(t, i);
      }
    }
    assert Title("libratometrics") == "Libratometrics" by {
      var t := "libratometrics";
      forall i | 0 <= i < |t| ensures Title(t)[i] == "Libratometrics"[i] {
        assert Title(t)[i] == TitleAt(t, i);
      }
    }
  }

  /** The credentials dict after `credentials[name] = value` for each item in turn. */
  function ItemsMap(items: seq<(string, string)>): map<string, string> {
    if items == [] then map[] else ItemsMap(items[..|items| - 1])[items[|items| - 1].0 := items[|items| - 1].1]
  }

  /** The dict holds exactly the item names. */
  lemma {:induction false} ItemsMapKeys(items: seq<(string, string)>)
    ensures ItemsMap(items).Keys == set i | 0 <= i < |items| :: items[i].0
  {
    if items != [] {
      var init := items[..|items| - 1];
      ItemsMapKeys(init);
      var ks := set i | 0 <= i < |items| :: items[i].0;
      var ki := set i | 0 <= i < |init| :: init[i].0;
      forall x | x in ks ensures x in ki + {items[|items| - 1].0} {
        var i :| 0 <= i < |items| && items[i].0 == x;
        if i < |init| {
          assert init[i] == items[i];
        }
      }
      forall x | x in ki ensures x in ks {
        var i :| 0 <= i < |init| && init[i].0 == x;
        assert items[i] == init[i];
      }
      assert ks == ki + {items[|items| - 1].0};
    }
  }

  /** Each name holds the value of its last item. */
  lemma {:induction false} ItemsMapLastWins(items: seq<(string, string)>)
    ensures forall j :: 0 <= j < |items| && (forall l :: j < l < |items| ==> items[l].0 != items[j].0) ==>
      items[j].0 in ItemsMap(items) && ItemsMap(items)[items[j].0] == items[j].1
  {
    if items != [] {
      var init := items[..|items| - 1];
      ItemsMapLastWins(init);
      forall j | 0 <= j < |items| - 1 && (forall l :: j < l < |items| ==> items[l].0 != items[j].0)
        ensures items[j].0 in ItemsMap(items) && ItemsMap(items)[items[j].0] == items[j].1
      {
        assert init[j] == items[j];
        forall l | j < l < |init| ensures init[l].0 != init[j].0 {
          assert init[l] == items[l];
        }
      }
    }
  }

  /** The loop over `config.items('credentials')`. */
  method CollectCredentials(items: seq<(string, string)>) returns (credentials: map<string, string>)
    ensures credentials == ItemsMap(items)
  {
    credentials := map[];
    var i := 0;
    while i < |items|
      invariant 0 <= i <= |items|
      invariant credentials == ItemsMap(items[..i])
    {
      assert items[..i + 1][..i] == items[..i];
      credentials := credentials[items[i].0 := items[i].1];
      i := i + 1;
    }
    assert items[..|items|] == items;
  }

  function AsValues(m: map<string, string>): map<string, Value> {
    map k | k in m :: Str(m[k])
  }

  /** The config each job's stream is built from. */
  function StreamConfig(id: string, name: string, window: int, credentials: map<string, string>): (c: map<string, Value>)
    ensures c.Keys == {"id", "name", "moving_average_window", "credentials"}
  {
    map["id" := Str(id), "name" := Str(name), "moving_average_window" := Int(window),
        "credentials" := Obj(AsValues(credentials))]
  }

  /**
   * The config lacks `scaling_factor`, so BaseStream's `__init__` as written
   * raises KeyError on every stream this launcher builds.
   */
  lemma LauncherConfigFailsAsWritten(id: string, name: string, window: int, credentials: map<string, string>)
    ensures BaseStream.ParseStreamConfigAsWritten(StreamConfig(id, name, window, credentials))
      == Err(KeyError("scaling_factor"))
  {
  }

  /**
   * With the missing keys defaulted, the same config gives a scale-by-1
   * stream over a window of the configured size (ValueError for a negative
   * size, as deque raises).
   */
  lemma LauncherConfigParses(id: string, name: string, window: int, credentials: map<string, string>)
    ensures var r := BaseStream.ParseStreamConfig(StreamConfig(id, name, window, credentials));
      && (window >= 0 ==> r == Ok(BaseStream.Settings(Str(id), Str(name), Int(1), BaseStream.Scale, window)))
      && (window < 0 ==> r == Err(ValueError))
  {
  }

  /**
   * The argument `available_streams` is called with as written: the
   * credentials dict itself. The Pingdom adapter reads `data['credentials']`
   * from it.
   */
  function AvailableStreamsArgAsWritten(credentials: map<string, string>): map<string, Value> {
    AsValues(credentials)
  }

  /** The argument in the shape the adapters read: the credentials under `credentials`. */
  function AvailableStreamsArg(credentials: map<string, string>): map<string, Value> {
    map["credentials" := Obj(AsValues(credentials))]
  }

  /** `data['credentials']` */
  function CredentialsOf(data: map<string, Value>): Result<Value, PyError> {
    if "credentials" in data then Ok(data["credentials"]) else Err(KeyError("credentials"))
  }

  /** `data['credentials'][key]`: how the adapters read each part of their login. */
  function CredentialOf(data: map<string, Value>, key: string): Result<Value, PyError> {
    match CredentialsOf(data)
    case Err(e) => Err(e)
    case Ok(c) =>
      if !c.Obj? then Err(TypeError)
      else if key in c.fields then Ok(c.fields[key])
      else Err(KeyError(key))
  }

  /**
   * As written, every login lookup fails: with KeyError unless a credential
   * happens to be named `credentials`, and with TypeError (a string indexed
   * by a string) if one is.
   */
  lemma AvailableStreamsArgFails(credentials: map<string, string>, key: string)
    ensures "credentials" !in credentials ==>
      CredentialOf(AvailableStreamsArgAsWritten(credentials), key) == Err(KeyError("credentials"))
    ensures "credentials" in credentials ==>
      CredentialOf(AvailableStreamsArgAsWritten(credentials), key) == Err(TypeError)
  {
  }

  /**
   * Wrapped as `{'credentials': ...}`, each login lookup (`username`,
   * `password`, `appkey`, `token`) finds exactly the credential of that name,
   * and a missing one is the KeyError of its own name.
   */
  lemma AvailableStreamsArgFound(credentials: map<string, string>, key: string)
    ensures key in credentials ==>
      CredentialOf(AvailableStreamsArg(credentials), key) == Ok(Str(credentials[key]))
    ensures key !in credentials ==>
      CredentialOf(AvailableStreamsArg(credentials), key) == Err(KeyError(key))
  {
  }

  /** The name of the last available stream with this id, if any. */
  function LastMatch(streams: seq<BaseStream.StreamEntry>, id: string): Option<string> {
    if streams == [] then None
    else if streams[|streams| - 1].id == id then Some(streams[|streams| - 1].name)
    else LastMatch(streams[..|streams| - 1], id)
  }

  /** LastMatch finds a match exactly when there is one, and it is the last one. */
  lemma {:induction false} LastMatchIsLast(streams: seq<BaseStream.StreamEntry>, id: string)
    ensures LastMatch(streams, id).None? <==> forall j :: 0 <= j < |streams| ==> streams[j].id != id
    ensures LastMatch(streams, id).Some? ==>
      exists j :: 0 <= j < |streams| && streams[j].id == id && streams[j].name == LastMatch(streams, id).value
        && forall l :: j < l < |streams| ==> streams[l].id != id
  {
    if streams != [] {
      var init := streams[..|streams| - 1];
      LastMatchIsLast(init, id);
      if streams[|streams| - 1].id != id && LastMatch(init, id).Some? {
        var j :| 0 <= j < |init| && init[j].id == id && init[j].name == LastMatch(init, id).value
          && forall l :: j < l < |init| ==> init[l].id != id;
        assert streams[j] == init[j];
        assert forall l :: j < l < |streams| ==> streams[l].id != id by {
          forall l | j < l < |streams| ensures streams[l].id != id {
            if l < |init| {
              assert streams[l] == init[l];
            }
          }
        }
      }
      if LastMatch(streams, id).None? {
        forall j | 0 <= j < |streams| ensures streams[j].id != id {
          if j < |init| {
            assert streams[j] == init[j];
          }
        }
      }
    }
  }

  /** The (id, name) of the stream each configured id starts, skipping unknown ids. */
  function Selected(streams: seq<BaseStream.StreamEntry>, ids: seq<string>): seq<BaseStream.StreamEntry> {
    if ids == [] then []
    else
      var id := ids[|ids| - 1];
      Selected(streams, ids[..|ids| - 1]) + (match LastMatch(streams, id)
                                             case Some(name) => [BaseStream.StreamEntry(id, name)]
                                             case None => [])
  }

  /**
   * Every started stream is a configured id found among the available
   * streams; a configured id that is available is started; and no more
   * streams are started than ids are configured.
   */
  lemma {:induction false} SelectedIsConfiguredAndAvailable(streams: seq<BaseStream.StreamEntry>, ids: seq<string>)
    ensures |Selected(streams, ids)| <= |ids|
    ensures forall e :: e in Selected(streams, ids) ==>
      e.id in ids && LastMatch(streams, e.id) == Some(e.name)
    ensures forall id :: id in ids && LastMatch(streams, id).Some? ==>
      BaseStream.StreamEntry(id, LastMatch(streams, id).value) in Selected(streams, ids)
  {
    if ids != [] {
      var init := ids[..|ids| - 1];
      SelectedIsConfiguredAndAvailable(streams, init);
      forall id | id in ids && LastMatch(streams, id).Some?
        ensures BaseStream.StreamEntry(id, LastMatch(streams, id).value) in Selected(streams, ids)
      {
        if id != ids[|ids| - 1] {
          var i :| 0 <= i < |ids| && ids[i] == id;
          assert init[i] == id;
        }
      }
    }
  }

  /** The lookup loop for one configured id: the last match's name, or None. */
  method FindName(streams: seq<BaseStream.StreamEntry>, id: string) returns (name: Option<string>)
    ensures name == LastMatch(streams, id)
  {
    name := None;
    var i := 0;
    while i < |streams|
      invariant 0 <= i <= |streams|
      invariant name == LastMatch(streams[..i], id)
    {
      assert streams[..i + 1][..i] == streams[..i];
      if id == streams[i].id {
        name := Some(streams[i].name);
      }
      i := i + 1;
    }
    assert streams[..|streams|] == streams;
  }

  /** Without a `monitors` section: one config per available stream, in list order. */
  method ConfigsForAll(streams: seq<BaseStream.StreamEntry>, window: int, credentials: map<string, string>)
    returns (configs: seq<map<string, Value>>)
    ensures |configs| == |streams|
    ensures forall k :: 0 <= k < |streams| ==>
      configs[k] == StreamConfig(streams[k].id, streams[k].name, window, credentials)
  {
    configs := [];
    var i := 0;
    while i < |streams|
      invariant 0 <= i <= |streams|
      invariant |configs| == i
      invariant forall k :: 0 <= k < i ==>
        configs[k] == StreamConfig(streams[k].id, streams[k].name, window, credentials)
    {
      configs := configs + [StreamConfig(streams[i].id, streams[i].name, window, credentials)];
      i := i + 1;
    }
  }

  /** With a `monitors` section: one config per configured id found among the available streams. */
  method ConfigsForSelected(streams: seq<BaseStream.StreamEntry>, ids: seq<string>, window: int,
                            credentials: map<string, string>)
    returns (configs: seq<map<string, Value>>)
    ensures var chosen := Selected(streams, ids);
      |configs| == |chosen| &&
      forall k :: 0 <= k < |chosen| ==>
        configs[k] == StreamConfig(chosen[k].id, chosen[k].name, window, credentials)
  {
    configs := [];
    var i := 0;
    while i < |ids|
      invariant 0 <= i <= |ids|
      invariant var chosen := Selected(streams, ids[..i]);
        |configs| == |chosen| &&
        forall k :: 0 <= k < |chosen| ==>
          configs[k] == StreamConfig(chosen[k].id, chosen[k].name, window, credentials)
    {
      assert ids[..i + 1][..i] == ids[..i];
      var name := FindName(streams, ids[i]);
      if name.Some? {
        configs := configs + [StreamConfig(ids[i], name.value, window, credentials)];
      }
      i := i + 1;
    }
    assert ids[..|ids|] == ids;
  }

  /**
   * The launcher after the stream class and the available streams are
   * known: `encoder_resolution` and then `moving_average_window` are read
   * with int() (a malformed value raises ValueError), then the configs are
   * built from the `monitors` section when there is one, from every
   * available stream otherwise. Each job gets its config and the resolution.
   */
  method LaunchConfigs(streams: seq<BaseStream.StreamEntry>, monitors: Option<seq<string>>,
                       resolutionText: string, windowText: string, credentials: map<string, string>)
    returns (r: Result<(int, seq<map<string, Value>>), PyError>)
    ensures ParseInt(resolutionText).None? ==> r == Err(ValueError)
    ensures ParseInt(resolutionText).Some? && ParseInt(windowText).None? ==> r == Err(ValueError)
    ensures ParseInt(resolutionText).Some? && ParseInt(windowText).Some? ==> (
      var chosen := if monitors.Some? then Selected(streams, monitors.value) else streams;
      && r.Ok?
      && r.value.0 == ParseInt(resolutionText).value
      && |r.value.1| == |chosen|
      && forall k :: 0 <= k < |chosen| ==>
           r.value.1[k] == StreamConfig(chosen[k].id, chosen[k].name, ParseInt(windowText).value, credentials))
  {
    var resolution := ParseInt(resolutionText);
    if resolution.None? {
      return Err(ValueError);
    }
    var window := ParseInt(windowText);
    if window.None? {
      return Err(ValueError);
    }
    var configs;
    if monitors.Some? {
      configs := ConfigsForSelected(streams, monitors.value, window.value, credentials);
    } else {
      configs := ConfigsForAll(streams, window.value, credentials);
    }
    return Ok((resolution.value, configs));
  }
}
