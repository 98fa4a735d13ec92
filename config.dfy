/** The configuration loader shared by the alert manager and the controller: a table of
    defaults, overlaid key by key with the top-level entries of a JSON file. */
module Config {
  import opened Wrappers
  import opened Json

  /** A configuration dictionary: top-level key to value. */
  type Settings = map<string, Json>

  /** One top-level `(key, value)` pair of the loaded JSON object, in file order. */
  type Item = (string, Json)

  /** A JSON object never repeats a key. */
  predicate UniqueKeys(items: seq<Item>) {
    forall i, j | 0 <= i < j < |items| :: items[i].0 != items[j].0
  }

  function KeysOf(items: seq<Item>): set<string> {
    set i | 0 <= i < |items| :: items[i].0
  }

  /** `cfg[key].update(value)` raises AttributeError when the current entry is not a dict. */
  predicate UpdateFails(cfg: Settings, item: Item) {
    item.0 in cfg && item.1.Obj? && !cfg[item.0].Obj?
  }

  /** No item of the file makes the merge raise. */
  predicate MergeSucceeds(cfg: Settings, items: seq<Item>) {
    forall i | 0 <= i < |items| :: !UpdateFails(cfg, items[i])
  }

  /** The entry one merge step leaves under `item.0`: a dict value for a known key updates
      the default dict shallowly; anything else replaces the entry or adds a new one. */
  function Combined(cfg: Settings, item: Item): Json
    requires !UpdateFails(cfg, item)
  {
    if item.0 in cfg && item.1.Obj? then Obj(cfg[item.0].fields + item.1.fields) else item.1
  }

  /** The dictionary the merge loop leaves: items are applied in file order, and the first
      item whose update raises ends the loop, keeping everything merged before it (the
      exception is caught and the partly merged dictionary is returned). */
  function Merge(cfg: Settings, items: seq<Item>): Settings
    decreases |items|
  {
    if items == [] then cfg
    else if UpdateFails(cfg, items[0]) then cfg
    else Merge(cfg[items[0].0 := Combined(cfg, items[0])], items[1..])
  }

  /** The merge loop of `_load_config`, updating the defaults in place. */
  method MergeConfig(defaults: Settings, items: seq<Item>) returns (cfg: Settings)
    ensures cfg == Merge(defaults, items)
  {
    cfg := defaults;
    var i := 0;
    while i < |items|
      invariant 0 <= i <= |items|
      invariant Merge(defaults, items) == Merge(cfg, items[i..])
    {
      assert items[i..][0] == items[i] && items[i..][1..] == items[i + 1..];
      var (key, value) := items[i];
      if key in cfg && value.Obj? {
        if !cfg[key].Obj? {
          return;
        }
        cfg := cfg[key := Obj(cfg[key].fields + value.fields)];
      } else {
        cfg := cfg[key := value];
      }
      i := i + 1;
    }
  }

  /** `_load_config`. `loaded` is None when no path is given, the file cannot be read or
      parsed, or its top-level value is not an object: each of these leaves the defaults. */
  function LoadConfig(defaults: Settings, loaded: Option<seq<Item>>): (cfg: Settings)
    ensures loaded.None? ==> cfg == defaults
    ensures defaults.Keys <= cfg.Keys
  {
    match loaded
    case None => defaults
    case Some(items) =>
      MergeKeepsUnmentioned(defaults, items);
      Merge(defaults, items)
  }

  /** No key is ever removed, only keys of the file are added, and a key the file does not
      mention keeps its default value. */
  lemma {:induction false} MergeKeepsUnmentioned(cfg: Settings, items: seq<Item>)
    ensures cfg.Keys <= Merge(cfg, items).Keys <= cfg.Keys + KeysOf(items)
    ensures forall k | k in cfg && k !in KeysOf(items) :: Merge(cfg, items)[k] == cfg[k]
    decreases |items|
  {
    if items != [] && !UpdateFails(cfg, items[0]) {
      var next := cfg[items[0].0 := Combined(cfg, items[0])];
      MergeKeepsUnmentioned(next, items[1..]);
      assert KeysOf(items) == {items[0].0} + KeysOf(items[1..]) by {
        forall k | k in KeysOf(items) ensures k in {items[0].0} + KeysOf(items[1..]) {
          var i :| 0 <= i < |items| && items[i].0 == k;
          if i > 0 { assert items[1..][i - 1] == items[i]; }
        }
        forall k | k in KeysOf(items[1..]) ensures k in KeysOf(items) {
          var i :| 0 <= i < |items[1..]| && items[1..][i].0 == k;
          assert items[i + 1] == items[1..][i];
        }
      }
    }
  }

  /** When no update raises, the result is the defaults overlaid with every item of the
      file: each key of the file holds the combined entry. */
  lemma {:induction false} MergeOverlays(cfg: Settings, items: seq<Item>)
    requires UniqueKeys(items) && MergeSucceeds(cfg, items)
    ensures Merge(cfg, items).Keys == cfg.Keys + KeysOf(items)
    ensures forall i | 0 <= i < |items| :: Merge(cfg, items)[items[i].0] == Combined(cfg, items[i])
    decreases |items|
  {
    MergeKeepsUnmentioned(cfg, items);
    if items != [] {
      var k0 := items[0].0;
      var next := cfg[k0 := Combined(cfg, items[0])];
      var tail := items[1..];
      forall i | 0 <= i < |tail| ensures tail[i] == items[i + 1] && tail[i].0 != k0 { }
      assert UniqueKeys(tail);
      assert MergeSucceeds(next, tail);
      MergeOverlays(next, tail);
      assert k0 !in KeysOf(tail);
      MergeKeepsUnmentioned(next, tail);
      forall i | 0 <= i < |items| ensures Merge(cfg, items)[items[i].0] == Combined(cfg, items[i]) {
        if i > 0 {
          assert items[i] == tail[i - 1];
        }
      }
      assert KeysOf(items) == {k0} + KeysOf(tail) by {
        forall k | k in KeysOf(items) ensures k in {k0} + KeysOf(tail) {
          var i :| 0 <= i < |items| && items[i].0 == k;
          if i > 0 { assert tail[i - 1] == items[i]; }
        }
      }
    }
  }

  /** A dict value for a key whose default is a dict is merged shallowly: default sub-keys
      the file does not mention survive, and the file's sub-keys win. */
  lemma DictUpdateKeepsSubkeys(cfg: Settings, items: seq<Item>, j: nat)
    requires UniqueKeys(items) && MergeSucceeds(cfg, items) && j < |items|
    requires items[j].0 in cfg && items[j].1.Obj?
    ensures items[j].0 in Merge(cfg, items) && Merge(cfg, items)[items[j].0].Obj?
    ensures var merged := Merge(cfg, items)[items[j].0].fields;
      && (forall s | s in cfg[items[j].0].fields && s !in items[j].1.fields ::
            s in merged && merged[s] == cfg[items[j].0].fields[s])
      && (forall s | s in items[j].1.fields :: s in merged && merged[s] == items[j].1.fields[s])
  {
    MergeOverlays(cfg, items);
  }

  /** The first item whose update raises ends the merge: what was merged before it is kept
      and nothing after it is applied. */
  lemma {:induction false} MergeStopsAtFailure(cfg: Settings, items: seq<Item>, j: nat)
    requires UniqueKeys(items) && j < |items|
    requires MergeSucceeds(cfg, items[..j]) && UpdateFails(cfg, items[j])
    ensures Merge(cfg, items) == Merge(cfg, items[..j])
    decreases j
  {
    if j > 0 {
      assert items[..j][0] == items[0];
      var k0 := items[0].0;
      var next := cfg[k0 := Combined(cfg, items[0])];
      var tail := items[1..];
      forall i | 0 <= i < |tail| ensures tail[i] == items[i + 1] && tail[i].0 != k0 { }
      assert tail[..j - 1] == items[..j][1..];
      var before := tail[..j - 1];
      forall i | 0 <= i < |before| ensures !UpdateFails(next, before[i]) {
        assert before[i] == items[..j][i + 1];
      }
      MergeStopsAtFailure(next, tail, j - 1);
    }
  }

  /** Defaults of the alert manager (alerting/alert_manager.py). */
  function AlertDefaults(): Settings {
    map[
      "email" := Obj(map[
        "enabled" := Bool(false),
        "smtp_server" := Str("smtp.example.com"),
        "smtp_port" := Num(587.0),
        "username" := Str("alerts@example.com"),
        "password" := Str("password"),
        "from_address" := Str("alerts@example.com"),
        "recipients" := Arr([Str("admin@example.com")])]),
      "webhook" := Obj(map[
        "enabled" := Bool(false),
        "url" := Str("https://hooks.slack.com/services/xxx/yyy/zzz"),
        "headers" := Obj(map["Content-Type" := Str("application/json")])]),
      "sms" := Obj(map[
        "enabled" := Bool(false),
        "api_key" := Str("your_api_key"),
        "api_url" := Str("https://api.sms-service.com/send"),
        "from_number" := Str("+1234567890"),
        "to_numbers" := Arr([Str("+0987654321")])]),
      "thresholds" := Obj(map[
        "cpu_percent" := Num(90.0),
        "memory_percent" := Num(85.0),
        "disk_usage" := Num(90.0)]),
      "alert_cooldown_minutes" := Num(15.0)
    ]
  }

  /** Defaults of the controller (controller/main_controller.py). */
  function ControllerDefaults(): Settings {
    map[
      "collection_interval" := Num(60.0),
      "anomaly_detection_interval" := Num(300.0),
      "prediction_interval" := Num(3600.0),
      "data_retention_days" := Num(30.0),
      "anomaly_model_path" := Str("models/anomaly_model.pkl"),
      "prediction_model_path" := Str("models/prediction_model.h5"),
      "alert_config_path" := Str("config/alerts.json"),
      "data_path" := Str("data/metrics.csv"),
      "auto_remediation" := Bool(true),
      "thresholds" := Obj(map[
        "cpu_percent" := Num(90.0),
        "memory_percent" := Num(85.0),
        "disk_usage" := Num(90.0)])
    ]
  }
}
