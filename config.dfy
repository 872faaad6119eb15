/** The settings store of src/utils/config.py: a key/value map with defaults, a JSON
    settings file reduced to what loading can tell about it, the stream-key lookup in the
    environment, and the process-wide instance. */
module Config {
  import opened Wrappers
  import opened PyStr
  import opened PyValues

  /** `ConfigManager.DEFAULT_CONFIG`. */
  const DefaultConfig: map<string, Value> := map[
    "video_source" := VStr("screen"),
    "audio_source" := VStr("default"),
    "resolution" := VStr("1280x720"),
    "bitrate" := VInt(2500),
    "fps" := VInt(30),
    "platform" := VStr("Benutzerdefiniert"),
    "rtmp_url" := VStr(""),
    "last_used_device" := VNone]

  /** The settings file as loading sees it: absent, present but not valid JSON, or
      decoded to an object. */
  datatype SettingsFile = Missing | Undecodable | Decoded(contents: map<string, Value>)

  /** `dict.get(key, default)`. */
  function Lookup(m: map<string, Value>, key: string, default: Value): (v: Value)
    ensures key in m ==> v == m[key]
    ensures key !in m ==> v == default
  {
    if key in m then m[key] else default
  }

  /** A lookup after storing `value` under `key` sees `value` there and the old map
      everywhere else. */
  lemma LookupAfterStore(m: map<string, Value>, key: string, value: Value, other: string, default: Value)
    ensures Lookup(m[key := value], key, default) == value
    ensures other != key ==> Lookup(m[key := value], other, default) == Lookup(m, other, default)
  {
  }

  /** The name of the environment variable holding a platform's stream key. */
  function StreamKeyVariable(platform: string): (name: string)
    ensures |name| == |platform| + |"_STREAM_KEY"|
    ensures name[|platform|..] == "_STREAM_KEY"
    ensures forall k | 0 <= k < |platform| :: name[k] == UpperChar(platform[k])
  {
    Upper(platform) + "_STREAM_KEY"
  }

  /** `get_stream_key`: the value of `<PLATFORM>_STREAM_KEY`, `None` when it is unset. */
  function GetStreamKey(environment: map<string, string>, platform: string): (key: Option<string>)
    ensures key.Some? <==> StreamKeyVariable(platform) in environment
    ensures key.Some? ==> key.value == environment[StreamKeyVariable(platform)]
  {
    var name := StreamKeyVariable(platform);
    if name in environment then Some(environment[name]) else None
  }

  /** Platform names that differ only in the case of ASCII letters read the same variable. */
  lemma {:induction false} StreamKeyIgnoresCase(environment: map<string, string>, p: string, q: string)
    requires |p| == |q| && forall k | 0 <= k < |p| :: UpperChar(p[k]) == UpperChar(q[k])
    ensures StreamKeyVariable(p) == StreamKeyVariable(q)
    ensures GetStreamKey(environment, p) == GetStreamKey(environment, q)
  {
    var a := StreamKeyVariable(p);
    var b := StreamKeyVariable(q);
    assert forall k | 0 <= k < |a| :: a[k] == b[k] by {
      forall k | 0 <= k < |a|
        ensures a[k] == b[k]
      {
        if k >= |p| {
          assert a[k] == a[|p|..][k - |p|];
          assert b[k] == b[|q|..][k - |q|];
        }
      }
    }
  }

  class ConfigManager {
    /** `self.config`. */
    var config: map<string, Value>
    /** The settings file on disk. */
    var file: SettingsFile

    /** `__init__`: start from an empty map and load. Whether the settings file can be
        written is passed in. */
    constructor (onDisk: SettingsFile, writable: bool)
      ensures onDisk.Decoded? ==> config == onDisk.contents && file == onDisk
      ensures !onDisk.Decoded? ==> config == DefaultConfig
      ensures onDisk == Undecodable ==> file == Undecodable
      ensures onDisk == Missing ==> file == if writable then Decoded(DefaultConfig) else Missing
    {
      config := map[];
      file := onDisk;
      new;
      var _ := LoadConfig(writable);
    }

    /** `get`. */
    function Get(key: string, default: Value): (v: Value)
      reads this
      ensures v == Lookup(config, key, default)
    {
      Lookup(config, key, default)
    }

    /** `set`: store one value in memory; nothing is written to the file. */
    method Set(key: string, value: Value)
      modifies this
      ensures config == old(config)[key := value]
      ensures file == old(file)
    {
      config := config[key := value];
    }

    /** `save_config`: write the map as JSON; whether the write succeeds is passed in. */
    method SaveConfig(writable: bool) returns (ok: bool)
      modifies this
      ensures ok == writable
      ensures file == if writable then Decoded(config) else old(file)
      ensures config == old(config)
    {
      if writable {
        file := Decoded(config);
        return true;
      }
      return false;
    }

    /** `load_config`: the file's contents verbatim (not merged with the defaults), the
        defaults when the file does not decode, and the defaults written out when it is
        missing. */
    method LoadConfig(writable: bool) returns (loaded: map<string, Value>)
      modifies this
      ensures loaded == config
      ensures old(file).Decoded? ==> config == old(file).contents && file == old(file)
      ensures old(file) == Undecodable ==> config == DefaultConfig && file == Undecodable
      ensures old(file) == Missing ==>
        config == DefaultConfig && file == if writable then Decoded(DefaultConfig) else Missing
    {
      match file {
        case Decoded(contents) =>
          config := contents;
        case Undecodable =>
          config := DefaultConfig;
        case Missing =>
          config := DefaultConfig;
          var _ := SaveConfig(writable);
      }
      return config;
    }

    /** `reset_to_defaults`: a copy of the defaults, written out. */
    method ResetToDefaults(writable: bool)
      modifies this
      ensures config == DefaultConfig
      ensures file == if writable then Decoded(DefaultConfig) else old(file)
    {
      config := DefaultConfig;
      var _ := SaveConfig(writable);
    }
  }

  /** The module-global `_config_instance` behind `get_config`. */
  class ConfigRegistry {
    var instance: ConfigManager?

    constructor ()
      ensures instance == null
    {
      instance := null;
    }

    /** `get_config`: create the manager on the first call only. */
    method GetConfig(onDisk: SettingsFile, writable: bool) returns (c: ConfigManager)
      modifies this
      ensures old(instance) != null ==> c == old(instance)
      ensures old(instance) == null ==> fresh(c)
      ensures instance == c
    {
      if instance == null {
        instance := new ConfigManager(onDisk, writable);
      }
      c := instance;
    }
  }

  /** Two calls hand out one and the same manager, whatever the file looks like by the
      second call. */
  method SameInstanceTwice(first: SettingsFile, second: SettingsFile, writable: bool)
    returns (a: ConfigManager, b: ConfigManager)
    ensures a == b
  {
    var registry := new ConfigRegistry();
    a := registry.GetConfig(first, writable);
    b := registry.GetConfig(second, writable);
  }

  /** Changing a value after a reset leaves the defaults themselves untouched: the map
      the manager holds is a copy. */
  method ResetThenSet(onDisk: SettingsFile, key: string, value: Value) returns (before: Value, after: Value)
    ensures before == Lookup(DefaultConfig, key, VNone)
    ensures after == value
  {
    var m := new ConfigManager(onDisk, true);
    m.ResetToDefaults(true);
    before := m.Get(key, VNone);
    m.Set(key, value);
    after := m.Get(key, VNone);
  }
}
