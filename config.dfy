/** The configuration manager (src/config/manager.py): a JSON file of settings,
    loaded with every missing default filled in, updated argument by argument,
    and read through accessors that fall back to the defaults. */
module ConfigManager {
  import opened Common

  /** A JSON scalar as `json.load` returns it. */
  datatype Value = Str(s: string) | Bool(b: bool) | Num(n: int) | Null

  type Config = map<string, Value>

  const ExePathKey := "proxifier_exe_path"
  const ServiceNameKey := "service_name"
  const AutoStartKey := "auto_start"
  const StartMinimizedKey := "start_minimized"

  /** The keys of `DEFAULT_CONFIG`, in declaration order. */
  const DefaultKeys: seq<string> := [ExePathKey, ServiceNameKey, AutoStartKey, StartMinimizedKey]

  const DefaultConfig: Config := map[
    ExePathKey := Str("D:\\Software\\Common\\Proxifier\\Proxifier.exe"),
    ServiceNameKey := Str("proxifierdrv"),
    AutoStartKey := Bool(false),
    StartMinimizedKey := Bool(true)
  ]

  lemma DefaultKeysAreTheDefaults()
    ensures DefaultConfig.Keys == set i | 0 <= i < |DefaultKeys| :: DefaultKeys[i]
  {
    assert DefaultKeys[0] == ExePathKey && DefaultKeys[1] == ServiceNameKey;
    assert DefaultKeys[2] == AutoStartKey && DefaultKeys[3] == StartMinimizedKey;
  }

  /** What `config.json` holds: no file, a file `json.load` rejects, or an object. */
  datatype ConfigFile = Missing | Corrupt | Parsed(data: Config)

  /** A loaded object with every missing default key added. */
  function WithDefaults(loaded: Config): Config
  {
    DefaultConfig + loaded
  }

  /** Filling defaults keeps what was loaded and adds exactly the missing defaults. */
  lemma WithDefaultsFillsOnlyMissing(loaded: Config)
    ensures WithDefaults(loaded).Keys == loaded.Keys + DefaultConfig.Keys
    ensures forall k :: k in loaded ==> WithDefaults(loaded)[k] == loaded[k]
    ensures forall k :: k in DefaultConfig && k !in loaded ==> WithDefaults(loaded)[k] == DefaultConfig[k]
  {
  }

  /** Filling defaults twice is filling them once. */
  lemma WithDefaultsIdempotent(loaded: Config)
    ensures WithDefaults(WithDefaults(loaded)) == WithDefaults(loaded)
  {
  }

  /** The value `load_config` returns for a given file. */
  function Loaded(file: ConfigFile): Config
  {
    match file
    case Missing => DefaultConfig
    case Corrupt => DefaultConfig
    case Parsed(data) => WithDefaults(data)
  }

  /** Every loaded configuration carries every default key. */
  lemma LoadedHasEveryDefaultKey(file: ConfigFile)
    ensures DefaultConfig.Keys <= Loaded(file).Keys
    ensures file.Parsed? ==> forall k :: k in file.data ==> Loaded(file)[k] == file.data[k]
    ensures !file.Parsed? ==> Loaded(file) == DefaultConfig
  {
  }

  /** Saving a loaded configuration and loading it again gives it back. */
  lemma ReloadIsStable(file: ConfigFile)
    ensures Loaded(Parsed(Loaded(file))) == Loaded(file)
  {
    match file
    case Parsed(data) => WithDefaultsIdempotent(data);
    case _ =>
  }

  /** The arguments of `update_config`; None leaves a key alone. */
  datatype Update = Update(
    exePath: Option<string>,
    serviceName: Option<string>,
    autoStart: Option<bool>,
    startMinimized: Option<bool>)

  /** The keys an update writes. */
  function Written(u: Update): set<string>
  {
    (if u.exePath.Some? then {ExePathKey} else {})
    + (if u.serviceName.Some? then {ServiceNameKey} else {})
    + (if u.autoStart.Some? then {AutoStartKey} else {})
    + (if u.startMinimized.Some? then {StartMinimizedKey} else {})
  }

  function Apply(config: Config, u: Update): Config
  {
    var c1 := if u.exePath.Some? then config[ExePathKey := Str(u.exePath.value)] else config;
    var c2 := if u.serviceName.Some? then c1[ServiceNameKey := Str(u.serviceName.value)] else c1;
    var c3 := if u.autoStart.Some? then c2[AutoStartKey := Bool(u.autoStart.value)] else c2;
    if u.startMinimized.Some? then c3[StartMinimizedKey := Bool(u.startMinimized.value)] else c3
  }

  /** An update overwrites exactly the keys whose argument is given and
      leaves every other key as it was. */
  lemma UpdateWritesOnlyGivenKeys(config: Config, u: Update)
    ensures Apply(config, u).Keys == config.Keys + Written(u)
    ensures forall k :: k in config && k !in Written(u) ==> Apply(config, u)[k] == config[k]
    ensures u.exePath.Some? ==> Apply(config, u)[ExePathKey] == Str(u.exePath.value)
    ensures u.serviceName.Some? ==> Apply(config, u)[ServiceNameKey] == Str(u.serviceName.value)
    ensures u.autoStart.Some? ==> Apply(config, u)[AutoStartKey] == Bool(u.autoStart.value)
    ensures u.startMinimized.Some? ==> Apply(config, u)[StartMinimizedKey] == Bool(u.startMinimized.value)
  {
  }

  /** After a successful update the next load sees exactly the updated
      configuration. */
  lemma UpdateThenLoad(file: ConfigFile, u: Update)
    ensures Loaded(Parsed(Apply(Loaded(file), u))) == Apply(Loaded(file), u)
  {
    var updated := Apply(Loaded(file), u);
    LoadedHasEveryDefaultKey(file);
    UpdateWritesOnlyGivenKeys(Loaded(file), u);
    assert DefaultConfig.Keys <= updated.Keys;
    assert WithDefaults(updated) == updated;
  }

  /** A `get_*` accessor: the value under the key, the default when absent. */
  function Get(config: Config, key: string): Value
    requires key in DefaultConfig
  {
    if key in config then config[key] else DefaultConfig[key]
  }

  /** Because loading fills every default, an accessor's fallback is never
      taken, and with no readable file it returns the default. */
  lemma AccessorReadsLoadedValue(file: ConfigFile, key: string)
    requires key in DefaultConfig
    ensures Get(Loaded(file), key) == Loaded(file)[key]
    ensures file.Parsed? && key in file.data ==> Get(Loaded(file), key) == file.data[key]
    ensures !file.Parsed? ==> Get(Loaded(file), key) == DefaultConfig[key]
  {
  }

  /** The loop of `load_config`: add each default key the loaded object lacks. */
  method FillDefaults(loaded: Config) returns (config: Config)
    ensures config == WithDefaults(loaded)
  {
    DefaultKeysAreTheDefaults();
    config := loaded;
    for i := 0 to |DefaultKeys|
      invariant config.Keys == loaded.Keys + (set j | 0 <= j < i :: DefaultKeys[j])
      invariant forall k :: k in loaded ==> config[k] == loaded[k]
      invariant forall k :: k in config && k !in loaded ==> config[k] == DefaultConfig[k]
    {
      var key := DefaultKeys[i];
      if key !in config {
        config := config[key := DefaultConfig[key]];
      }
    }
  }

  /** The file a load leaves: the defaults are saved only when the file was
      missing, and only if that save succeeds. */
  function FileAfterLoad(file: ConfigFile, defaultsSaved: bool): (after: ConfigFile)
    ensures after != file ==> file.Missing? && after == Parsed(DefaultConfig)
    ensures Loaded(after) == Loaded(file)
  {
    if file.Missing? && defaultsSaved then Parsed(DefaultConfig) else file
  }

  /** The configuration file. Whether a write succeeds is an answer of the
      file system, given to each save separately. */
  class ConfigStore {
    var file: ConfigFile

    constructor(file: ConfigFile)
      ensures this.file == file
    {
      this.file := file;
    }

    /** `save_config`: true when the file was written, false on any failure
        (which leaves the file as it was); `written` is whether the write
        succeeds. */
    method SaveConfig(config: Config, written: bool) returns (ok: bool)
      modifies this
      ensures ok == written
      ensures file == if written then Parsed(config) else old(file)
    {
      if written {
        file := Parsed(config);
        ok := true;
      } else {
        ok := false;
      }
    }

    /** `load_config`: defaults (saved) when the file is missing, defaults when
        it cannot be read, otherwise its object with the missing defaults
        filled; `defaultsSaved` answers the save of a missing file. */
    method LoadConfig(defaultsSaved: bool) returns (config: Config)
      modifies this
      ensures config == Loaded(old(file))
      ensures file == FileAfterLoad(old(file), defaultsSaved)
    {
      match file {
        case Missing =>
          var _ := SaveConfig(DefaultConfig, defaultsSaved);
          config := DefaultConfig;
        case Corrupt =>
          config := DefaultConfig;
        case Parsed(data) =>
          config := FillDefaults(data);
      }
    }

    /** `update_config`: load, overwrite the given keys, save; returns what
        the final save returned. `defaultsSaved` answers the save inside the
        load, `saved` the final one: a failed final save after a successful
        defaults save leaves the defaults in the file. */
    method UpdateConfig(u: Update, defaultsSaved: bool, saved: bool) returns (ok: bool)
      modifies this
      ensures ok == saved
      ensures file == if saved then Parsed(Apply(Loaded(old(file)), u)) else FileAfterLoad(old(file), defaultsSaved)
    {
      var config := LoadConfig(defaultsSaved);
      if u.exePath.Some? {
        config := config[ExePathKey := Str(u.exePath.value)];
      }
      if u.serviceName.Some? {
        config := config[ServiceNameKey := Str(u.serviceName.value)];
      }
      if u.autoStart.Some? {
        config := config[AutoStartKey := Bool(u.autoStart.value)];
      }
      if u.startMinimized.Some? {
        config := config[StartMinimizedKey := Bool(u.startMinimized.value)];
      }
      ok := SaveConfig(config, saved);
    }

    /** The four `get_*` accessors share this shape: load, then look up. */
    method GetSetting(key: string, defaultsSaved: bool) returns (v: Value)
      requires key in DefaultConfig
      modifies this
      ensures v == Get(Loaded(old(file)), key)
      ensures file == FileAfterLoad(old(file), defaultsSaved)
    {
      var config := LoadConfig(defaultsSaved);
      v := Get(config, key);
    }

    method GetProxifierExePath(defaultsSaved: bool) returns (v: Value)
      modifies this
      ensures v == Get(Loaded(old(file)), ExePathKey)
      ensures file == FileAfterLoad(old(file), defaultsSaved)
    {
      v := GetSetting(ExePathKey, defaultsSaved);
    }

    method GetServiceName(defaultsSaved: bool) returns (v: Value)
      modifies this
      ensures v == Get(Loaded(old(file)), ServiceNameKey)
      ensures file == FileAfterLoad(old(file), defaultsSaved)
    {
      v := GetSetting(ServiceNameKey, defaultsSaved);
    }

    method GetAutoStart(defaultsSaved: bool) returns (v: Value)
      modifies this
      ensures v == Get(Loaded(old(file)), AutoStartKey)
      ensures file == FileAfterLoad(old(file), defaultsSaved)
    {
      v := GetSetting(AutoStartKey, defaultsSaved);
    }

    method GetStartMinimized(defaultsSaved: bool) returns (v: Value)
      modifies this
      ensures v == Get(Loaded(old(file)), StartMinimizedKey)
      ensures file == FileAfterLoad(old(file), defaultsSaved)
    {
      v := GetSetting(StartMinimizedKey, defaultsSaved);
    }
  }
}
