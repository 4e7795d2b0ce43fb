/**
  Application configuration (config/config.go): defaults, a JSON file laid
  over them, environment overrides laid over that, then validation. The file
  system is a map from path to what reading and decoding that path gives,
  and the environment is a map from variable name to value.
 */
module Configuration {
  import opened Wrappers
  import opened Decimal
  import opened ScheduleSettings

  /** The fields of `Config`, as a value. */
  datatype Settings = Settings(
    port: string,
    formUrl: string,
    entryMap: map<string, string>,
    dbPath: string,
    schedule: ScheduleConfig)

  /** The entry keys `Validate` requires, in the order it checks them. */
  const RequiredEntries: seq<string> := ["name", "employee_id", "start_date", "end_date", "leave_type", "password"]

  /** `DefaultConfig`. */
  const Defaults: Settings := Settings(
    "8080",
    "",
    map["name" := "", "employee_id" := "", "start_date" := "", "end_date" := "", "leave_type" := "", "password" := ""],
    "data.db",
    ScheduleConfig(false, "", 0, 5, 3, 100))

  // ---------------------------------------------------------------------------
  // Validate

  datatype ConfigError = FormUrlMissing | EntryMapEmpty | EntryMissing(key: string)

  /** Indexing a Go map: a missing key reads as the empty string. */
  function Entry(m: map<string, string>, key: string): string {
    if key in m then m[key] else ""
  }

  /** The first of `keys` whose entry is empty or missing, scanning in order. */
  function FirstMissingEntry(m: map<string, string>, keys: seq<string>): (r: Option<string>)
    ensures r.None? <==> forall i :: 0 <= i < |keys| ==> Entry(m, keys[i]) != ""
    ensures r.Some? ==> exists i :: (0 <= i < |keys| && keys[i] == r.value && Entry(m, keys[i]) == ""
      && forall j :: 0 <= j < i ==> Entry(m, keys[j]) != "")
  {
    if |keys| == 0 then None
    else if Entry(m, keys[0]) == "" then Some(keys[0])
    else
      var rest := FirstMissingEntry(m, keys[1..]);
      assert forall i :: 1 <= i < |keys| ==> keys[i] == keys[1..][i - 1];
      rest
  }

  /** `Config.Validate`: form URL first, then a non-empty entry map, then each required entry in order. */
  function Validate(s: Settings): (r: Option<ConfigError>)
    ensures r == Some(FormUrlMissing) <==> s.formUrl == ""
    ensures r.Some? && r.value.EntryMissing? ==> r.value.key in RequiredEntries && Entry(s.entryMap, r.value.key) == ""
  {
    if s.formUrl == "" then Some(FormUrlMissing)
    else if |s.entryMap| == 0 then Some(EntryMapEmpty)
    else match FirstMissingEntry(s.entryMap, RequiredEntries)
      case Some(key) => Some(EntryMissing(key))
      case None => None
  }

  /** Validation passes exactly when the form URL is set and all six entries are present and non-empty. */
  lemma ValidateAcceptsIff(s: Settings)
    ensures Validate(s) == None <==>
      s.formUrl != "" && forall i :: 0 <= i < |RequiredEntries| ==> RequiredEntries[i] in s.entryMap && s.entryMap[RequiredEntries[i]] != ""
  {
    if s.formUrl != "" && forall i :: 0 <= i < |RequiredEntries| ==> RequiredEntries[i] in s.entryMap && s.entryMap[RequiredEntries[i]] != "" {
      assert RequiredEntries[0] in s.entryMap;
      assert |s.entryMap| != 0;
    }
  }

  /** The first failing check is the one reported: a missing URL hides every entry problem, and entries are reported in order. */
  lemma ValidateReportsFirstFailure(s: Settings)
    ensures s.formUrl == "" ==> Validate(s) == Some(FormUrlMissing)
    ensures Validate(s) == Some(EntryMapEmpty) <==> s.formUrl != "" && |s.entryMap| == 0
    ensures s.formUrl != "" && |s.entryMap| > 0 && FirstMissingEntry(s.entryMap, RequiredEntries).Some? ==>
      Validate(s) == Some(EntryMissing(FirstMissingEntry(s.entryMap, RequiredEntries).value))
    ensures Validate(s).Some? && Validate(s).value.EntryMissing? ==>
      exists i :: 0 <= i < |RequiredEntries| && RequiredEntries[i] == Validate(s).value.key
        && Entry(s.entryMap, RequiredEntries[i]) == ""
        && forall j :: 0 <= j < i ==> Entry(s.entryMap, RequiredEntries[j]) != ""
  {
  }

  /** The defaults never validate: the form URL is empty, and even with a URL every entry id is empty. */
  lemma DefaultsFailValidate()
    ensures Validate(Defaults) == Some(FormUrlMissing)
    ensures Validate(Defaults.(formUrl := "https://docs.google.com/forms/d/e/x/formResponse")) == Some(EntryMissing("name"))
  {
    assert Entry(Defaults.entryMap, RequiredEntries[0]) == "";
    assert "name" in Defaults.entryMap;
  }

  // ---------------------------------------------------------------------------
  // Environment overrides

  type Env = map<string, string>

  /** `os.Getenv`: unset reads as the empty string. */
  function Getenv(env: Env, name: string): string {
    if name in env then env[name] else ""
  }

  /** A string variable: applied verbatim when non-empty. */
  function StringOverride(current: string, value: string): string {
    if value != "" then value else current
  }

  /** An integer variable: applied only when non-empty and a valid decimal `int64`. */
  function IntOverride(current: int, value: string): int {
    if value != "" && ParseInt64(value).Some? then ParseInt64(value).value else current
  }

  /** `SCHEDULE_ENABLED`: any non-empty value decides, and only "true" and "1" enable. */
  function EnabledOverride(current: bool, value: string): bool {
    if value != "" then value == "true" || value == "1" else current
  }

  /** The schedule fields `applyEnvOverrides` leaves behind; there is no variable for the retry count or interval. */
  function ScheduleEnvOverridden(c: ScheduleConfig, env: Env): ScheduleConfig {
    c.(enabled := EnabledOverride(c.enabled, Getenv(env, "SCHEDULE_ENABLED")),
       date := StringOverride(c.date, Getenv(env, "SCHEDULE_DATE")),
       savedFormId := IntOverride(c.savedFormId, Getenv(env, "SCHEDULE_SAVED_FORM_ID")),
       prepareSeconds := IntOverride(c.prepareSeconds, Getenv(env, "SCHEDULE_PREPARE_SECONDS")))
  }

  /** The settings `applyEnvOverrides` leaves behind. */
  function EnvOverridden(s: Settings, env: Env): Settings {
    s.(port := StringOverride(s.port, Getenv(env, "PORT")),
       formUrl := StringOverride(s.formUrl, Getenv(env, "FORM_URL")),
       dbPath := StringOverride(s.dbPath, Getenv(env, "DB_PATH")),
       schedule := ScheduleEnvOverridden(s.schedule, env))
  }

  /** The schedule part of `applyEnvOverrides`, one variable after the other. */
  method ScheduleWithEnv(c: ScheduleConfig, env: Env) returns (r: ScheduleConfig)
    ensures r == ScheduleEnvOverridden(c, env)
  {
    r := c;
    var v := Getenv(env, "SCHEDULE_ENABLED");
    if v != "" {
      r := r.(enabled := v == "true" || v == "1");
    }
    v := Getenv(env, "SCHEDULE_DATE");
    if v != "" {
      r := r.(date := v);
    }
    v := Getenv(env, "SCHEDULE_SAVED_FORM_ID");
    if v != "" {
      var id := ParseInt64(v);
      if id.Some? {
        r := r.(savedFormId := id.value);
      }
    }
    v := Getenv(env, "SCHEDULE_PREPARE_SECONDS");
    if v != "" {
      var seconds := ParseInt64(v);
      if seconds.Some? {
        r := r.(prepareSeconds := seconds.value);
      }
    }
  }

  /** The variables `applyEnvOverrides` reads. */
  const EnvNames: set<string> := {"PORT", "FORM_URL", "DB_PATH", "SCHEDULE_ENABLED", "SCHEDULE_DATE", "SCHEDULE_SAVED_FORM_ID", "SCHEDULE_PREPARE_SECONDS"}

  /** With every variable unset or empty, nothing changes. */
  lemma EnvUnsetKeepsSettings(s: Settings, env: Env)
    requires forall name :: name in EnvNames ==> Getenv(env, name) == ""
    ensures EnvOverridden(s, env) == s
  {
    assert Getenv(env, "PORT") == "" && Getenv(env, "FORM_URL") == "" && Getenv(env, "DB_PATH") == "";
    assert Getenv(env, "SCHEDULE_ENABLED") == "" && Getenv(env, "SCHEDULE_DATE") == "";
    assert Getenv(env, "SCHEDULE_SAVED_FORM_ID") == "" && Getenv(env, "SCHEDULE_PREPARE_SECONDS") == "";
  }

  /** Each override acts on its own field only, and only when its variable is set and non-empty. */
  lemma EnvOverrideFields(s: Settings, env: Env)
    ensures var r := EnvOverridden(s, env);
      (r.port == if Getenv(env, "PORT") != "" then Getenv(env, "PORT") else s.port)
      && (r.formUrl == if Getenv(env, "FORM_URL") != "" then Getenv(env, "FORM_URL") else s.formUrl)
      && (r.dbPath == if Getenv(env, "DB_PATH") != "" then Getenv(env, "DB_PATH") else s.dbPath)
      && (r.schedule.date == if Getenv(env, "SCHEDULE_DATE") != "" then Getenv(env, "SCHEDULE_DATE") else s.schedule.date)
      && (Getenv(env, "SCHEDULE_ENABLED") == "" ==> r.schedule.enabled == s.schedule.enabled)
      && r.entryMap == s.entryMap
  {
  }

  /** A non-empty `SCHEDULE_ENABLED` enables exactly for "true" and "1"; anything else, "TRUE" or "yes" included, disables. */
  lemma ScheduleEnabledOverride(s: Settings, env: Env)
    requires Getenv(env, "SCHEDULE_ENABLED") != ""
    ensures EnvOverridden(s, env).schedule.enabled <==> Getenv(env, "SCHEDULE_ENABLED") in {"true", "1"}
    ensures Getenv(env, "SCHEDULE_ENABLED") == "TRUE" ==> !EnvOverridden(s, env).schedule.enabled
  {
  }

  /**
    The two integer variables apply exactly when they parse as decimal
    `int64`; the retry count and interval have no variable at all.
   */
  lemma IntegerOverrides(s: Settings, env: Env)
    ensures var v := Getenv(env, "SCHEDULE_SAVED_FORM_ID");
      EnvOverridden(s, env).schedule.savedFormId == if ParseInt64(v).Some? then ParseInt64(v).value else s.schedule.savedFormId
    ensures var v := Getenv(env, "SCHEDULE_PREPARE_SECONDS");
      EnvOverridden(s, env).schedule.prepareSeconds == if ParseInt64(v).Some? then ParseInt64(v).value else s.schedule.prepareSeconds
    ensures EnvOverridden(s, env).schedule.retryCount == s.schedule.retryCount
    ensures EnvOverridden(s, env).schedule.retryInterval == s.schedule.retryInterval
  {
    ParseInt64Examples();
  }

  /** "abc" is ignored, "-3" is applied as is (the scheduler later treats it as the default 5). */
  lemma IntegerOverrideExamples(s: Settings)
    ensures EnvOverridden(s, map["SCHEDULE_PREPARE_SECONDS" := "abc"]).schedule.prepareSeconds == s.schedule.prepareSeconds
    ensures EnvOverridden(s, map["SCHEDULE_PREPARE_SECONDS" := "-3"]).schedule.prepareSeconds == -3
    ensures EnvOverridden(s, map["SCHEDULE_SAVED_FORM_ID" := "42"]).schedule.savedFormId == 42
  {
    ParseInt64Examples();
    assert !IsDigit("abc"[0]);
  }

  /** Applying the overrides twice is the same as once. */
  lemma EnvOverridesIdempotent(s: Settings, env: Env)
    ensures EnvOverridden(EnvOverridden(s, env), env) == EnvOverridden(s, env)
  {
  }

  // ---------------------------------------------------------------------------
  // The configuration file

  /** The members present in the file's "schedule" object. */
  datatype ScheduleOverlay = ScheduleOverlay(
    enabled: Option<bool>,
    date: Option<string>,
    savedFormId: Option<int>,
    prepareSeconds: Option<int>,
    retryCount: Option<int>,
    retryInterval: Option<int>)

  /** The "entry_map" member: a JSON `null`, or an object of strings. */
  datatype EntryMapMember = Null | Object(entries: map<string, string>)

  /**
    The members present in the decoded JSON object. A `null` is kept only for
    "entry_map": for the string and number members and for "schedule" it
    leaves the field as it was, like an absent member.
   */
  datatype FileOverlay = FileOverlay(
    port: Option<string>,
    formUrl: Option<string>,
    entryMap: Option<EntryMapMember>,
    dbPath: Option<string>,
    schedule: Option<ScheduleOverlay>)

  /** What reading and decoding a path that exists gives. A path absent from the file system does not exist. */
  datatype ConfigFile = Unreadable | Malformed | Json(overlay: FileOverlay)

  function Pick<T>(o: Option<T>, current: T): T {
    if o.Some? then o.value else current
  }

  /** `json.Unmarshal` into the schedule struct: members present overwrite, absent ones keep their value. */
  function ScheduleUnmarshalled(c: ScheduleConfig, o: ScheduleOverlay): ScheduleConfig {
    ScheduleConfig(Pick(o.enabled, c.enabled), Pick(o.date, c.date), Pick(o.savedFormId, c.savedFormId),
      Pick(o.prepareSeconds, c.prepareSeconds), Pick(o.retryCount, c.retryCount), Pick(o.retryInterval, c.retryInterval))
  }

  /** `json.Unmarshal` of the "entry_map" member into the existing map. */
  function EntryMapUnmarshalled(m: map<string, string>, o: Option<EntryMapMember>): map<string, string> {
    match o
    case None => m
    case Some(Null) => map[]
    case Some(Object(entries)) => m + entries
  }

  /**
    `json.Unmarshal(data, cfg)` over the current settings: members present
    overwrite; an "entry_map" object adds its keys to the existing map (the
    decoder reuses a non-nil map), and `null` sets the map to nil.
   */
  function Unmarshalled(s: Settings, o: FileOverlay): Settings {
    Settings(
      Pick(o.port, s.port),
      Pick(o.formUrl, s.formUrl),
      EntryMapUnmarshalled(s.entryMap, o.entryMap),
      Pick(o.dbPath, s.dbPath),
      if o.schedule.Some? then ScheduleUnmarshalled(s.schedule, o.schedule.value) else s.schedule)
  }

  /** An "entry_map" in the file keeps the default keys it does not mention. */
  lemma UnmarshalMergesEntryMap(s: Settings, o: FileOverlay, key: string)
    requires o.entryMap.Some? && o.entryMap.value.Object?
    ensures var entries := o.entryMap.value.entries;
      key in entries ==> Unmarshalled(s, o).entryMap[key] == entries[key]
    ensures var entries := o.entryMap.value.entries;
      key !in entries && key in s.entryMap ==> Unmarshalled(s, o).entryMap[key] == s.entryMap[key]
    ensures Unmarshalled(s, o).entryMap.Keys == s.entryMap.Keys + o.entryMap.value.entries.Keys
  {
  }

  datatype LoadError = ReadFailed | ParseFailed | Invalid(cause: ConfigError)

  /** The file `Load` reads: `config.json` when no path is given. */
  function ConfigPath(path: string): string {
    if path == "" then "config.json" else path
  }

  /** `Load`: defaults, then the file if it exists, then the environment, then validation. */
  function LoadSpec(path: string, fs: map<string, ConfigFile>, env: Env): (r: Result<Settings, LoadError>)
    ensures r.Success? ==> Validate(r.value) == None
    ensures r == Failure(ParseFailed) <==> ConfigPath(path) in fs && fs[ConfigPath(path)].Malformed?
    ensures r == Failure(ReadFailed) <==> ConfigPath(path) in fs && fs[ConfigPath(path)].Unreadable?
  {
    var p := ConfigPath(path);
    var fromFile :=
      if p !in fs then Success(Defaults)
      else match fs[p]
        case Unreadable => Failure(ReadFailed)
        case Malformed => Failure(ParseFailed)
        case Json(o) => Success(Unmarshalled(Defaults, o));
    if fromFile.Failure? then Failure(fromFile.error)
    else
      var s := EnvOverridden(fromFile.value, env);
      match Validate(s)
      case Some(e) => Failure(Invalid(e))
      case None => Success(s)
  }

  /** The settings `Load` starts from before the environment: the defaults, or the defaults with the file laid over them. */
  function FileLayer(p: string, fs: map<string, ConfigFile>): Settings
    requires p in fs ==> fs[p].Json?
  {
    if p in fs then Unmarshalled(Defaults, fs[p].overlay) else Defaults
  }

  /**
    Precedence: a loaded configuration is the file over the defaults with the
    environment over that, it always validates, and a set variable beats the
    file.
   */
  lemma LoadPrecedence(path: string, fs: map<string, ConfigFile>, env: Env)
    requires LoadSpec(path, fs, env).Success?
    ensures var p := ConfigPath(path);
      (p in fs ==> fs[p].Json?)
      && LoadSpec(path, fs, env).value == EnvOverridden(FileLayer(p, fs), env)
    ensures Validate(LoadSpec(path, fs, env).value) == None
    ensures Getenv(env, "PORT") != "" ==> LoadSpec(path, fs, env).value.port == Getenv(env, "PORT")
    ensures Getenv(env, "FORM_URL") != "" ==> LoadSpec(path, fs, env).value.formUrl == Getenv(env, "FORM_URL")
  {
  }

  /**
    The converse of `LoadPrecedence`: with no file or a file that decodes,
    `Load` validates the environment over the file over the defaults, and
    returns those settings when they pass and the validation error otherwise.
   */
  lemma LoadLayered(path: string, fs: map<string, ConfigFile>, env: Env)
    requires ConfigPath(path) in fs ==> fs[ConfigPath(path)].Json?
    ensures var s := EnvOverridden(FileLayer(ConfigPath(path), fs), env);
      LoadSpec(path, fs, env) == if Validate(s) == None then Success(s) else Failure(Invalid(Validate(s).value))
  {
  }

  /** A missing file is not an error: `Load` then validates the defaults with the environment over them. */
  lemma LoadMissingFile(path: string, fs: map<string, ConfigFile>, env: Env)
    requires ConfigPath(path) !in fs
    ensures LoadSpec(path, fs, env) ==
      if Validate(EnvOverridden(Defaults, env)) == None then Success(EnvOverridden(Defaults, env))
      else Failure(Invalid(Validate(EnvOverridden(Defaults, env)).value))
    ensures Getenv(env, "FORM_URL") == "" ==> LoadSpec(path, fs, env) == Failure(Invalid(FormUrlMissing))
  {
  }

  /** A file that exists but cannot be read or decoded fails `Load` whatever the environment says. */
  lemma LoadFileErrors(path: string, fs: map<string, ConfigFile>, env: Env)
    requires ConfigPath(path) in fs
    ensures fs[ConfigPath(path)] == Unreadable ==> LoadSpec(path, fs, env) == Failure(ReadFailed)
    ensures fs[ConfigPath(path)] == Malformed ==> LoadSpec(path, fs, env) == Failure(ParseFailed)
  {
  }

  /** The entry ids must come from the file: the environment cannot set them, so without a file `Load` always fails. */
  lemma LoadWithoutFileFails(path: string, fs: map<string, ConfigFile>, env: Env)
    requires ConfigPath(path) !in fs
    ensures LoadSpec(path, fs, env).Failure?
  {
    var s := EnvOverridden(Defaults, env);
    assert s.entryMap == Defaults.entryMap;
    if s.formUrl != "" {
      assert Entry(s.entryMap, RequiredEntries[0]) == "";
      assert "name" in s.entryMap;
    }
  }

  /**
    An "entry_map": null empties the map, so a file that sets a form URL but
    a null entry map fails validation on the empty map, whatever the
    environment says.
   */
  lemma LoadNullEntryMap(path: string, fs: map<string, ConfigFile>, env: Env)
    requires ConfigPath(path) in fs && fs[ConfigPath(path)].Json?
    requires fs[ConfigPath(path)].overlay.entryMap == Some(Null)
    requires fs[ConfigPath(path)].overlay.formUrl.Some? && fs[ConfigPath(path)].overlay.formUrl.value != ""
    ensures LoadSpec(path, fs, env) == Failure(Invalid(EntryMapEmpty))
  {
  }

  // ---------------------------------------------------------------------------
  // The Config object

  /** `*Config`, whose fields `json.Unmarshal` and `applyEnvOverrides` assign in place. */
  class Config {
    var port: string
    var formUrl: string
    var entryMap: map<string, string>
    var dbPath: string
    var schedule: ScheduleConfig

    function Value(): Settings
      reads this
    {
      Settings(port, formUrl, entryMap, dbPath, schedule)
    }

    /** `DefaultConfig`. */
    constructor Default()
      ensures Value() == Defaults
    {
      port := "8080";
      formUrl := "";
      entryMap := map["name" := "", "employee_id" := "", "start_date" := "", "end_date" := "", "leave_type" := "", "password" := ""];
      dbPath := "data.db";
      schedule := ScheduleConfig(false, "", 0, 5, 3, 100);
    }

    /** `json.Unmarshal(data, cfg)` of a file that decoded. */
    method Unmarshal(o: FileOverlay)
      modifies this
      ensures Value() == Unmarshalled(old(Value()), o)
    {
      if o.port.Some? {
        port := o.port.value;
      }
      if o.formUrl.Some? {
        formUrl := o.formUrl.value;
      }
      match o.entryMap {
        case None =>
        case Some(Null) =>
          entryMap := map[];
        case Some(Object(entries)) =>
          entryMap := entryMap + entries;
      }
      if o.dbPath.Some? {
        dbPath := o.dbPath.value;
      }
      if o.schedule.Some? {
        schedule := ScheduleUnmarshalled(schedule, o.schedule.value);
      }
    }

    /** `applyEnvOverrides`. */
    method ApplyEnvOverrides(env: Env)
      modifies this
      ensures Value() == EnvOverridden(old(Value()), env)
    {
      var v := Getenv(env, "PORT");
      if v != "" {
        port := v;
      }
      v := Getenv(env, "FORM_URL");
      if v != "" {
        formUrl := v;
      }
      v := Getenv(env, "DB_PATH");
      if v != "" {
        dbPath := v;
      }
      schedule := ScheduleWithEnv(schedule, env);
    }
  }

  /** `Load`, building a fresh `Config` and mutating it step by step. */
  method Load(path: string, fs: map<string, ConfigFile>, env: Env) returns (r: Result<Config, LoadError>)
    ensures r.Failure? ==> LoadSpec(path, fs, env) == Failure(r.error)
    ensures r.Success? ==> fresh(r.value) && LoadSpec(path, fs, env) == Success(r.value.Value())
  {
    var cfg := new Config.Default();
    var p := path;
    if p == "" {
      p := "config.json";
    }
    if p in fs {
      match fs[p]
      case Unreadable =>
        return Failure(ReadFailed);
      case Malformed =>
        return Failure(ParseFailed);
      case Json(o) =>
        cfg.Unmarshal(o);
    }
    cfg.ApplyEnvOverrides(env);
    var invalid := Validate(cfg.Value());
    if invalid.Some? {
      return Failure(Invalid(invalid.value));
    }
    r := Success(cfg);
  }
}
