/** The library variant, `db_model_generator/core.py`: an environment read
    from a `.env` file, a configuration built from environment defaults and an
    optional JSON file, call-time arguments layered on top, and
    `generate_file`. */
module Library {
  import opened Wrappers
  import opened Strings
  import opened Values
  import opened EnvConfig
  import Config
  import Naming
  import opened TypeMapping
  import opened Emission
  import opened Files

  /** The keyword arguments of the constructor, in declaration order; `Null`
      stands for an argument left at its `None` default. */
  datatype CallArgs = CallArgs(
    databaseUrl: Value,
    tableName: Value,
    defaultRename: Value,
    onlyModel: Value,
    onlyForm: Value,
    classicSqlalchemy: Value,
    tab: Value,
    translateLabels: Value,
    labelOriginalLanguage: Value,
    outputPath: Value,
    logMode: Value,
    submit: Value)

  /** The same arguments as the dict handed to `__format_kwargs`. */
  function Kwargs(a: CallArgs): (kw: Entries)
    ensures NoDupKeys(kw)
    ensures |kw| == 12
  {
    var kw := [
      ("database_url", a.databaseUrl), ("table_name", a.tableName),
      ("default_rename", a.defaultRename), ("only_model", a.onlyModel),
      ("only_form", a.onlyForm), ("classic_sqlalchemy", a.classicSqlalchemy),
      ("tab", a.tab), ("translate_labels", a.translateLabels),
      ("label_original_language", a.labelOriginalLanguage),
      ("output_path", a.outputPath), ("log_mode", a.logMode), ("submit", a.submit)];
    assert forall i, j | 0 <= i < j < |kw| :: kw[i].0 != kw[j].0 by {
      assert kw[0].0[0] == 'd' && kw[1].0[0] == 't' && kw[2].0[0] == 'd';
      assert kw[3].0[..6] == "only_m" && kw[4].0[..6] == "only_f";
      assert kw[5].0[0] == 'c' && kw[6].0 == "tab" && kw[7].0[..2] == "tr";
      assert kw[8].0[0] == 'l' && kw[9].0[0] == 'o' && kw[10].0[..2] == "lo" && kw[11].0[0] == 's';
      assert |kw[8].0| != |kw[10].0| && |kw[0].0| != |kw[2].0| && |kw[1].0| != |kw[6].0|;
      assert |kw[3].0| != |kw[9].0| && |kw[4].0| != |kw[9].0|;
    }
    kw
  }

  /** Each parameter name of the call maps to its argument. */
  lemma KwargsLookup(a: CallArgs, i: nat)
    requires i < 12
    ensures Lookup(Kwargs(a), Kwargs(a)[i].0) == Some(Kwargs(a)[i].1)
  {
    Config.UniqueLookup(Kwargs(a), i);
  }

  /** The environment read as a constructor call: every argument given. */
  function EnvCall(e: Environment): CallArgs {
    CallArgs(e.databaseUrl, e.tableName, e.defaultRename, e.onlyModel, e.onlyForm,
             e.classicSqlalchemy, e.tab, e.translateLabels, e.labelOriginalLanguage,
             e.outputPath, e.logMode, e.submit)
  }

  /** The `arguments` section of the built-in configuration, filled from the
      environment: the constructor's keyword arguments, name for name and in
      order, with the environment's values. */
  function EnvArguments(e: Environment): (r: Entries)
    ensures r == Kwargs(EnvCall(e))
    ensures NoDupKeys(r)
    ensures Lookup(r, "classic_sqlalchemy") == Some(e.classicSqlalchemy)
  {
    KwargsLookup(EnvCall(e), 5);
    [("database_url", e.databaseUrl), ("table_name", e.tableName),
     ("default_rename", e.defaultRename), ("only_model", e.onlyModel),
     ("only_form", e.onlyForm), ("classic_sqlalchemy", e.classicSqlalchemy),
     ("tab", e.tab), ("translate_labels", e.translateLabels),
     ("label_original_language", e.labelOriginalLanguage),
     ("output_path", e.outputPath), ("log_mode", e.logMode), ("submit", e.submit)]
  }

  /** `json['arguments']['classic_sqlalchemy']` with a missing key at either
      level falling back to `fallback`; a level that is not a dict raises. */
  function FlagIn(json: Value, fallback: Value): (r: Result<Value>)
    ensures !json.Dict? ==> r.Err?
    ensures json.Dict? && "arguments" !in Keys(json.entries) ==> r == Ok(fallback)
    ensures json.Dict? && Lookup(json.entries, "arguments").Some? ==>
      var a := Lookup(json.entries, "arguments").value;
      (!a.Dict? ==> r.Err?)
      && (a.Dict? && "classic_sqlalchemy" !in Keys(a.entries) ==> r == Ok(fallback))
      && (a.Dict? && "classic_sqlalchemy" in Keys(a.entries) ==>
            r == Ok(Lookup(a.entries, "classic_sqlalchemy").value))
  {
    match Index(json, "arguments")
    case Err(KeyError(_)) => Ok(fallback)
    case Err(e) => Err(e)
    case Ok(a) =>
      match Index(a, "classic_sqlalchemy")
      case Err(KeyError(_)) => Ok(fallback)
      case Err(e) => Err(e)
      case Ok(v) => Ok(v)
  }

  /** The configuration file named by `configPath`, read once: `None` when
      the path is falsy or does not exist; a path that is not text or a file
      that is not JSON raises. `__get_classic_sqlalchemy` and `_load_config`
      both read the same file, so the first read raises whatever the second
      would. */
  function ConfigFile(configPath: Value, fs: FileSystem): (r: Result<Option<Value>>)
    ensures !Truthy(configPath) ==> r == Ok(None)
    ensures Truthy(configPath) && configPath.Str? ==>
      r == if configPath.s in fs.configs then Ok(Some(fs.configs[configPath.s]))
           else if configPath.s in fs.files then Err(ValueError("Expecting value"))
           else Ok(None)
    ensures Truthy(configPath) && !configPath.Str? ==> r.Err? && r.error.TypeError?
  {
    if !Truthy(configPath) then Ok(None)
    else
      var path :- PathText(configPath);
      if !Exists(fs, path) then Ok(None)
      else
        var json :- ReadJson(fs, path);
        Ok(Some(json))
  }

  /** `__fix_args_keys` applied to whatever the file's `arguments` holds: a
      dict has its legacy keys renamed; a list survives `.copy()` and the
      `in` tests, and is kept as it is unless it lists a legacy name, whose
      lookup by string raises; any other value has no `.copy()`. */
  function FixArguments(a: Value): (r: Result<Value>)
    ensures a.Dict? ==> r == Ok(Dict(Config.FixArgsKeys(a.entries)))
    ensures a.List? ==>
      (r.Ok? <==> Str(Config.LegacyDatabase) !in a.items && Str(Config.LegacyOutput) !in a.items)
    ensures a.List? && r.Ok? ==> r.value == a
    ensures !a.Dict? && !a.List? ==> r.Err? && r.error.AttributeError?
  {
    match a
    case Dict(es) => Ok(Dict(Config.FixArgsKeys(es)))
    case List(xs) =>
      if Str(Config.LegacyDatabase) in xs || Str(Config.LegacyOutput) in xs then
        Err(TypeError("list indices must be integers or slices, not str"))
      else Ok(a)
    case _ => Err(AttributeError("object has no attribute 'copy'"))
  }

  /** The renaming of the configuration file's `arguments` before the merge:
      the user file must be a dict (a JSON array or scalar has no `.get`);
      its `arguments` (default empty) is replaced by the renamed copy, and
      every other entry is kept. */
  function FixUserArguments(user: Value): (r: Result<Entries>)
    ensures r.Ok? <==> user.Dict? && FixArguments(Get(user.entries, "arguments", Dict([]))).Ok?
    ensures !user.Dict? ==> r.Err? && r.error.AttributeError?
    ensures r.Ok? ==> Keys(r.value) == Keys(user.entries) + {"arguments"}
    ensures r.Ok? ==> forall k | k != "arguments" :: Lookup(r.value, k) == Lookup(user.entries, k)
    ensures r.Ok? ==> Lookup(r.value, "arguments")
                      == Some(FixArguments(Get(user.entries, "arguments", Dict([]))).value)
  {
    if !user.Dict? then Err(AttributeError("object has no attribute 'get'"))
    else
      match FixArguments(Get(user.entries, "arguments", Dict([])))
      case Err(err) => Err(err)
      case Ok(fixed) =>
        SetLookupAll(user.entries, "arguments", fixed);
        Ok(Set(user.entries, "arguments", fixed))
  }

  /** The built-in configuration with the classic or the Flask-SQLAlchemy
      model section. */
  function BaseConfig(e: Environment, classic: bool): (r: Entries)
    ensures NoDupKeys(r) && Keys(r) == {"model", "form", "arguments"}
    ensures Lookup(r, "arguments") == Some(Dict(EnvArguments(e)))
    ensures Lookup(r, "model")
      == Some(if classic then Config.ClassicModelSection() else Config.FlaskModelSection())
  {
    Config.DefaultConfig(if classic then Config.ClassicModelSection() else Config.FlaskModelSection(),
                         Config.FormSection(), EnvArguments(e))
  }

  /** `_load_config` once the configuration file has been read: the built-in
      configuration, whose model section is the classic one when the flag
      from the file or the environment is truthy, merged with the file when
      there is one. */
  function LoadConfigFrom(e: Environment, file: Option<Value>): (r: Result<Entries>)
    ensures r.Ok? ==> {"model", "form", "arguments"} <= Keys(r.value)
    ensures file.None? ==> r == Ok(BaseConfig(e, Truthy(e.classicSqlalchemy)))
    ensures file.Some? ==>
      (r.Ok? <==> FlagIn(file.value, e.classicSqlalchemy).Ok? && FixUserArguments(file.value).Ok?)
  {
    match file
    case None => Ok(BaseConfig(e, Truthy(e.classicSqlalchemy)))
    case Some(user) =>
      var flag :- FlagIn(user, e.classicSqlalchemy);
      var fixed :- FixUserArguments(user);
      var base := BaseConfig(e, Truthy(flag));
      assert Keys(base) == {"model", "form", "arguments"};
      Ok(Config.Merge(base, fixed))
  }

  /** `_load_config`: read the configuration file named by the path (if any)
      and layer it over the built-in configuration. */
  function LoadConfig(e: Environment, configPath: Value, fs: FileSystem): (r: Result<Entries>)
    ensures r.Ok? ==> {"model", "form", "arguments"} <= Keys(r.value)
    ensures r.Ok? <==> ConfigFile(configPath, fs).Ok? && LoadConfigFrom(e, ConfigFile(configPath, fs).value).Ok?
  {
    var file :- ConfigFile(configPath, fs);
    LoadConfigFrom(e, file)
  }

  /** A configuration file whose flag and arguments are readable is merged
      over the built-in configuration that flag selects. */
  lemma LoadedFromFile(e: Environment, user: Value)
    requires FlagIn(user, e.classicSqlalchemy).Ok? && FixUserArguments(user).Ok?
    ensures LoadConfigFrom(e, Some(user))
      == Ok(Config.Merge(BaseConfig(e, Truthy(FlagIn(user, e.classicSqlalchemy).value)),
                         FixUserArguments(user).value))
  {
  }

  /** A configuration file that is a dict whose `arguments` (if present) is
      a dict yields both the flag and the renamed arguments. */
  lemma ReadableFile(e: Environment, user: Value)
    requires user.Dict? && NoDupKeys(user.entries)
    requires Get(user.entries, "arguments", Dict([])).Dict?
    ensures FlagIn(user, e.classicSqlalchemy).Ok? && FixUserArguments(user).Ok?
  {
    assert FixUserArguments(user).Ok?;
    if "arguments" in Keys(user.entries) {
      assert Lookup(user.entries, "arguments") == Some(Get(user.entries, "arguments", Dict([])));
    }
  }

  /** Merging a file over a built-in configuration merges the two
      `arguments` sections. */
  lemma MergedArguments(e: Environment, classic: bool, fixed: Entries, fileArgs: Entries)
    requires NoDupKeys(fixed) && Lookup(fixed, "arguments") == Some(Dict(fileArgs))
    ensures Lookup(Config.Merge(BaseConfig(e, classic), fixed), "arguments")
      == Some(Dict(Config.Merge(EnvArguments(e), fileArgs)))
  {
    Config.MergeLookup(BaseConfig(e, classic), fixed, "arguments");
  }

  /** The renamed configuration file keeps unique keys and holds the renamed
      `arguments`. */
  lemma FixedFile(user: Value)
    requires user.Dict? && NoDupKeys(user.entries)
    requires FixUserArguments(user).Ok? && Get(user.entries, "arguments", Dict([])).Dict?
    ensures NoDupKeys(FixUserArguments(user).value)
    ensures Lookup(FixUserArguments(user).value, "arguments")
      == Some(Dict(Config.FixArgsKeys(Get(user.entries, "arguments", Dict([])).entries)))
  {
    var fileArgs := Config.FixArgsKeys(Get(user.entries, "arguments", Dict([])).entries);
    assert FixUserArguments(user).value == Set(user.entries, "arguments", Dict(fileArgs));
    SetNoDup(user.entries, "arguments", Dict(fileArgs));
  }

  /** With a configuration file, the arguments section is the environment's
      merged with the file's renamed `arguments`. */
  lemma LoadedArguments(e: Environment, user: Value)
    requires user.Dict? && NoDupKeys(user.entries)
    requires Get(user.entries, "arguments", Dict([])).Dict?
    ensures LoadConfigFrom(e, Some(user)).Ok?
    ensures Lookup(LoadConfigFrom(e, Some(user)).value, "arguments")
      == Some(Dict(Config.Merge(EnvArguments(e),
                   Config.FixArgsKeys(Get(user.entries, "arguments", Dict([])).entries))))
  {
    ReadableFile(e, user);
    FixedFile(user);
    LoadedFromFile(e, user);
    MergedArguments(e, Truthy(FlagIn(user, e.classicSqlalchemy).value), FixUserArguments(user).value,
                    Config.FixArgsKeys(Get(user.entries, "arguments", Dict([])).entries));
  }

  /** The layering of the arguments section: a key the (renamed) `arguments`
      of the configuration file sets takes the file's value, any other key
      keeps the environment's. */
  lemma ArgumentsPrecedence(e: Environment, user: Value, k: string)
    requires user.Dict? && NoDupKeys(user.entries)
    requires Get(user.entries, "arguments", Dict([])).Dict?
    requires NoDupKeys(Get(user.entries, "arguments", Dict([])).entries)
    requires forall i | 0 <= i < |EnvArguments(e)| :: !EnvArguments(e)[i].1.Dict?
    ensures
      var fileArgs := Config.FixArgsKeys(Get(user.entries, "arguments", Dict([])).entries);
      Lookup(LoadConfigFrom(e, Some(user)).value, "arguments")
        == Some(Dict(Config.Merge(EnvArguments(e), fileArgs)))
      && Lookup(Config.Merge(EnvArguments(e), fileArgs), k)
        == if k in Keys(fileArgs) then Lookup(fileArgs, k) else Lookup(EnvArguments(e), k)
  {
    LoadedArguments(e, user);
    var fileArgs := Config.FixArgsKeys(Get(user.entries, "arguments", Dict([])).entries);
    Config.MergeOverScalars(EnvArguments(e), fileArgs, k);
  }

  /** The arguments built from any environment `_init_environment` accepts
      hold no dict, so the layering of `ArgumentsPrecedence` applies to every
      such environment. */
  lemma EnvArgumentsScalar(env: Option<RawEnv>)
    ensures InitEnvironment(env).Ok? ==>
      var args := EnvArguments(InitEnvironment(env).value);
      forall i | 0 <= i < |args| :: !args[i].1.Dict?
  {
    InitEnvironmentScalar(env);
    if InitEnvironment(env).Ok? {
      ScalarArguments(InitEnvironment(env).value);
    }
  }

  lemma ScalarArguments(e: Environment)
    requires ScalarFields(e)
    ensures forall i | 0 <= i < |EnvArguments(e)| :: !EnvArguments(e)[i].1.Dict?
  {
    ScalarKwargs(EnvCall(e));
  }

  lemma ScalarKwargs(a: CallArgs)
    requires !a.databaseUrl.Dict? && !a.tableName.Dict? && !a.defaultRename.Dict?
    requires !a.onlyModel.Dict? && !a.onlyForm.Dict? && !a.classicSqlalchemy.Dict?
    requires !a.tab.Dict? && !a.translateLabels.Dict? && !a.labelOriginalLanguage.Dict?
    requires !a.outputPath.Dict? && !a.logMode.Dict? && !a.submit.Dict?
    ensures forall i | 0 <= i < |Kwargs(a)| :: !Kwargs(a)[i].1.Dict?
  {
    var kw := Kwargs(a);
    assert forall p | p in kw :: !p.1.Dict?;
    assert forall i | 0 <= i < |kw| :: kw[i] in kw;
  }

  /** The validated arguments `_init_main_args` stores on the generator. */
  datatype Settings = Settings(
    databaseUrl: string,
    tableName: Value,
    defaultRename: Value,
    onlyModel: Value,
    onlyForm: Value,
    classicSqlalchemy: Value,
    tab: Value,
    translateLabels: Value,
    labelOriginalLanguage: Value,
    outputPath: string,
    logMode: Value,
    submit: Value)

  const SqlitePrefix := "sqlite:///"

  /** `__database_url`: required (truthy); a `sqlite:///` URL must name an
      existing file once every `sqlite:///` is deleted from it. */
  function DatabaseUrl(url: Value, fs: FileSystem): (r: Result<string>)
    ensures !Truthy(url) ==> r == Err(ValueError("database_url is required"))
    ensures r.Ok? ==> url == Str(r.value) && r.value != ""
    ensures url.Str? && url.s != "" && !StartsWith(url.s, SqlitePrefix) ==> r == Ok(url.s)
    ensures url.Str? && StartsWith(url.s, SqlitePrefix) ==>
      (r.Ok? <==> Exists(fs, RemoveAll(url.s, SqlitePrefix)))
  {
    if !Truthy(url) then Err(ValueError("database_url is required"))
    else if !url.Str? then Err(AttributeError("object has no attribute 'startswith'"))
    else if StartsWith(url.s, SqlitePrefix) && !Exists(fs, RemoveAll(url.s, SqlitePrefix)) then
      Err(FileNotFoundError("SQLite database does not exist"))
    else Ok(url.s)
  }

  /** A SQLite URL whose path does not repeat the scheme is accepted exactly
      when that path exists. */
  lemma SqliteUrlChecksPath(path: string, fs: FileSystem)
    requires !Contains(path, SqlitePrefix)
    ensures DatabaseUrl(Str(SqlitePrefix + path), fs).Ok? <==> Exists(fs, path)
  {
    RemoveAllPrefix(SqlitePrefix, path);
    RemoveAllAbsent(path, SqlitePrefix);
    assert (SqlitePrefix + path)[..|SqlitePrefix|] == SqlitePrefix;
  }

  /** `__table_name`: required (truthy). */
  function TableName(v: Value): (r: Result<Value>)
    ensures r.Ok? <==> Truthy(v)
    ensures r.Ok? ==> r.value == v
    ensures r.Err? ==> r.error.ValueError?
  {
    if Truthy(v) then Ok(v) else Err(ValueError("table_name is required"))
  }

  /** `__output_path`: an explicit path is kept; otherwise the table name with
      the mode suffix and `.py`. */
  function OutputPath(path: Value, onlyModel: Value, onlyForm: Value, table: Value): (r: Result<string>)
    ensures Truthy(path) && path.Str? ==> r == Ok(path.s)
    ensures !Truthy(path) && table.Str? ==>
      r.Ok? && StartsWith(r.value, table.s)
      && r.value[|table.s|..] == (if Truthy(onlyModel) then "_model.py"
                                  else if Truthy(onlyForm) then "_form.py" else ".py")
    ensures r.Ok? ==> r.value != ""
  {
    if Truthy(path) then PathText(path)
    else if table.Str? then Ok(Naming.DefaultOutputName(table.s, Truthy(onlyModel), Truthy(onlyForm)))
    else Err(TypeError("can only concatenate str"))
  }

  /** The `arguments` section of a configuration; anything but a dict cannot
      be assigned to or read by key. */
  function ArgumentsOf(config: Entries): (r: Result<Entries>)
    ensures r.Ok? <==> Lookup(config, "arguments").Some? && Lookup(config, "arguments").value.Dict?
    ensures r.Ok? ==> Lookup(config, "arguments") == Some(Dict(r.value))
  {
    var a :- Index(Dict(config), "arguments");
    if a.Dict? then Ok(a.entries) else Err(TypeError("arguments is not a mapping"))
  }

  /** `args[key]` on the arguments dict: its value, or `KeyError`. */
  function Arg(args: Entries, k: string): (r: Result<Value>)
    ensures r.Ok? <==> k in Keys(args)
    ensures r.Ok? ==> Lookup(args, k) == Some(r.value)
  {
    match Lookup(args, k)
    case Some(v) => Ok(v)
    case None => Err(KeyError(k))
  }

  /** The reads and checks of `_init_main_args` on the resolved arguments:
      the URL, the table name and the output path are validated, the other
      settings are taken as they are. */
  function ReadSettings(args: Entries, fs: FileSystem): (r: Result<Settings>)
    ensures r.Ok? <==> Accepted(args, fs)
    ensures r.Ok? ==>
      Lookup(args, "table_name") == Some(r.value.tableName)
      && Lookup(args, "only_model") == Some(r.value.onlyModel)
      && Lookup(args, "only_form") == Some(r.value.onlyForm)
      && Lookup(args, "classic_sqlalchemy") == Some(r.value.classicSqlalchemy)
      && Lookup(args, "tab") == Some(r.value.tab)
      && Lookup(args, "submit") == Some(r.value.submit)
      && Lookup(args, "database_url") == Some(Str(r.value.databaseUrl))
      && Truthy(r.value.tableName)
    ensures r.Ok? ==>
      Lookup(args, "default_rename") == Some(r.value.defaultRename)
      && Lookup(args, "translate_labels") == Some(r.value.translateLabels)
      && Lookup(args, "label_original_language") == Some(r.value.labelOriginalLanguage)
      && Lookup(args, "log_mode") == Some(r.value.logMode)
    ensures r.Ok? ==>
      Lookup(args, "output_path").Some?
      && OutputPath(Lookup(args, "output_path").value, r.value.onlyModel, r.value.onlyForm,
                    r.value.tableName) == Ok(r.value.outputPath)
  {
    var url :- Arg(args, "database_url");
    var databaseUrl :- DatabaseUrl(url, fs);
    var table :- Arg(args, "table_name");
    var tableName :- TableName(table);
    var defaultRename :- Arg(args, "default_rename");
    var onlyModel :- Arg(args, "only_model");
    var onlyForm :- Arg(args, "only_form");
    var classic :- Arg(args, "classic_sqlalchemy");
    var tab :- Arg(args, "tab");
    var translateLabels :- Arg(args, "translate_labels");
    var language :- Arg(args, "label_original_language");
    var output :- Arg(args, "output_path");
    var outputPath :- OutputPath(output, onlyModel, onlyForm, tableName);
    var logMode :- Arg(args, "log_mode");
    var submit :- Arg(args, "submit");
    Ok(Settings(databaseUrl, tableName, defaultRename, onlyModel, onlyForm, classic, tab,
                translateLabels, language, outputPath, logMode, submit))
  }

  /** `_init_main_args`: truthy keyword arguments overwrite the arguments
      section (which the configuration shares), then each setting is read
      back and the URL, table name and output path are checked. */
  function InitMainArgs(config: Entries, kwargs: Entries, fs: FileSystem)
    : (r: Result<(Entries, Settings)>)
    ensures r.Ok? <==> ArgumentsOf(config).Ok? && Accepted(Config.OverrideTruthy(ArgumentsOf(config).value, kwargs), fs)
    ensures r.Ok? ==>
      r.value.0 == Set(config, "arguments", Dict(Config.OverrideTruthy(ArgumentsOf(config).value, kwargs)))
    ensures r.Ok? ==> r.value.1 == ReadSettings(Config.OverrideTruthy(ArgumentsOf(config).value, kwargs), fs).value
  {
    var current :- ArgumentsOf(config);
    var args := Config.OverrideTruthy(current, kwargs);
    var settings :- ReadSettings(args, fs);
    Ok((Set(config, "arguments", Dict(args)), settings))
  }

  /** Every argument `_init_main_args` reads is present. */
  predicate HasArguments(args: Entries) {
    var ks := Keys(args);
    "database_url" in ks && "table_name" in ks && "default_rename" in ks && "only_model" in ks
    && "only_form" in ks && "classic_sqlalchemy" in ks && "tab" in ks && "translate_labels" in ks
    && "label_original_language" in ks && "output_path" in ks && "log_mode" in ks && "submit" in ks
  }

  /** When `_init_main_args` accepts a resolved arguments section: every
      argument is present, the URL and table name pass their checks and the
      output path can be formed. Nothing relates `only_model` to `only_form`. */
  predicate Accepted(args: Entries, fs: FileSystem) {
    HasArguments(args)
    && DatabaseUrl(Get(args, "database_url", Null), fs).Ok?
    && Truthy(Get(args, "table_name", Null))
    && OutputPath(Get(args, "output_path", Null), Get(args, "only_model", Null),
                  Get(args, "only_form", Null), Get(args, "table_name", Null)).Ok?
  }

  /** The generator after construction. */
  datatype Generator = Generator(environment: Environment, config: Entries, settings: Settings)

  /** `ModelFormGenerator(...)`: the environment, the configuration (from the
      explicit path, else the environment's), then the call-time arguments
      with `None` dropped. */
  function New(env: Option<RawEnv>, configPath: Value, call: CallArgs, fs: FileSystem)
    : (r: Result<Generator>)
    ensures r.Ok? ==> InitEnvironment(env).Ok? && r.value.environment == InitEnvironment(env).value
  {
    var environment :- InitEnvironment(env);
    var path := if Truthy(configPath) then configPath else environment.configPath;
    var config :- LoadConfig(environment, path, fs);
    var init :- InitMainArgs(config, Config.DropNone(Kwargs(call)), fs);
    Ok(Generator(environment, init.0, init.1))
  }

  /** After construction a setting holds the call-time value when that value
      is truthy and the configured one otherwise: an explicit `False`, `0` or
      `''` never overrides. */
  lemma {:induction false} CallTimePrecedence(config: Entries, call: CallArgs, fs: FileSystem, k: string)
    requires ArgumentsOf(config).Ok?
    ensures
      var kw := Kwargs(call);
      var args := Config.OverrideTruthy(ArgumentsOf(config).value, Config.DropNone(kw));
      Lookup(args, k) == if Lookup(kw, k).Some? && Truthy(Lookup(kw, k).value) then Lookup(kw, k)
                         else Lookup(ArgumentsOf(config).value, k)
  {
    var kw := Kwargs(call);
    var dropped := Config.DropNone(kw);
    Config.OverrideTruthyLookup(ArgumentsOf(config).value, dropped, k);
    if Lookup(kw, k).Some? && Lookup(kw, k).value != Null {
      assert (k, Lookup(kw, k).value) in dropped;
    }
    if Lookup(dropped, k).Some? {
      assert (k, Lookup(dropped, k).value) in kw;
      Config.LookupEntry(kw, k, Lookup(dropped, k).value);
    }
    if Lookup(kw, k).Some? && Lookup(kw, k).value != Null {
      Config.LookupEntry(dropped, k, Lookup(kw, k).value);
    }
  }

  /** `only_model` and `only_form` both set in the arguments section (from
      the configuration file, or by truthy call-time arguments) are not
      refused: setting the two flags, to any values, never turns an accepted
      arguments section into a rejected one. Only the environment's
      `__errors` check enforces their exclusion. */
  lemma ModeConflictAccepted(args: Entries, fs: FileSystem, onlyModel: Value, onlyForm: Value)
    requires Accepted(args, fs)
    ensures Accepted(Set(Set(args, "only_model", onlyModel), "only_form", onlyForm), fs)
  {
    var withModel := Set(args, "only_model", onlyModel);
    var r := Set(withModel, "only_form", onlyForm);
    assert HasArguments(r);
    forall k | k in {"database_url", "table_name", "output_path"}
      ensures Get(r, k, Null) == Get(args, k, Null)
    {
      SetLookup(args, "only_model", onlyModel, k);
      SetLookup(withModel, "only_form", onlyForm, k);
    }
  }

  /** `generate_file`: class names, the blocks the mode asks for, and the
      text written to the output path (which is always set in this variant).
      `service` is the translation service and `tab4` the external
      re-indenter, applied when `tab` is falsy. */
  function GenerateFile(g: Generator, cols: seq<Column>, service: string -> Option<string>,
                        tab4: string -> string): (r: Result<(string, string, string)>)
    ensures r.Ok? ==> (r.value.0 == "" <==> Truthy(g.settings.onlyForm))
    ensures r.Ok? ==> (r.value.1 == "" <==> Truthy(g.settings.onlyModel))
    ensures r.Ok? ==> r.value.2 == FileContent(r.value.0, r.value.1, !Truthy(g.settings.tab), tab4)
    ensures Truthy(g.settings.onlyModel) && Truthy(g.settings.onlyForm) ==> r == Ok(("", "", FileHeader))
    ensures !Truthy(g.settings.onlyForm) && !Truthy(g.settings.defaultRename) && !g.settings.tableName.Str?
      ==> r.Err? && r.error.AttributeError?
    ensures var s := g.settings;
            var model := LibraryModelBlock(g, cols);
            var form := LibraryFormBlock(g, cols, service);
            (r.Ok? <==> (Truthy(s.onlyForm) || model.Ok?) && (Truthy(s.onlyModel) || form.Ok?))
            && (r.Ok? && !Truthy(s.onlyForm) ==> r.value.0 == model.value)
            && (r.Ok? && !Truthy(s.onlyModel) ==> r.value.1 == form.value)
  {
    var s := g.settings;
    var blocks :- SelectBlocks(Truthy(s.onlyModel), Truthy(s.onlyForm),
                               LibraryModelBlock(g, cols), LibraryFormBlock(g, cols, service));
    Ok((blocks.0, blocks.1, FileContent(blocks.0, blocks.1, !Truthy(s.tab), tab4)))
  }

  /** What reaches the file under each class-name choice: with
      `default_rename` the written model and form are generated under the
      generic names `Model` and `Form`; otherwise under the CamelCase table
      name (followed by `Form` for the form). */
  lemma GeneratedClassNames(g: Generator, cols: seq<Column>, service: string -> Option<string>,
                            tab4: string -> string)
    ensures var r := GenerateFile(g, cols, service, tab4);
            var s := g.settings;
            var rename := Truthy(s.defaultRename);
            (r.Ok? && !Truthy(s.onlyForm) && s.tableName.Str? ==>
               Ok(r.value.0) == ModelCode(Library, if rename then "Model" else Naming.CamelCase(s.tableName.s),
                                          s.tableName.s, g.config, cols, Truthy(s.classicSqlalchemy)))
            && (r.Ok? && !Truthy(s.onlyModel) && (rename || s.tableName.Str?) ==>
               Ok(r.value.1) == FormCode(Library, if rename then "Form" else Naming.CamelCase(s.tableName.s) + "Form",
                                         g.config, cols, s.submit,
                                         Translator(Truthy(s.translateLabels), service)))
  {
    var s := g.settings;
    if s.tableName.Str? {
      ModelBlockOfText(Library, Truthy(s.defaultRename), s.tableName.s, g.config, cols,
                       Truthy(s.classicSqlalchemy));
    }
  }

  /** The model block `generate_file` asks `generate_model` for, with the
      generator's settings. */
  function LibraryModelBlock(g: Generator, cols: seq<Column>): Result<string> {
    var s := g.settings;
    ModelBlock(Library, Truthy(s.defaultRename), s.tableName, g.config, cols, Truthy(s.classicSqlalchemy))
  }

  /** The form block `generate_file` asks `generate_form` for, with the
      generator's settings and the translation service. */
  function LibraryFormBlock(g: Generator, cols: seq<Column>, service: string -> Option<string>)
    : Result<string>
  {
    var s := g.settings;
    FormBlock(Library, Truthy(s.defaultRename), s.tableName, g.config, cols, s.submit,
              Translator(Truthy(s.translateLabels), service))
  }
}
