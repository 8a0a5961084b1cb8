/** The environment layer of the library variant: the coercion of `.env`
    values in `_init_environment`, and the `Environment` dataclass with its
    mutual-exclusion check (`Environment.__errors`). */
module EnvConfig {
  import opened Wrappers
  import opened Values
  import opened Strings
  import Config

  /** The `.env` file as `dotenv_values` returns it: each key with its string
      value, or `None` for a key written without a value. */
  type RawEnv = seq<(string, Option<string>)>

  predicate IsTrueText(s: string) { Lower(s) == "true" || s == "1" }

  predicate IsFalseText(s: string) { Lower(s) == "false" || s == "0" }

  /** The coercion of one `.env` value: `true`/`1` and `false`/`0` (letters in
      any case) become booleans, every other string stays a string, and a
      missing value stays `None`. */
  function CoerceEnvValue(v: Option<string>): (r: Value)
    ensures v.None? <==> r == Null
    ensures r == Bool(true) <==> v.Some? && IsTrueText(v.value)
    ensures r == Bool(false) <==> v.Some? && !IsTrueText(v.value) && IsFalseText(v.value)
    ensures r.Str? <==> v.Some? && !IsTrueText(v.value) && !IsFalseText(v.value)
    ensures r.Str? ==> r.s == v.value
  {
    match v
    case None => Null
    case Some(s) =>
      if IsTrueText(s) then Bool(true)
      else if IsFalseText(s) then Bool(false)
      else Str(s)
  }

  /** Each `.env` entry with its key lower-cased and its value coerced. */
  function Lowered(raw: RawEnv): (es: Entries)
    ensures |es| == |raw|
    ensures forall i | 0 <= i < |raw| :: es[i] == (Lower(raw[i].0), CoerceEnvValue(raw[i].1))
  {
    seq(|raw|, i requires 0 <= i < |raw| => (Lower(raw[i].0), CoerceEnvValue(raw[i].1)))
  }

  /** The loop of `_init_environment`: keys lower-cased, values coerced, a
      later key that lower-cases to the same name overwriting an earlier one. */
  function LowerKeys(raw: RawEnv): Entries
  {
    Update([], Lowered(raw))
  }

  lemma LowerIdempotent(s: string)
    ensures Lower(Lower(s)) == Lower(s)
  {
  }

  /** Every key of the lowered environment is lower-case and appears once, and
      there is one for each raw key's lower-cased spelling. */
  lemma LowerKeysKeys(raw: RawEnv)
    ensures NoDupKeys(LowerKeys(raw))
    ensures forall k :: k in Keys(LowerKeys(raw)) <==> exists i | 0 <= i < |raw| :: Lower(raw[i].0) == k
    ensures forall k | k in Keys(LowerKeys(raw)) :: Lower(k) == k
  {
    UpdateNoDup([], Lowered(raw));
    var es := Lowered(raw);
    forall k ensures k in Keys(es) <==> exists i | 0 <= i < |raw| :: Lower(raw[i].0) == k {
      if k in Keys(es) {
        var e :| e in es && e.0 == k;
        var i :| 0 <= i < |es| && es[i] == e;
      }
      if exists i | 0 <= i < |raw| :: Lower(raw[i].0) == k {
        var i :| 0 <= i < |raw| && Lower(raw[i].0) == k;
        assert es[i] in es;
      }
    }
    forall k | k in Keys(LowerKeys(raw)) ensures Lower(k) == k {
      var i :| 0 <= i < |raw| && Lower(raw[i].0) == k;
      LowerIdempotent(raw[i].0);
    }
  }

  /** A lowered key holds the coerced value of the LAST raw entry that
      lower-cases to it. */
  lemma LowerKeysLastWins(raw: RawEnv, i: nat)
    requires i < |raw|
    requires forall j | i < j < |raw| :: Lower(raw[j].0) != Lower(raw[i].0)
    ensures Lookup(LowerKeys(raw), Lower(raw[i].0)) == Some(CoerceEnvValue(raw[i].1))
  {
    var es := Lowered(raw);
    UpdateLookup([], es, Lower(raw[i].0));
    assert es[i] in es;
    LookupLastAt(es, i);
  }

  /** The dataclass `Environment`: defaults for every run, each field as the
      `.env` file gave it (Python does not check the annotated types). */
  datatype Environment = Environment(
    configPath: Value,
    databaseUrl: Value,
    tableName: Value,
    outputPath: Value,
    defaultRename: Value,
    onlyModel: Value,
    onlyForm: Value,
    classicSqlalchemy: Value,
    tab: Value,
    translateLabels: Value,
    labelOriginalLanguage: Value,
    logMode: Value,
    submit: Value)

  /** The dataclass's field names, in declaration order. */
  const FieldNames: seq<string> := [
    "config_path", "database_url", "table_name", "output_path", "default_rename",
    "only_model", "only_form", "classic_sqlalchemy", "tab", "translate_labels",
    "label_original_language", "log_mode", "submit"]

  predicate IsField(k: string) { k in FieldNames }

  /** `Environment(**d)` before `__post_init__`: each field from `d`, or its
      default when `d` lacks it. */
  function Populate(d: Entries): Environment
  {
    Environment(
      Get(d, "config_path", Null), Get(d, "database_url", Null), Get(d, "table_name", Null),
      Get(d, "output_path", Null), Get(d, "default_rename", Bool(false)),
      Get(d, "only_model", Bool(false)), Get(d, "only_form", Bool(false)),
      Get(d, "classic_sqlalchemy", Bool(false)), Get(d, "tab", Bool(false)),
      Get(d, "translate_labels", Null), Get(d, "label_original_language", Str("en")),
      Get(d, "log_mode", Bool(false)), Get(d, "submit", Null))
  }

  /** `Environment(**d)`: a key that names no field is a `TypeError`;
      `__errors` then refuses `only_model` and `only_form` both truthy with a
      `ValueError`; every other combination is accepted. */
  function MakeEnvironment(d: Entries): (r: Result<Environment>)
    ensures r.Err? && r.error.TypeError? <==> exists k | k in Keys(d) :: !IsField(k)
    ensures r.Err? && r.error.ValueError? <==>
      (forall k | k in Keys(d) :: IsField(k))
      && Truthy(Get(d, "only_model", Bool(false))) && Truthy(Get(d, "only_form", Bool(false)))
    ensures r.Ok? ==> r.value == Populate(d)
  {
    if exists k | k in Keys(d) :: !IsField(k) then
      Err(TypeError("Environment.__init__() got an unexpected keyword argument"))
    else
      var e := Populate(d);
      if Truthy(e.onlyModel) && Truthy(e.onlyForm) then
        Err(ValueError("only_model and only_form are mutually exclusive"))
      else Ok(e)
  }

  /** `_init_environment`: `env` is the parsed `.env` file, or `None` when the
      caller passed the `undefined` sentinel, which skips the file. */
  function InitEnvironment(env: Option<RawEnv>): (r: Result<Environment>)
    ensures env.None? ==> r == MakeEnvironment([])
    ensures env.Some? ==> r == MakeEnvironment(Config.FixArgsKeys(LowerKeys(env.value)))
  {
    match env
    case None => MakeEnvironment([])
    case Some(raw) => MakeEnvironment(Config.FixArgsKeys(LowerKeys(raw)))
  }

  /** The `.env` keys the dataclass accepts once lower-cased: its field
      names and the two legacy names that are renamed to fields. */
  predicate KnownEnvKey(k: string) {
    IsField(k) || k == Config.LegacyDatabase || k == Config.LegacyOutput
  }

  /** No value of `d` is a dict. */
  ghost predicate NoDictValues(d: Entries) {
    forall k | Lookup(d, k).Some? :: !Lookup(d, k).value.Dict?
  }

  /** No field of the environment is a dict. */
  predicate ScalarFields(e: Environment) {
    !e.configPath.Dict? && !e.databaseUrl.Dict? && !e.tableName.Dict? && !e.outputPath.Dict?
    && !e.defaultRename.Dict? && !e.onlyModel.Dict? && !e.onlyForm.Dict?
    && !e.classicSqlalchemy.Dict? && !e.tab.Dict? && !e.translateLabels.Dict?
    && !e.labelOriginalLanguage.Dict? && !e.logMode.Dict? && !e.submit.Dict?
  }

  /** The last entry under a key is an entry of the list. */
  lemma {:induction false} LookupLastIn(es: Entries, k: string)
    requires LookupLast(es, k).Some?
    ensures (k, LookupLast(es, k).value) in es
    decreases |es|
  {
    var p := es[..|es| - 1];
    assert es == p + [es[|es| - 1]];
    if es[|es| - 1].0 != k {
      LookupLastIn(p, k);
    }
  }

  /** A `.env` file holds text, booleans and `None`: never a dict, before or
      after the legacy keys are renamed. */
  lemma EnvFileHasNoDicts(raw: RawEnv)
    ensures NoDictValues(LowerKeys(raw))
    ensures NoDictValues(Config.FixArgsKeys(LowerKeys(raw)))
  {
    LowerKeysNoDicts(raw);
    RenamedNoDicts(LowerKeys(raw));
  }

  lemma LowerKeysNoDicts(raw: RawEnv)
    ensures NoDictValues(LowerKeys(raw))
  {
    var es := Lowered(raw);
    forall k | Lookup(LowerKeys(raw), k).Some?
      ensures !Lookup(LowerKeys(raw), k).value.Dict?
    {
      UpdateLookup([], es, k);
      LookupLastIn(es, k);
      var i :| 0 <= i < |es| && es[i] == (k, LookupLast(es, k).value);
      assert es[i].1 == CoerceEnvValue(raw[i].1);
    }
  }

  lemma RenamedNoDicts(d: Entries)
    requires NoDictValues(d)
    ensures NoDictValues(Config.FixArgsKeys(d))
  {
    var f := Config.FixArgsKeys(d);
    forall k | Lookup(f, k).Some?
      ensures !Lookup(f, k).value.Dict?
    {
      if k == "database_url" {
        assert Lookup(f, k) == Lookup(d, Config.LegacyDatabase) || Lookup(f, k) == Lookup(d, k);
      } else if k == "output_path" {
        assert Lookup(f, k) == Lookup(d, Config.LegacyOutput) || Lookup(f, k) == Lookup(d, k);
      } else if k == Config.LegacyDatabase || k == Config.LegacyOutput {
        assert false;
      } else {
        assert Lookup(f, k) == Lookup(d, k);
      }
    }
  }

  /** A field read from a dict without dict values, with a scalar default,
      is a scalar. */
  lemma GetNoDict(d: Entries, k: string, default: Value)
    requires NoDictValues(d) && !default.Dict?
    ensures !Get(d, k, default).Dict?
  {
    if Lookup(d, k).Some? {
      assert Get(d, k, default) == Lookup(d, k).value;
    }
  }

  /** An environment populated from a dict without dict values has only
      scalar fields. */
  lemma PopulateScalar(d: Entries)
    requires NoDictValues(d)
    ensures ScalarFields(Populate(d))
  {
    forall k | k in FieldNames
      ensures !Get(d, k, Null).Dict? && !Get(d, k, Bool(false)).Dict? && !Get(d, k, Str("en")).Dict?
    {
      GetNoDict(d, k, Null);
      GetNoDict(d, k, Bool(false));
      GetNoDict(d, k, Str("en"));
    }
  }

  /** Every environment `_init_environment` builds has only scalar fields:
      the defaults are scalars and a `.env` file holds no dicts. */
  lemma InitEnvironmentScalar(env: Option<RawEnv>)
    ensures InitEnvironment(env).Ok? ==> ScalarFields(InitEnvironment(env).value)
  {
    var d := if env.Some? then Config.FixArgsKeys(LowerKeys(env.value)) else [];
    if env.Some? {
      EnvFileHasNoDicts(env.value);
    }
    PopulateScalar(d);
  }

  /** A `.env` file whose keys all lower-case to known names, and whose last
      `only_model` and `only_form` entries (in any letter case) both hold
      true text, is refused with `ValueError`. */
  lemma EnvFileModeConflict(raw: RawEnv, i: nat, j: nat)
    requires forall m | 0 <= m < |raw| :: KnownEnvKey(Lower(raw[m].0))
    requires i < |raw| && Lower(raw[i].0) == "only_model"
    requires raw[i].1.Some? && IsTrueText(raw[i].1.value)
    requires forall m | i < m < |raw| :: Lower(raw[m].0) != "only_model"
    requires j < |raw| && Lower(raw[j].0) == "only_form"
    requires raw[j].1.Some? && IsTrueText(raw[j].1.value)
    requires forall m | j < m < |raw| :: Lower(raw[m].0) != "only_form"
    ensures InitEnvironment(Some(raw)).Err? && InitEnvironment(Some(raw)).error.ValueError?
  {
    var f := Config.FixArgsKeys(LowerKeys(raw));
    EnvKeysAreFields(raw);
    EnvFlagTrue(raw, i, "only_model");
    EnvFlagTrue(raw, j, "only_form");
    var r := MakeEnvironment(f);
    assert r.Err? && r.error.ValueError?;
  }

  /** A flag whose last `.env` entry holds true text is `True` after the
      lowering and the renaming. */
  lemma EnvFlagTrue(raw: RawEnv, i: nat, flag: string)
    requires flag == "only_model" || flag == "only_form"
    requires i < |raw| && Lower(raw[i].0) == flag
    requires raw[i].1.Some? && IsTrueText(raw[i].1.value)
    requires forall m | i < m < |raw| :: Lower(raw[m].0) != flag
    ensures Get(Config.FixArgsKeys(LowerKeys(raw)), flag, Bool(false)) == Bool(true)
  {
    LowerKeysLastWins(raw, i);
    assert Lookup(LowerKeys(raw), flag) == Some(Bool(true));
  }

  /** Known `.env` keys leave only field names after the renaming. */
  lemma EnvKeysAreFields(raw: RawEnv)
    requires forall m | 0 <= m < |raw| :: KnownEnvKey(Lower(raw[m].0))
    ensures forall k | k in Keys(Config.FixArgsKeys(LowerKeys(raw))) :: IsField(k)
  {
    var d := LowerKeys(raw);
    var f := Config.FixArgsKeys(d);
    LowerKeysKeys(raw);
    forall k | k in Keys(f) ensures IsField(k) {
      if k != "database_url" && k != "output_path" {
        assert k != Config.LegacyDatabase && k != Config.LegacyOutput;
        assert Lookup(d, k).Some?;
        var m :| 0 <= m < |raw| && Lower(raw[m].0) == k;
      }
    }
  }

  /** A legacy `database` key in the `.env` file (in any letter case) sets
      `database_url`: the last such entry's coerced value wins over a
      `database_url` entry. */
  lemma EnvFileLegacyDatabase(raw: RawEnv, i: nat)
    requires i < |raw| && Lower(raw[i].0) == Config.LegacyDatabase
    requires forall m | i < m < |raw| :: Lower(raw[m].0) != Config.LegacyDatabase
    ensures InitEnvironment(Some(raw)).Ok? ==>
      InitEnvironment(Some(raw)).value.databaseUrl == CoerceEnvValue(raw[i].1)
  {
    LowerKeysLastWins(raw, i);
    var d := LowerKeys(raw);
    assert Config.LegacyDatabase in Keys(d);
    assert Lookup(Config.FixArgsKeys(d), "database_url") == Some(CoerceEnvValue(raw[i].1));
  }

  /** With no `.env` entries the environment is the dataclass default. */
  lemma DefaultEnvironmentIsValid()
    ensures InitEnvironment(None) == Ok(Environment(Null, Null, Null, Null, Bool(false), Bool(false),
      Bool(false), Bool(false), Bool(false), Null, Str("en"), Bool(false), Null))
  {
  }
}
