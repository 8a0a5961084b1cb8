/** The console variant, `db_model_generator/generator.py`: keyword arguments
    filtered through an allow-list, a configuration merged from an optional
    JSON file, `generate_file` with the mode flags passed explicitly, and the
    `generate` helper with its database URL and output name normalisation. */
module Console {
  import opened Wrappers
  import opened Strings
  import opened Values
  import Config
  import Naming
  import opened TypeMapping
  import opened Emission
  import opened Files

  /** The keyword arguments `_init_main_args` applies. */
  const AllowedArgs: seq<string> := [
    "database_url", "table_name", "default_rename", "only_model", "only_form",
    "classic_sqlalchemy", "tab", "translate_labels", "label_original_language"]

  /** The attributes `_init_main_args` resets before applying the keyword
      arguments. */
  const ResetAttributes: Entries := [
    ("database_url", Null), ("table_name", Null), ("classic_sqlalchemy", Bool(false)),
    ("translate_labels", Null), ("label_original_language", Str("en"))]

  predicate Allowed(k: string) { k in AllowedArgs }

  /** The reset names allowed arguments only, each once; it leaves both
      required arguments unset and the source language English. */
  lemma ResetAttributesShape()
    ensures NoDupKeys(ResetAttributes)
    ensures forall i | 0 <= i < |ResetAttributes| :: Allowed(ResetAttributes[i].0)
    ensures Lookup(ResetAttributes, "database_url") == Some(Null)
    ensures Lookup(ResetAttributes, "table_name") == Some(Null)
    ensures Lookup(ResetAttributes, "label_original_language") == Some(Str("en"))
  {
  }

  /** The keyword arguments that are applied: allowed names with a value
      other than `None`, in call order. */
  function Applicable(kwargs: Entries): (r: Entries)
    ensures forall e :: e in r <==> e in kwargs && Allowed(e.0) && e.1 != Null
    ensures Keys(r) <= Keys(kwargs)
    ensures NoDupKeys(kwargs) ==> NoDupKeys(r)
  {
    if |kwargs| == 0 then []
    else
      KeysCons(kwargs);
      NoDupKeysCons(kwargs);
      var rest := Applicable(kwargs[1..]);
      if Allowed(kwargs[0].0) && kwargs[0].1 != Null then
        var r := [kwargs[0]] + rest;
        KeysCons(r);
        NoDupKeysCons(r);
        assert r[1..] == rest;
        r
      else rest
  }

  /** The attributes after the reset and the `setattr` loop. */
  function Attributes(kwargs: Entries): Entries {
    Update(ResetAttributes, Applicable(kwargs))
  }

  /** An applied keyword argument sets its attribute; every other attribute
      keeps its reset value (absent for names the reset does not cover). */
  lemma {:induction false} AttributesLookup(kwargs: Entries, k: string)
    requires NoDupKeys(kwargs)
    ensures Lookup(Attributes(kwargs), k)
      == if Allowed(k) && Lookup(kwargs, k).Some? && Lookup(kwargs, k).value != Null
         then Lookup(kwargs, k) else Lookup(ResetAttributes, k)
  {
    var es := Applicable(kwargs);
    UpdateLookup(ResetAttributes, es, k);
    LookupLastUnique(es, k);
    if Lookup(es, k).Some? {
      assert (k, Lookup(es, k).value) in es;
      Config.LookupEntry(kwargs, k, Lookup(es, k).value);
    }
    if Allowed(k) && Lookup(kwargs, k).Some? && Lookup(kwargs, k).value != Null {
      assert (k, Lookup(kwargs, k).value) in es;
      Config.LookupEntry(es, k, Lookup(kwargs, k).value);
    }
  }

  /** `_init_main_args`: reset, apply the allowed non-`None` keyword
      arguments, then require `database_url` and `table_name`, in that
      order. */
  function InitMainArgs(kwargs: Entries): (r: Result<Entries>)
    ensures r.Ok? <==> Get(Attributes(kwargs), "database_url", Null) != Null
                       && Get(Attributes(kwargs), "table_name", Null) != Null
    ensures r.Ok? ==> r.value == Attributes(kwargs)
    ensures Get(Attributes(kwargs), "database_url", Null) == Null ==>
      r == Err(ValueError("Required argument database_url is missing"))
    ensures Get(Attributes(kwargs), "database_url", Null) != Null
            && Get(Attributes(kwargs), "table_name", Null) == Null ==>
      r == Err(ValueError("Required argument table_name is missing"))
  {
    var attrs := Attributes(kwargs);
    if Get(attrs, "database_url", Null) == Null then
      Err(ValueError("Required argument database_url is missing"))
    else if Get(attrs, "table_name", Null) == Null then
      Err(ValueError("Required argument table_name is missing"))
    else Ok(attrs)
  }

  /** A required argument that is not passed (or passed as `None`) is
      missing, whatever else the call gives. */
  lemma RequiredArgumentsChecked(kwargs: Entries)
    requires NoDupKeys(kwargs)
    requires "database_url" !in Keys(kwargs) || "table_name" !in Keys(kwargs)
    ensures InitMainArgs(kwargs).Err? && InitMainArgs(kwargs).error.ValueError?
  {
    AttributesLookup(kwargs, "database_url");
    AttributesLookup(kwargs, "table_name");
    assert Lookup(ResetAttributes, "database_url") == Some(Null);
    assert Lookup(ResetAttributes, "table_name") == Some(Null);
  }

  /** The `arguments` section of this variant's built-in configuration. */
  const DefaultArguments: Entries := [
    ("database_url", Null), ("table_name", Null), ("default_rename", Bool(false)),
    ("only_model", Bool(false)), ("only_form", Bool(false)),
    ("classic_sqlalchemy", Bool(false)), ("tab", Bool(false)),
    ("translate_labels", Null), ("label_original_language", Str("en"))]

  /** Entries whose keys are, position by position, the given names have
      exactly those names as keys. */
  lemma KeysAreNames(d: Entries, names: seq<string>)
    requires |d| == |names| && forall i | 0 <= i < |d| :: d[i].0 == names[i]
    ensures forall k :: k in Keys(d) <==> k in names
  {
  }

  lemma DefaultArgumentsUnique()
    ensures NoDupKeys(DefaultArguments)
  {
  }

  /** The built-in `arguments` section names exactly the allowed arguments,
      each once, and only `label_original_language` starts out truthy. */
  lemma DefaultArgumentsShape()
    ensures NoDupKeys(DefaultArguments)
    ensures forall k :: k in Keys(DefaultArguments) <==> Allowed(k)
    ensures forall i | 0 <= i < |DefaultArguments| ::
      Truthy(DefaultArguments[i].1) <==> DefaultArguments[i].0 == "label_original_language"
  {
    DefaultArgumentsUnique();
    KeysAreNames(DefaultArguments, AllowedArgs);
    var d := DefaultArguments;
    assert forall i | 0 <= i < 8 :: d[i].0 != "label_original_language" by {
      assert forall i | 0 <= i < 8 :: |d[i].0| != |"label_original_language"|;
    }
  }

  /** The built-in configuration of this variant: the classic or the
      Flask-SQLAlchemy model section, the form section, and arguments that
      leave every setting unset or off. */
  function BaseConfig(classic: bool): (r: Entries)
    ensures NoDupKeys(r) && Keys(r) == {"model", "form", "arguments"}
    ensures Lookup(r, "model")
      == Some(if classic then Config.ClassicModelSection() else Config.FlaskModelSection())
    ensures Lookup(r, "arguments") == Some(Dict(DefaultArguments))
  {
    Config.DefaultConfig(if classic then Config.ClassicModelSection() else Config.FlaskModelSection(),
                         Config.FormSection(), DefaultArguments)
  }

  /** `_load_config`: the built-in configuration, with the classic model
      section when `classic` (the generator's `classic_sqlalchemy` attribute at
      that moment) is set, merged with the file when the path is given and
      exists. A path that is not text raises `TypeError`, an existing file
      that is not JSON the decoder's `ValueError`, and a file that holds no
      dict `AttributeError` (it has no `.items()`). */
  function LoadConfig(classic: bool, configPath: Value, fs: FileSystem): (r: Result<Entries>)
    ensures r.Ok? ==> {"model", "form", "arguments"} <= Keys(r.value)
    ensures !Truthy(configPath) ==> r == Ok(BaseConfig(classic))
    ensures Truthy(configPath) && !configPath.Str? ==> r.Err? && r.error.TypeError?
    ensures Truthy(configPath) && configPath.Str? && !Exists(fs, configPath.s) ==> r == Ok(BaseConfig(classic))
    ensures Truthy(configPath) && configPath.Str? && configPath.s in fs.files - fs.configs.Keys ==>
      r.Err? && r.error.ValueError?
    ensures Truthy(configPath) && configPath.Str? && configPath.s in fs.configs ==>
      var user := fs.configs[configPath.s];
      (user.Dict? ==> r == Ok(Config.Merge(BaseConfig(classic), user.entries)))
      && (!user.Dict? ==> r.Err? && r.error.AttributeError?)
  {
    var base := BaseConfig(classic);
    if !Truthy(configPath) then Ok(base)
    else
      var path :- PathText(configPath);
      if !Exists(fs, path) then Ok(base)
      else
        var user :- ReadJson(fs, path);
        if user.Dict? then Ok(Config.Merge(base, user.entries))
        else Err(AttributeError("object has no attribute 'items'"))
  }

  /** The value of the `classic_sqlalchemy` attribute while `__init__` runs
      `_load_config`: the class attribute, because `_init_main_args` has not
      run yet. */
  const ClassicWhileLoading := false

  /** The generator after construction. */
  datatype Generator = Generator(config: Entries, attributes: Entries)

  /** `ModelFormGenerator(config_path, **kwargs)`. */
  function New(configPath: Value, kwargs: Entries, fs: FileSystem): (r: Result<Generator>)
    ensures r.Ok? <==> LoadConfig(ClassicWhileLoading, configPath, fs).Ok? && InitMainArgs(kwargs).Ok?
    ensures r.Ok? ==> r.value.attributes == Attributes(kwargs)
  {
    var config :- LoadConfig(ClassicWhileLoading, configPath, fs);
    var attributes :- InitMainArgs(kwargs);
    Ok(Generator(config, attributes))
  }

  /** The configuration does not depend on the keyword arguments: asking for
      classic SQLAlchemy at construction never substitutes the classic model
      section, and without a configuration file the model section is the
      Flask-SQLAlchemy one. */
  lemma ClassicSectionNeverSubstituted(configPath: Value, kwargs: Entries, fs: FileSystem)
    ensures New(configPath, kwargs, fs).Ok? ==>
      New(configPath, kwargs, fs).value.config == LoadConfig(false, configPath, fs).value
    ensures New(configPath, kwargs, fs).Ok? && !Truthy(configPath) ==>
      Lookup(New(configPath, kwargs, fs).value.config, "model") == Some(Config.FlaskModelSection())
  {
  }

  /** `generate_file`: the class names, the blocks the mode asks for, and the
      text written when an output file is given (`None` otherwise, when the
      blocks are printed). `tab4` is applied when `tab` is set, the opposite
      of the library variant. */
  function GenerateFile(g: Generator, output: string, defaultRename: bool, onlyModel: bool,
                        onlyForm: bool, tab: bool, cols: seq<Column>,
                        service: string -> Option<string>, tab4: string -> string)
    : (r: Result<(string, string, Option<string>)>)
    ensures r.Ok? ==> (r.value.0 == "" <==> onlyForm)
    ensures r.Ok? ==> (r.value.1 == "" <==> onlyModel)
    ensures r.Ok? ==> (r.value.2.Some? <==> output != "")
    ensures r.Ok? && output != "" ==> r.value.2 == Some(FileContent(r.value.0, r.value.1, tab, tab4))
    ensures onlyModel && onlyForm ==>
      r == Ok(("", "", if output != "" then Some(FileHeader) else None))
    ensures !onlyForm && !defaultRename && !Get(g.attributes, "table_name", Null).Str?
      ==> r.Err? && r.error.AttributeError?
    ensures var model := ConsoleModelBlock(g, defaultRename, cols);
            var form := ConsoleFormBlock(g, defaultRename, cols, service);
            (r.Ok? <==> (onlyForm || model.Ok?) && (onlyModel || form.Ok?))
            && (r.Ok? && !onlyForm ==> r.value.0 == model.value)
            && (r.Ok? && !onlyModel ==> r.value.1 == form.value)
  {
    var blocks :- SelectBlocks(onlyModel, onlyForm, ConsoleModelBlock(g, defaultRename, cols),
                               ConsoleFormBlock(g, defaultRename, cols, service));
    var content := if output != "" then Some(FileContent(blocks.0, blocks.1, tab, tab4)) else None;
    Ok((blocks.0, blocks.1, content))
  }

  /** The model block `generate_file` asks `generate_model` for, with the
      generator's attributes. */
  function ConsoleModelBlock(g: Generator, defaultRename: bool, cols: seq<Column>): Result<string> {
    ModelBlock(Console, defaultRename, Get(g.attributes, "table_name", Null), g.config, cols,
               Truthy(Get(g.attributes, "classic_sqlalchemy", Bool(false))))
  }

  /** The form block `generate_file` asks `generate_form` for: the console
      form has no configurable submit caption. */
  function ConsoleFormBlock(g: Generator, defaultRename: bool, cols: seq<Column>,
                            service: string -> Option<string>): Result<string>
  {
    FormBlock(Console, defaultRename, Get(g.attributes, "table_name", Null), g.config, cols, Null,
              Translator(Truthy(Get(g.attributes, "translate_labels", Null)), service))
  }

  /** The database argument of `generate`: a `Path` object or text. */
  datatype DatabaseRef = PathRef(path: string) | TextRef(text: string)

  predicate KnownScheme(s: string) {
    StartsWith(s, "sqlite:///") || StartsWith(s, "postgresql://") || StartsWith(s, "mysql://")
  }

  /** The URL `generate` passes on: a path, or text without a known scheme,
      becomes a SQLite URL; text with a known scheme is kept. */
  function NormaliseDatabase(d: DatabaseRef): (r: string)
    ensures KnownScheme(r)
    ensures d.TextRef? && KnownScheme(d.text) ==> r == d.text
    ensures d.TextRef? && !KnownScheme(d.text) ==> r == "sqlite:///" + d.text
    ensures d.PathRef? ==> r == "sqlite:///" + d.path
  {
    match d
    case PathRef(p) =>
      assert StartsWith("sqlite:///" + p, "sqlite:///");
      "sqlite:///" + p
    case TextRef(s) =>
      if KnownScheme(s) then s
      else
        assert StartsWith("sqlite:///" + s, "sqlite:///");
        "sqlite:///" + s
  }

  /** Normalising an already normalised URL changes nothing. */
  lemma NormaliseIdempotent(d: DatabaseRef)
    ensures NormaliseDatabase(TextRef(NormaliseDatabase(d))) == NormaliseDatabase(d)
  {
  }

  /** The output file name of `generate` and `main`: an explicit non-empty
      name is kept, otherwise the table name with the mode suffix. */
  function OutputName(output: Option<string>, table: string, onlyModel: bool, onlyForm: bool)
    : (r: string)
    ensures output.Some? && output.value != "" ==> r == output.value
    ensures output.None? || output.value == "" ==> r == Naming.DefaultOutputName(table, onlyModel, onlyForm)
    ensures r != ""
  {
    match output
    case Some(name) =>
      if name != "" then name else Naming.DefaultOutputName(table, onlyModel, onlyForm)
    case None => Naming.DefaultOutputName(table, onlyModel, onlyForm)
  }

  /** `generate`: normalise the URL and the output name, construct the
      generator with the call's arguments and generate the file. */
  function Generate(database: DatabaseRef, table: string, output: Option<string>, configPath: Value,
                    defaultRename: bool, onlyModel: bool, onlyForm: bool, classic: bool, tab: bool,
                    translateLabels: Value, fs: FileSystem, cols: seq<Column>,
                    service: string -> Option<string>, tab4: string -> string)
    : (r: Result<(string, string, Option<string>)>)
    ensures r.Ok? ==> r.value.2.Some?
  {
    var url := NormaliseDatabase(database);
    var out := OutputName(output, table, onlyModel, onlyForm);
    var g :- New(configPath, [("database_url", Str(url)), ("table_name", Str(table)),
                              ("default_rename", Bool(defaultRename)), ("only_model", Bool(onlyModel)),
                              ("only_form", Bool(onlyForm)), ("classic_sqlalchemy", Bool(classic)),
                              ("translate_labels", translateLabels)], fs);
    GenerateFile(g, out, defaultRename, onlyModel, onlyForm, tab, cols, service, tab4)
  }

  /** The exit status of the console entry point: argparse refuses
      `--only-model` with `--only-form` (status 2), any exception raised by
      `generate` exits with status 1, success with 0. */
  function ExitStatus(onlyModel: bool, onlyForm: bool, r: Result<(string, string, Option<string>)>)
    : (status: int)
    ensures onlyModel && onlyForm ==> status == 2
    ensures !(onlyModel && onlyForm) ==> (status == 0 <==> r.Ok?)
    ensures !(onlyModel && onlyForm) && r.Err? ==> status == 1
    ensures 0 <= status <= 2
  {
    if onlyModel && onlyForm then 2 else if r.Ok? then 0 else 1
  }
}
