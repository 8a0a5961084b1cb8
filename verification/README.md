# db_model_generator in Dafny

This project models the decision logic of `db_model_generator`. The tool reads the
columns of a database table and writes Python source for a Flask-SQLAlchemy (or
classic SQLAlchemy) model class and a WTForms form class. The repository carries
two near-duplicate implementations of the generator, and both are modelled:

- the **library variant**, `db_model_generator/core.py` (module `Library`). It adds
  an environment layer read from a `.env` file (module `EnvConfig`), a
  configuration file layered over built-in defaults, call-time keyword
  arguments that override only when truthy, and a `generate_file` driven by the
  stored settings;
- the **console variant**, `db_model_generator/generator.py` (module `Console`),
  which the console entry point runs. It filters keyword arguments through an
  allow-list and checks the required ones. Its `generate_file` takes the mode
  flags explicitly, and the `generate` helper normalises the database URL and
  the output name.

Shared pieces:

- `Values` models Python dicts as insertion-ordered association lists over a
  JSON-like `Value` (floats are carried as the text Python's `str()` gives
  them), with Python truthiness and the dict operations the code
  uses (`d[k] = v`, `d.get`, `d[k]` with `KeyError`/`TypeError`, `del`, `update`).
- `Config` holds the recursive override merge (`_update_config`), the legacy
  key aliases (`__fix_args_keys`), the `None`-dropping of keyword arguments and
  the truthy-only override loop, and the built-in configuration sections.
- `TypeMapping` holds the storage-type and form-field mappers and the validator
  list.
- `Naming` holds CamelCase class names, labels and default output names.
- `Emission` holds the field-line loops and the assembly of the generated text.
- `Files` is the file system as the generators see it.

Everything the code reaches outside itself is a parameter:

- the column list that database introspection would return;
- the parsed `.env` file;
- the file system, given as the parsed JSON configuration files by path plus
  the other existing paths;
- the translation service, a function returning `None` where the service
  would raise;
- the external `tab4` re-indenter.

Python exceptions are modelled as `Result` errors that carry the exception
class (`ValueError`, `TypeError`, `KeyError`, `AttributeError`,
`FileNotFoundError`).

Two quirks of the code are modelled as written:

- `'text'` is caught by the String branch of `_python_type_to_sqlalchemy`, so
  the Text branch is unreachable (`TypeMapping.TextIsStoredAsString`).
- In `generator.py`, `_load_config` runs before `_init_main_args`. The classic
  model section is therefore never substituted, whatever the caller asks for
  (`Console.ClassicSectionNeverSubstituted`).

Where the documented behaviour and the code disagree, the code is followed.
The clearest case is the mutual exclusion of `only_model` and `only_form`. Only
two places enforce it: `Environment.__errors` for values from the `.env` file,
and argparse's mutually exclusive group in the console entry point. In the
library variant, both flags set by call-time arguments or by the configuration
file are accepted (`Library.ModeConflictAccepted`, `Library.InitMainArgs`);
`generate_file` then produces neither block. The same holds for the console
variant's `generate` when called as a function.

## Model

| member | source | states |
|---|---|---|
| EnvConfig.MakeEnvironment | db_model_generator/core.py:31-37 | constructing the environment fails with `ValueError` exactly when every key is a field and both `only_model` and `only_form` are truthy; an unknown key is a `TypeError`; otherwise every field is taken from the dict or its default |
| EnvConfig.CoerceEnvValue | db_model_generator/core.py:100-105 | `true`/`1` (any letter case) become `True`, `false`/`0` become `False`, other text stays text, and a missing value stays `None` |
| EnvConfig.LowerKeysKeys | db_model_generator/core.py:99-106 | the lowered environment has each key once, all keys lower-case, and exactly the lower-cased spellings of the raw keys |
| EnvConfig.LowerKeysLastWins | db_model_generator/core.py:100-106 | a lowered key holds the coerced value of the last raw entry that lower-cases to it |
| EnvConfig.InitEnvironment | db_model_generator/core.py:96-110 | without a `.env` file the environment is built from no entries at all; with one, from its entries with lower-cased keys, coerced values and the legacy keys renamed |
| EnvConfig.EnvFileHasNoDicts | db_model_generator/core.py:99-106 | a `.env` file yields text, booleans and `None` only, before and after the legacy keys are renamed |
| EnvConfig.InitEnvironmentScalar | db_model_generator/core.py:96-110 | every environment `_init_environment` builds has only scalar fields |
| EnvConfig.EnvFileModeConflict | db_model_generator/core.py:99-108 | a `.env` file of known keys whose last `only_model` and last `only_form` entries (any letter case) both read as true is rejected with `ValueError` |
| EnvConfig.EnvFileLegacyDatabase | db_model_generator/core.py:99-108 | the last `database` entry of a `.env` file (any letter case) becomes the URL, coerced like every value |
| EnvConfig.DefaultEnvironmentIsValid | db_model_generator/core.py:15-29 | the default environment is accepted and holds the dataclass defaults |
| Config.FixArgsKeys | db_model_generator/core.py:270-279 | `database` and `output` are removed and renamed to `database_url` and `output_path`; the legacy value wins over one already under the new name; every other key keeps its value; distinct keys stay distinct |
| Config.Merge | db_model_generator/core.py:281-287 | the merged dict has the keys of both sides, default keys keep their positions, and merging an empty override is the identity |
| Config.MergeLookup | db_model_generator/core.py:281-287 | per key: absent from the override keeps the default; dict on both sides merges recursively; otherwise the override's value replaces the default (the console variant's copy is identical) |
| Config.MergeOverScalars | db_model_generator/core.py:281-287 | over defaults that hold no dicts, a merge is a plain override: the override's value if it sets the key, the default otherwise |
| Config.DropNone | db_model_generator/core.py:116-118 | exactly the keyword arguments whose value is not `None` are kept |
| Config.OverrideTruthyLookup | db_model_generator/core.py:150-152 | after the loop a key holds the call-time value exactly when that value is truthy, and its configured value otherwise |
| Config.DefaultConfig | db_model_generator/core.py:179-233 | the built-in configuration has exactly the sections `model`, `form` and `arguments`, each once |
| Config.FlaskModelSectionUsable | db_model_generator/core.py:180-196 | the Flask-SQLAlchemy model section has its four keys once each, a text base class, text import lines and excluded columns, and does not exclude `id` |
| Config.ClassicModelSectionUsable | db_model_generator/core.py:236-256 | the classic model section has the same shape and, unlike the Flask-SQLAlchemy one, excludes `id` |
| Config.FormSectionUsable | db_model_generator/core.py:197-218 | the form section has its five keys once each, a text base class and import lines, a field mapping for all seven column families and an empty `meta` |
| TypeMapping.LengthSuffix | db_model_generator/core.py:313-316 | `(n)` is appended exactly when the length is truthy (present and non-zero) |
| TypeMapping.StorageType | db_model_generator/core.py:308-330 | the storage token is the name of the keyword's family (`text` and unknown keywords get `String`, `numeric` gets `Float`) in the chosen spelling, with the length suffix for the string keywords only |
| TypeMapping.StorageTypeMatchesTypeMapping | db_model_generator/core.py:308-330 | the hard-coded storage token equals the configured default `type_mapping` entry of the keyword's family, with `text` using the `string` entry and a length only for the string keywords; `numeric` maps to Float and unknown keywords to String |
| TypeMapping.TextIsStoredAsString | db_model_generator/core.py:312-328 | `text` maps exactly as `string` does, and no keyword ever yields the Text token (in both variants) |
| TypeMapping.StorageSpellings | db_model_generator/core.py:308-330 | the Flask spelling is the classic spelling with a `db.` prefix, for every keyword and length |
| TypeMapping.FieldType | db_model_generator/core.py:332-351 | the form field is the `field_mapping` entry of the keyword's family, with `numeric` in the float family and unknown keywords using `string` |
| TypeMapping.FieldTypeTotal | db_model_generator/generator.py:205-224 | with a field mapping holding the seven family keys the form-field mapper never fails |
| TypeMapping.Validators | db_model_generator/core.py:353-370 | Required exactly when not nullable and not a primary key; `Length(max=n)` when the type is `string`/`varchar` with a truthy length and no length validator otherwise; Email exactly when the lower-cased name contains `email`; order Required, Length, Email, each at most once (both variants) |
| Naming.CamelCaseSpec | db_model_generator/core.py:372-375 | the CamelCase name contains no `_` and spells the name without its underscores, letter for letter up to case |
| Naming.CamelCaseWord | db_model_generator/core.py:372-375 | a name without `_` is capitalised: first letter upper-case, the rest lower-case |
| Naming.CamelCaseJoin | db_model_generator/core.py:372-375 | the CamelCase name of two `_`-joined parts is the concatenation of their CamelCase names |
| Naming.Label | db_model_generator/core.py:468 | the label has the name's length; underscores and spaces become spaces; a letter is upper-case exactly when it starts a run of letters; the text is the name's up to case |
| Naming.DefaultOutputName | db_model_generator/core.py:123-129 | the table name, then `_model.py` for model-only, `_form.py` for form-only, `.py` otherwise |
| Naming.DefaultOutputNamesDistinct | db_model_generator/generator.py:434-441 | the three modes never share a default output name |
| Emission.InContainer | db_model_generator/core.py:398 | `name in v` is list membership, substring or key test, and a `TypeError` on a value that cannot be searched |
| Emission.ColumnParams | db_model_generator/core.py:406-413 | `primary_key=True` exactly for primary keys, `nullable=False` exactly for non-nullable columns, `default=…` exactly when a default exists, in that order |
| Emission.ParamsSuffix | db_model_generator/core.py:415-427 | the `, params` suffix is omitted exactly when there are no parameters |
| Emission.ModelFieldLine | db_model_generator/core.py:415-427 | a field line is the indented column name, ` = `, `Column(` (behind `db.` for Flask-SQLAlchemy) and the storage token, then exactly the `, `-joined column parameters (nothing when there are none), then `)` and a line break |
| Emission.ModelFieldLineParams | db_model_generator/core.py:406-427 | a field line closes right after the storage token exactly when the column is a nullable non-key without a default; a primary key puts `primary_key=True` first among the parameters |
| Emission.ModelFieldSpellings | db_model_generator/core.py:418-427 | the Flask-SQLAlchemy field line is the classic one with `db.` put before `Column(` and before the storage token |
| Emission.Kept | db_model_generator/core.py:397-399 | a column survives exactly when it is an input column whose name is not excluded |
| Emission.KeptAppend | db_model_generator/core.py:397-399 | the exclusion filter keeps input order: filtering a concatenation concatenates the filtered parts |
| Emission.ModelLinesFor | db_model_generator/core.py:401-427 | one field line per column, in order |
| Emission.ModelFieldLines | db_model_generator/core.py:397-427 | the loop succeeds exactly when there are no columns or the exclusion value can be searched, and then yields one line per surviving column in input order |
| Emission.FormColumns | db_model_generator/core.py:460-462 | a column gets a form field exactly when it is neither excluded nor a primary key |
| Emission.FormColumnsAreKeptNonKeys | db_model_generator/core.py:460-462 | the form's columns are the model's surviving columns without the primary keys, so the form never has more fields than the model |
| Emission.Translate | db_model_generator/core.py:434-443 | with translation on, the service's translation when it succeeds; with translation off, or when the service fails, the label text unchanged |
| Emission.ValidatorsSuffix | db_model_generator/core.py:471-476 | the `validators=[…]` argument is omitted exactly when there are no validators |
| Emission.FormFieldLine | db_model_generator/core.py:463-476 | a form field line can be written exactly when the field mapping resolves the column's family to a renderable value; it then starts with the indented column name, ` = `, that field class and the quoted label (the title-cased name, translated when translation is on), and ends with the column's validators argument, `)` and a line break |
| Emission.FormFieldLineValidators | db_model_generator/core.py:471-476 | a form field line closes with `')` right after the label exactly when the column has no validators; a required column's validators start with `DataRequired()` |
| Emission.FormLinesFor | db_model_generator/core.py:460-476 | the loop succeeds exactly when every column's line succeeds, and then yields those lines in order |
| Emission.FormFieldLines | db_model_generator/core.py:460-476 | no columns give no lines; an exclusion value that cannot be searched is a `TypeError`; otherwise one line per form column |
| Emission.FormLinesWith | db_model_generator/core.py:460-476 | the exclusion test fails first (`TypeError`); with no form columns there are no lines and `field_mapping` is never read; otherwise the loop succeeds exactly when `field_mapping` exists and every line succeeds |
| Emission.SubmitLine | db_model_generator/core.py:478-479 | the library variant emits a submit line exactly when `submit` is not `None`, with the value as the `SubmitField` caption in double quotes; the console variant always emits `SubmitField('Отправить')` |
| Emission.MetaLines | db_model_generator/generator.py:350-354 | one `key = value` line per `meta` entry in dict order, failing exactly when an entry cannot be rendered |
| Emission.MetaBlock | db_model_generator/core.py:480-484 | a falsy `meta` adds nothing; a truthy value without `.items()` raises `AttributeError`; a truthy dict gives the `class Meta:` header and one line per entry, failing exactly when an entry cannot be rendered |
| Emission.JoinLines | db_model_generator/core.py:385 | joining imports succeeds exactly for a list of strings, a string or a dict |
| Emission.ClassName | db_model_generator/core.py:372-380 | `default_rename` gives the generic name; otherwise the CamelCase table name and the suffix, and a table name that is not text raises `AttributeError` |
| Emission.ModelBlock | db_model_generator/core.py:377-395 | without `default_rename` a table name that is not text raises `AttributeError`; a generated block is never empty |
| Emission.ModelBlockOfText | db_model_generator/core.py:377-395 | for a text table name the block is the model code for `Model` or the CamelCase table name, with the table name as `__tablename__` |
| Emission.FormBlock | db_model_generator/core.py:445-450 | without `default_rename` a table name that is not text raises `AttributeError`; otherwise the form code for `Form` or the CamelCase table name followed by `Form` |
| Emission.ModelCode | db_model_generator/core.py:377-432 | generated model code is never empty |
| Emission.FormCode | db_model_generator/core.py:445-486 | generated form code is never empty |
| Emission.SelectBlocks | db_model_generator/core.py:497-505 | `only_form` empties the model block and `only_model` the form block; a block not asked for is never generated, so its errors cannot surface; otherwise each block is the generated code |
| Emission.FileContent | db_model_generator/core.py:507-526 | the file is the `__all__` header, then the model comment and block, a blank line when both blocks exist, then the form comment and block, each block re-indented when asked; two empty blocks give the header alone |
| Files.ReadJson | db_model_generator/core.py:261-262 | reading succeeds exactly for a file that parses as JSON, and yields its content |
| Library.Kwargs | db_model_generator/core.py:79-92 | the constructor's twelve keyword arguments form a dict with distinct keys |
| Library.EnvArguments | db_model_generator/core.py:219-232 | the built-in arguments are the constructor's twelve keyword arguments, name for name and in order, with the environment's values |
| Library.FlagIn | db_model_generator/core.py:166-174 | the file's `arguments.classic_sqlalchemy`; a missing key at either level falls back; a level that is not a dict raises |
| Library.ConfigFile | db_model_generator/core.py:259-266 | a falsy or missing path gives no file; an existing file must parse; a non-text path raises `TypeError` |
| Library.FixArguments | db_model_generator/core.py:271-272 | a dict `arguments` has its legacy keys renamed; a list is kept unless it names a legacy key; any other value raises `AttributeError` |
| Library.FixUserArguments | db_model_generator/core.py:263 | the user file must be a dict; its `arguments` is replaced by the renamed copy and every other entry is kept |
| Library.BaseConfig | db_model_generator/core.py:179-256 | the built-in configuration carries the environment's arguments and the classic or Flask model section as asked |
| Library.LoadConfigFrom | db_model_generator/core.py:235-268 | without a file the configuration is the built-in one with the environment's flag; with one, loading succeeds exactly when the flag can be read and the file's arguments fixed |
| Library.LoadConfig | db_model_generator/core.py:176-268 | loading succeeds exactly when the file can be read and layered, and the result always has the three sections |
| Library.LoadedArguments | db_model_generator/core.py:259-264 | a configuration file that is a dict with a dict `arguments` always loads, and its arguments section is the environment's merged with the file's renamed arguments |
| Library.ArgumentsPrecedence | db_model_generator/core.py:263-264 | a key the file's (renamed) arguments set takes the file's value; any other keeps the environment's |
| Library.EnvArgumentsScalar | db_model_generator/core.py:219-232 | the built-in arguments of every environment `_init_environment` accepts hold no dict, so `Library.ArgumentsPrecedence` applies to all of them |
| Library.DatabaseUrl | db_model_generator/core.py:131-139 | a falsy URL is `ValueError`; a `sqlite:///` URL is accepted exactly when its path, with every `sqlite:///` deleted, exists; other text URLs are kept |
| Library.SqliteUrlChecksPath | db_model_generator/core.py:135-138 | a SQLite URL whose path does not repeat the scheme is accepted exactly when that path exists |
| Library.TableName | db_model_generator/core.py:141-145 | the table name is accepted exactly when truthy, and a `ValueError` otherwise |
| Library.OutputPath | db_model_generator/core.py:120-129 | an explicit truthy path is kept; otherwise the table name with the mode suffix and `.py`; the result is never empty |
| Library.ArgumentsOf | db_model_generator/core.py:149 | the arguments section is usable exactly when it is a dict |
| Library.ReadSettings | db_model_generator/core.py:153-164 | the settings are read exactly when every argument is present and the URL, table name and output path pass their checks; the table name, `default_rename`, mode flags, classic flag, `tab`, `translate_labels`, `label_original_language`, `log_mode` and `submit` are the section's values, the URL is the checked text, the table name is truthy, and the output path is the one `__output_path` forms from the section's `output_path` with the read mode flags and table name |
| Library.InitMainArgs | db_model_generator/core.py:147-164 | the call succeeds exactly when the truthy-overridden arguments are accepted (all present, URL and table name valid, output path formable, with no condition on the mode flags); the configuration holds the updated section and the settings are those `Library.ReadSettings` reads from it |
| Library.CallTimePrecedence | db_model_generator/core.py:150-152 | for any configuration with a dict `arguments` section, after the override loop a setting holds the call-time value when that is truthy and the configured value otherwise; `False`, `0` or `''` never override |
| Library.ModeConflictAccepted | db_model_generator/core.py:150-157 | setting `only_model` and `only_form` together, to any values, never makes accepted arguments rejected |
| Library.New | db_model_generator/core.py:75-92 | a constructed generator holds the environment the `.env` file yields |
| Library.GenerateFile | db_model_generator/core.py:488-526 | the call succeeds exactly when every block the mode asks for can be generated, and each such block is the generated model or form code for the settings; the model block is empty exactly under `only_form` and the form block exactly under `only_model`; both flags give the header alone; without `default_rename` a model block for a table name that is not text raises `AttributeError`; the written text is the file layout, re-indented when `tab` is falsy |
| Library.GeneratedClassNames | db_model_generator/core.py:488-505 | with `default_rename` the written model and form are generated under the names `Model` and `Form`, otherwise under the CamelCase table name (plus `Form` for the form) |
| Console.Applicable | db_model_generator/generator.py:58-60 | exactly the allowed keyword arguments with a value other than `None` are applied |
| Console.AttributesLookup | db_model_generator/generator.py:50-60 | an applied keyword argument sets its attribute; every other attribute keeps its reset value |
| Console.InitMainArgs | db_model_generator/generator.py:48-65 | success exactly when `database_url` and `table_name` are set after the reset and the loop; otherwise `ValueError` naming the first missing one |
| Console.RequiredArgumentsChecked | db_model_generator/generator.py:62-65 | omitting `database_url` or `table_name` always fails with `ValueError` |
| Console.ResetAttributesShape | db_model_generator/generator.py:31-55 | the reset names allowed arguments only, each once, leaves `database_url` and `table_name` unset and the source language English |
| Console.DefaultArgumentsShape | db_model_generator/generator.py:110-120 | the built-in arguments section names exactly the allowed arguments, each once, and only `label_original_language` starts out truthy |
| Console.BaseConfig | db_model_generator/generator.py:67-143 | the built-in configuration has its three sections once each, the classic or the Flask-SQLAlchemy model section as asked, and the default arguments |
| Console.LoadConfig | db_model_generator/generator.py:145-152 | a falsy path or one that does not exist gives the built-in configuration; a path that is not text raises `TypeError`; an existing file that is not JSON raises `ValueError`; a JSON object is merged over the built-in configuration and any other JSON value raises `AttributeError` |
| Console.New | db_model_generator/generator.py:42-44 | construction succeeds exactly when the configuration loads (classic flag still off) and the required arguments are present |
| Console.ClassicSectionNeverSubstituted | db_model_generator/generator.py:123-143 | whenever construction succeeds, the configuration does not depend on the keyword arguments, and without a file its model section is the Flask one |
| Console.GenerateFile | db_model_generator/generator.py:358-421 | the call succeeds exactly when every block the mode asks for can be generated, and each such block is the generated model or form code (the form without a configurable submit caption); the model block is empty exactly under `only_form` and the form block exactly under `only_model`; both flags give empty blocks and a bare header; without `default_rename` a model block for a table name that is not text raises `AttributeError`; a file is written exactly when an output name is given, re-indented when `tab` is set |
| Console.NormaliseDatabase | db_model_generator/generator.py:429-432 | the URL always has a known scheme; text that has one is kept; a path or other text gets `sqlite:///` |
| Console.NormaliseIdempotent | db_model_generator/generator.py:429-432 | normalising a normalised URL changes nothing |
| Console.OutputName | db_model_generator/generator.py:434-441 | an explicit non-empty name is kept, otherwise the default name for the mode; never empty |
| Console.Generate | db_model_generator/generator.py:424-460 | a successful run always writes a file |
| Console.ExitStatus | db_model_generator/generator.py:462-488 | both mode flags on the command line exit with status 2; otherwise status 0 exactly on success and 1 on an error |

## Left out

- Database introspection (`_get_table_info`, `create_engine`, `inspect`) calls SQLAlchemy. The column list is an input.
- The translation service is a foreign network call. It is a parameter that returns `None` where the service would raise. Constructing the translator can itself raise outside the `try`; that case is not modelled.
- `tab4` is a foreign function and is a parameter. The library variant applies it when `tab` is falsy; the console variant applies it when `tab` is set.
- File I/O is not modelled: `dotenv_values`, `json.load`, `Path.exists` and the writing of the output file. A run receives the parsed `.env` entries, the parsed JSON files by path and the set of existing paths. Paths are compared verbatim; there is no normalisation.
- Console printing, logging (`log`, `log_mode`) and `warnings.warn` (including `Environment.__warnings`) only produce diagnostics.
- argparse wiring and `sys.exit` in `main` are plumbing. Only their outcome is modelled, in `Console.ExitStatus`.
- `translate_validator` depends on the `LANGUAGES` table of the `constants` module, which is not part of this model.
- `setup.py` is packaging metadata.
- Strings are modelled as ASCII for `lower()`, `capitalize()` and `title()`. Unicode case mapping is not modelled.
- Python's `str()` of a nested list or dict inside a generated line is not rendered. A container value met there is an error in the model.
- The `type_mapping` table is read but never used by `_python_type_to_sqlalchemy`. The model only requires that the key exists when a model column needs a storage type.
- Emission.ModelCode: the contract states only that generated model code is never empty. Which columns get a line, and in what order, is stated by `Emission.ModelFieldLines`; the text of each line by `Emission.ModelFieldLine` and `Emission.ModelFieldLineParams`. The surrounding template text (imports, class header, `__repr__`) is not restated.
- Emission.FormCode: the contract states only that generated form code is never empty. Which columns get a field, and in what order, is stated by `Emission.FormFieldLines`; the text of each field line by `Emission.FormFieldLine` and `Emission.FormFieldLineValidators`; the submit and Meta lines by `Emission.SubmitLine` and `Emission.MetaBlock`. The surrounding template text (imports, `__all__`, class header) is not restated.
- Console.Generate: the contract states only that a successful run writes a file. Its parts are specified by `Console.NormaliseDatabase`, `Console.OutputName`, `Console.New` and `Console.GenerateFile`.
- Library.New: the contract states only which environment is used. The configuration and settings are specified by `Library.LoadConfig`, `Library.InitMainArgs` and `Library.CallTimePrecedence`.
