/** Configuration layering shared by both generator variants: the recursive
    override merge (`_update_config`), the legacy key aliases
    (`__fix_args_keys`), the dropping of `None` keyword arguments
    (`__format_kwargs`), the truthy-only override of the arguments section
    (the loop of the library variant's `_init_main_args`) and the built-in
    default sections. */
module Config {
  import opened Wrappers
  import opened Values
  import Strings

  /** The value `_update_config` leaves under a key whose default is `prior`
      (absent when `None`) and whose override is `v`: two dicts merge
      recursively, anything else is replaced by the override. */
  function MergedValue(prior: Option<Value>, v: Value): Value
    decreases v, if v.Dict? then |v.entries| + 1 else 0
  {
    match (prior, v)
    case (Some(Dict(dd)), Dict(uu)) => Dict(MergeFrom(dd, uu, 0))
    case _ => v
  }

  /** `_update_config(d, u)` restricted to the override entries `u[i..]`,
      processed in order. */
  function MergeFrom(d: Entries, u: Entries, i: nat): (r: Entries)
    requires i <= |u|
    ensures Keys(r) == Keys(d) + Keys(u[i..])
    ensures |r| >= |d| && forall j | 0 <= j < |d| :: r[j].0 == d[j].0
    decreases Dict(u), |u| - i
  {
    if i == |u| then d
    else
      var (k, v) := u[i];
      assert u[i..][1..] == u[i + 1..];
      KeysCons(u[i..]);
      MergeFrom(Set(d, k, MergedValue(Lookup(d, k), v)), u, i + 1)
  }

  /** `_update_config(default, user)`: the defaults with every override
      applied; default keys keep their order and new keys follow them. */
  function Merge(d: Entries, u: Entries): (r: Entries)
    ensures Keys(r) == Keys(d) + Keys(u)
    ensures |r| >= |d| && forall j | 0 <= j < |d| :: r[j].0 == d[j].0
    ensures u == [] ==> r == d
  {
    assert u[0..] == u;
    MergeFrom(d, u, 0)
  }

  lemma {:induction false} MergeFromLookup(d: Entries, u: Entries, i: nat, k: string)
    requires i <= |u| && NoDupKeys(u)
    ensures Lookup(MergeFrom(d, u, i), k)
      == if k in Keys(u[i..]) then Some(MergedValue(Lookup(d, k), Lookup(u, k).value))
         else Lookup(d, k)
    decreases |u| - i
  {
    if i < |u| {
      var (k0, v0) := u[i];
      var d' := Set(d, k0, MergedValue(Lookup(d, k0), v0));
      assert u[i..][1..] == u[i + 1..];
      KeysCons(u[i..]);
      MergeFromLookup(d', u, i + 1, k);
      SetLookup(d, k0, MergedValue(Lookup(d, k0), v0), k);
      if k == k0 {
        forall e | e in u[i + 1..] ensures e.0 != k {
          var j :| 0 <= j < |u[i + 1..]| && u[i + 1..][j] == e;
          assert u[i + 1 + j] == e;
        }
        UniqueLookup(u, i);
      } else if k in Keys(u[i + 1..]) {
        assert Lookup(d', k) == Lookup(d, k);
      }
    }
  }

  lemma UniqueLookup(u: Entries, i: nat)
    requires i < |u| && NoDupKeys(u)
    ensures Lookup(u, u[i].0) == Some(u[i].1)
  {
    if i > 0 {
      NoDupKeysCons(u);
      assert u[1..][i - 1] == u[i];
      UniqueLookup(u[1..], i - 1);
    }
  }

  /** The three rules of `_update_config`, per key: a key the override lacks
      keeps its default; a key that is a dict on both sides is merged
      recursively; otherwise the override's value replaces the default. */
  lemma MergeLookup(d: Entries, u: Entries, k: string)
    requires NoDupKeys(u)
    ensures Lookup(u, k).None? ==> Lookup(Merge(d, u), k) == Lookup(d, k)
    ensures Lookup(d, k).Some? && Lookup(d, k).value.Dict?
            && Lookup(u, k).Some? && Lookup(u, k).value.Dict?
            ==> Lookup(Merge(d, u), k)
                == Some(Dict(Merge(Lookup(d, k).value.entries, Lookup(u, k).value.entries)))
    ensures Lookup(u, k).Some? && !(Lookup(d, k).Some? && Lookup(d, k).value.Dict?
                                   && Lookup(u, k).value.Dict?)
            ==> Lookup(Merge(d, u), k) == Lookup(u, k)
  {
    assert u[0..] == u;
    MergeFromLookup(d, u, 0, k);
  }

  /** Over defaults that hold no dicts, merging is a plain override: a key
      the override sets takes its value, any other keeps the default. */
  lemma MergeOverScalars(d: Entries, u: Entries, k: string)
    requires NoDupKeys(u)
    requires forall i | 0 <= i < |d| :: !d[i].1.Dict?
    ensures Lookup(Merge(d, u), k) == if k in Keys(u) then Lookup(u, k) else Lookup(d, k)
  {
    MergeLookup(d, u, k);
    if Lookup(d, k).Some? {
      assert (k, Lookup(d, k).value) in d;
    }
  }

  /** In a dict without duplicate keys, an entry is what lookup finds. */
  lemma LookupEntry(d: Entries, k: string, v: Value)
    requires NoDupKeys(d) && (k, v) in d
    ensures Lookup(d, k) == Some(v)
  {
    var i :| 0 <= i < |d| && d[i] == (k, v);
    UniqueLookup(d, i);
  }

  /** Merging keeps a dict's keys distinct. */
  lemma {:induction false} MergeFromNoDup(d: Entries, u: Entries, i: nat)
    requires i <= |u| && NoDupKeys(d)
    ensures NoDupKeys(MergeFrom(d, u, i))
    decreases |u| - i
  {
    if i < |u| {
      var (k, v) := u[i];
      SetNoDup(d, k, MergedValue(Lookup(d, k), v));
      MergeFromNoDup(Set(d, k, MergedValue(Lookup(d, k), v)), u, i + 1);
    }
  }

  /** The legacy argument names `__fix_args_keys` renames. */
  const LegacyDatabase := "database"
  const LegacyOutput := "output"

  /** Move the value under `from` to `to` (overwriting), then delete `from`;
      nothing happens when `from` is absent. */
  function Alias(a: Entries, from: string, to: string): (r: Entries)
    requires from != to
    ensures from !in Keys(r)
    ensures Lookup(r, to) == if from in Keys(a) then Lookup(a, from) else Lookup(a, to)
    ensures forall k | k != from && k != to :: Lookup(r, k) == Lookup(a, k)
    ensures NoDupKeys(a) ==> NoDupKeys(r)
  {
    if from in Keys(a) then
      var v := Lookup(a, from).value;
      SetLookupAll(a, to, v);
      if NoDupKeys(a) then SetNoDup(a, to, v); Delete(Set(a, to, v), from)
      else Delete(Set(a, to, v), from)
    else a
  }

  /** `__fix_args_keys`: the legacy names `database` and `output` become
      `database_url` and `output_path`; the legacy value wins over a value
      already stored under the new name, and every other key is untouched.
      The input is a value, so it is never mutated. */
  function FixArgsKeys(a: Entries): (r: Entries)
    ensures LegacyDatabase !in Keys(r) && LegacyOutput !in Keys(r)
    ensures Lookup(r, "database_url")
      == if LegacyDatabase in Keys(a) then Lookup(a, LegacyDatabase) else Lookup(a, "database_url")
    ensures Lookup(r, "output_path")
      == if LegacyOutput in Keys(a) then Lookup(a, LegacyOutput) else Lookup(a, "output_path")
    ensures forall k | k !in {LegacyDatabase, "database_url", LegacyOutput, "output_path"} ::
      Lookup(r, k) == Lookup(a, k)
    ensures NoDupKeys(a) ==> NoDupKeys(r)
  {
    Alias(Alias(a, LegacyDatabase, "database_url"), LegacyOutput, "output_path")
  }

  /** `__format_kwargs`: the keyword arguments whose value is not `None`, in
      their original order. */
  function DropNone(kw: Entries): (r: Entries)
    ensures forall e :: e in r <==> e in kw && e.1 != Null
    ensures Keys(r) <= Keys(kw)
    ensures NoDupKeys(kw) ==> NoDupKeys(r)
  {
    if |kw| == 0 then []
    else
      KeysCons(kw);
      NoDupKeysCons(kw);
      var rest := DropNone(kw[1..]);
      if kw[0].1 == Null then rest
      else
        var r := [kw[0]] + rest;
        KeysCons(r);
        NoDupKeysCons(r);
        assert r[1..] == rest;
        r
  }

  /** The loop of the library variant's `_init_main_args`: each keyword
      argument overwrites the arguments section only when its value is
      truthy. */
  function OverrideTruthy(args: Entries, kw: Entries): (r: Entries)
    decreases |kw|
  {
    if |kw| == 0 then args
    else
      var prev := OverrideTruthy(args, kw[..|kw| - 1]);
      var (k, v) := kw[|kw| - 1];
      if Truthy(v) then Set(prev, k, v) else prev
  }

  /** After the override loop a key holds the call-time value exactly when
      that value is truthy; an explicit `False`, `0` or `''` never replaces
      the configured value. */
  lemma {:induction false} OverrideTruthyLookup(args: Entries, kw: Entries, k: string)
    requires NoDupKeys(kw)
    ensures Lookup(OverrideTruthy(args, kw), k)
      == if Lookup(kw, k).Some? && Truthy(Lookup(kw, k).value) then Lookup(kw, k)
         else Lookup(args, k)
    decreases |kw|
  {
    if |kw| > 0 {
      var p := kw[..|kw| - 1];
      var e := kw[|kw| - 1];
      assert kw == p + [e];
      NoDupPrefix(kw);
      OverrideTruthyLookup(args, p, k);
      LookupSnoc(p, e, k);
      if Truthy(e.1) {
        SetLookup(OverrideTruthy(args, p), e.0, e.1, k);
      }
    }
  }

  lemma {:induction false} OverrideTruthyNoDup(args: Entries, kw: Entries)
    requires NoDupKeys(args)
    ensures NoDupKeys(OverrideTruthy(args, kw))
    decreases |kw|
  {
    if |kw| > 0 {
      OverrideTruthyNoDup(args, kw[..|kw| - 1]);
      var e := kw[|kw| - 1];
      if Truthy(e.1) {
        SetNoDup(OverrideTruthy(args, kw[..|kw| - 1]), e.0, e.1);
      }
    }
  }

  function Strs(xs: seq<string>): seq<Value> {
    seq(|xs|, i requires 0 <= i < |xs| => Str(xs[i]))
  }

  function StrDict(es: seq<(string, string)>): Entries {
    seq(|es|, i requires 0 <= i < |es| => (es[i].0, Str(es[i].1)))
  }

  /** The default `type_mapping` table of the Flask-SQLAlchemy model section. */
  const FlaskTypeMapping: seq<(string, string)> := [
    ("string", "db.String"), ("text", "db.Text"), ("integer", "db.Integer"),
    ("float", "db.Float"), ("boolean", "db.Boolean"), ("datetime", "db.DateTime"),
    ("date", "db.Date")]

  /** The `type_mapping` table of the classic SQLAlchemy model section. */
  const ClassicTypeMapping: seq<(string, string)> := [
    ("string", "String"), ("text", "Text"), ("integer", "Integer"),
    ("float", "Float"), ("boolean", "Boolean"), ("datetime", "DateTime"),
    ("date", "Date")]

  /** The default `field_mapping` table of the form section. */
  const DefaultFieldMapping: seq<(string, string)> := [
    ("string", "StringField"), ("text", "TextAreaField"), ("integer", "IntegerField"),
    ("float", "FloatField"), ("boolean", "BooleanField"), ("datetime", "DateTimeField"),
    ("date", "DateField")]

  /** A Python `from package import a, b, ...` line. */
  function ImportLine(package: string, names: seq<string>): string {
    "from " + package + " import " + Strings.Join(", ", names)
  }

  /** A list whose items are all text. */
  predicate TextList(v: Value) {
    v.List? && forall i | 0 <= i < |v.items| :: v.items[i].Str?
  }

  /** The keys both built-in `model` sections have. */
  const ModelSectionKeys := {"base_class", "imports", "exclude_columns", "type_mapping"}

  /** What the model generator reads from a `model` section: a text base
      class, text import lines and a list of excluded column names. */
  predicate UsableModelSection(v: Value) {
    v.Dict? && NoDupKeys(v.entries) && Keys(v.entries) == ModelSectionKeys
    && Lookup(v.entries, "base_class").value.Str?
    && TextList(Lookup(v.entries, "imports").value)
    && TextList(Lookup(v.entries, "exclude_columns").value)
  }

  lemma StrsText(xs: seq<string>)
    ensures TextList(List(Strs(xs)))
  {
  }

  /** A text is among the wrapped texts exactly when it is among the texts. */
  lemma StrsMember(xs: seq<string>, x: string)
    ensures Str(x) in Strs(xs) <==> x in xs
  {
    if x in xs {
      var i :| 0 <= i < |xs| && xs[i] == x;
      assert Strs(xs)[i] == Str(x);
    }
  }

  /** A `model` section with the given base class, import lines, excluded
      columns and type table. */
  function ModelSection(base: string, imports: seq<string>, exclude: seq<string>,
                        types: seq<(string, string)>): Value
  {
    Dict([("base_class", Str(base)), ("imports", List(Strs(imports))),
          ("exclude_columns", List(Strs(exclude))), ("type_mapping", Dict(StrDict(types)))])
  }

  /** Every section `ModelSection` builds is usable, and excludes exactly the
      given columns. */
  lemma ModelSectionUsable(base: string, imports: seq<string>, exclude: seq<string>,
                           types: seq<(string, string)>)
    ensures UsableModelSection(ModelSection(base, imports, exclude, types))
    ensures Lookup(ModelSection(base, imports, exclude, types).entries, "exclude_columns")
      == Some(List(Strs(exclude)))
  {
    var es := ModelSection(base, imports, exclude, types).entries;
    assert NoDupKeys(es);
    forall i | 0 <= i < |es| ensures Lookup(es, es[i].0) == Some(es[i].1) {
      UniqueLookup(es, i);
    }
    assert Keys(es) == ModelSectionKeys by {
      assert es[0] in es && es[1] in es && es[2] in es && es[3] in es;
    }
    StrsText(imports);
    StrsText(exclude);
  }

  /** The Flask-SQLAlchemy `model` section. */
  function FlaskModelSection(): Value {
    ModelSection("db.Model", ["from flask_sqlalchemy import SQLAlchemy", "from datetime import datetime"],
                 ["created_at", "updated_at"], FlaskTypeMapping)
  }

  /** The Flask-SQLAlchemy `model` section is usable, and the `id` column is
      not excluded. */
  lemma FlaskModelSectionUsable()
    ensures UsableModelSection(FlaskModelSection())
    ensures Str("id") !in Lookup(FlaskModelSection().entries, "exclude_columns").value.items
  {
    var exclude := ["created_at", "updated_at"];
    ModelSectionUsable("db.Model", ["from flask_sqlalchemy import SQLAlchemy", "from datetime import datetime"],
                       exclude, FlaskTypeMapping);
    StrsMember(exclude, "id");
  }

  /** The `model` section substituted in classic SQLAlchemy mode. */
  function ClassicModelSection(): Value {
    ModelSection("Base",
                 [ImportLine("sqlalchemy", ["Column", "Integer", "String", "Text", "Boolean", "DateTime",
                    "Date", "Float"]),
                  "from sqlalchemy.ext.declarative import declarative_base",
                  "",
                  "Base = declarative_base()"],
                 ["id", "created_at", "updated_at"], ClassicTypeMapping)
  }

  /** The classic `model` section is usable, and unlike the Flask-SQLAlchemy
      one it excludes the `id` column. */
  lemma ClassicModelSectionUsable()
    ensures UsableModelSection(ClassicModelSection())
    ensures Str("id") in Lookup(ClassicModelSection().entries, "exclude_columns").value.items
  {
    var exclude := ["id", "created_at", "updated_at"];
    ModelSectionUsable("Base",
                       [ImportLine("sqlalchemy", ["Column", "Integer", "String", "Text", "Boolean", "DateTime",
                          "Date", "Float"]),
                        "from sqlalchemy.ext.declarative import declarative_base",
                        "",
                        "Base = declarative_base()"],
                       exclude, ClassicTypeMapping);
    assert Strs(exclude)[0] == Str("id");
  }

  /** The family keys every `field_mapping` needs. */
  const FamilyKeys := {"string", "text", "integer", "float", "boolean", "datetime", "date"}

  /** The default field table has an entry for each family key. */
  lemma DefaultFieldMappingKeys()
    ensures forall key | key in FamilyKeys :: key in Keys(StrDict(DefaultFieldMapping))
  {
    var d := StrDict(DefaultFieldMapping);
    assert d[0] in d && d[1] in d && d[2] in d && d[3] in d && d[4] in d && d[5] in d && d[6] in d;
  }

  /** The import lines of the WTForms `form` section. */
  const FormImports: seq<string> := [
    "from flask_wtf import FlaskForm",
    ImportLine("wtforms", ["StringField", "TextAreaField", "IntegerField", "FloatField",
      "BooleanField", "DateField", "DateTimeField", "SelectField", "SubmitField"]),
    ImportLine("wtforms.validators", ["DataRequired", "Email", "Length", "NumberRange"])]

  /** A `form` section with the given base class, import lines, field table
      and validator table, and an empty `meta`. */
  function FormSectionOf(base: string, imports: seq<string>, fields: seq<(string, string)>,
                         validators: seq<(string, string)>): Value
  {
    Dict([("base_class", Str(base)), ("imports", List(Strs(imports))),
          ("field_mapping", Dict(StrDict(fields))),
          ("default_validators", Dict(StrDict(validators))), ("meta", Dict([]))])
  }

  /** Every section `FormSectionOf` builds holds its five keys once each. */
  lemma FormSectionOfKeys(base: string, imports: seq<string>, fields: seq<(string, string)>,
                          validators: seq<(string, string)>)
    ensures NoDupKeys(FormSectionOf(base, imports, fields, validators).entries)
    ensures Keys(FormSectionOf(base, imports, fields, validators).entries)
      == {"base_class", "imports", "field_mapping", "default_validators", "meta"}
  {
    var es := FormSectionOf(base, imports, fields, validators).entries;
    assert NoDupKeys(es);
    assert Keys(es) == {"base_class", "imports", "field_mapping", "default_validators", "meta"} by {
      assert es[0] in es && es[1] in es && es[2] in es && es[3] in es && es[4] in es;
    }
  }

  /** Where the arguments of `FormSectionOf` end up. */
  lemma FormSectionOfLookup(base: string, imports: seq<string>, fields: seq<(string, string)>,
                            validators: seq<(string, string)>)
    ensures Lookup(FormSectionOf(base, imports, fields, validators).entries, "base_class")
      == Some(Str(base))
    ensures Lookup(FormSectionOf(base, imports, fields, validators).entries, "imports")
      == Some(List(Strs(imports)))
    ensures Lookup(FormSectionOf(base, imports, fields, validators).entries, "field_mapping")
      == Some(Dict(StrDict(fields)))
    ensures Lookup(FormSectionOf(base, imports, fields, validators).entries, "meta") == Some(Dict([]))
  {
    var es := FormSectionOf(base, imports, fields, validators).entries;
    FormSectionOfKeys(base, imports, fields, validators);
    UniqueLookup(es, 0);
    UniqueLookup(es, 1);
    UniqueLookup(es, 2);
    UniqueLookup(es, 4);
  }

  /** The WTForms `form` section. */
  function FormSection(): Value {
    FormSectionOf("FlaskForm", FormImports, DefaultFieldMapping,
                  [("required", "DataRequired()"), ("email", "Email()")])
  }

  /** The `form` section has its five keys once each, a text base class and
      import lines, a field mapping with an entry for each of the seven
      column families, and a falsy (empty) `meta`, so no `Meta` block by
      default. */
  lemma FormSectionUsable()
    ensures FormSection().Dict? && NoDupKeys(FormSection().entries)
    ensures Keys(FormSection().entries)
      == {"base_class", "imports", "field_mapping", "default_validators", "meta"}
    ensures Lookup(FormSection().entries, "base_class").value.Str?
    ensures TextList(Lookup(FormSection().entries, "imports").value)
    ensures Lookup(FormSection().entries, "field_mapping").value.Dict?
    ensures forall key | key in FamilyKeys ::
      key in Keys(Lookup(FormSection().entries, "field_mapping").value.entries)
    ensures Lookup(FormSection().entries, "meta") == Some(Dict([]))
  {
    FormSectionOfKeys("FlaskForm", FormImports, DefaultFieldMapping,
                      [("required", "DataRequired()"), ("email", "Email()")]);
    FormSectionOfLookup("FlaskForm", FormImports, DefaultFieldMapping,
                        [("required", "DataRequired()"), ("email", "Email()")]);
    StrsText(FormImports);
    DefaultFieldMappingKeys();
  }

  /** The built-in configuration: a model section, a form section and an
      arguments section, in that order. */
  function DefaultConfig(model: Value, form: Value, arguments: Entries): (r: Entries)
    ensures NoDupKeys(r)
    ensures Keys(r) == {"model", "form", "arguments"}
    ensures Lookup(r, "model") == Some(model) && Lookup(r, "form") == Some(form)
    ensures Lookup(r, "arguments") == Some(Dict(arguments))
  {
    var r := [("model", model), ("form", form), ("arguments", Dict(arguments))];
    assert r[0].0 == "model" && r[1].0 == "form" && r[2].0 == "arguments";
    UniqueLookup(r, 0);
    UniqueLookup(r, 1);
    UniqueLookup(r, 2);
    r
  }
}
