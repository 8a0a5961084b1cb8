/** Text assembly shared by both variants: `generate_model` and
    `generate_form` with their field-line loops, and the output file layout
    of `generate_file`. The library variant (`core.py`) indents class bodies
    with a tab, adds an `__all__` line and an optional submit line; the
    console variant (`generator.py`) indents with four spaces and always adds
    a fixed submit line. */
module Emission {
  import opened Wrappers
  import opened Strings
  import opened Values
  import opened TypeMapping
  import Naming

  /** Which of the two implementations is being followed. */
  datatype Variant = Library | Console

  /** The indentation of a field line inside a class body. */
  function Indent(variant: Variant): string {
    match variant
    case Library => "\t"
    case Console => "    "
  }

  /** The indentation of an entry of the nested `Meta` class. */
  function MetaIndent(variant: Variant): string {
    match variant
    case Library => "\t\t"
    case Console => "        "
  }

  /** Python values that `x in v` can search. */
  predicate Iterable(v: Value) {
    v.List? || v.Str? || v.Dict?
  }

  /** Python `name in v`: list membership, substring test on a string, key
      test on a dict. */
  predicate Member(name: string, v: Value)
    requires Iterable(v)
  {
    match v
    case List(xs) => Str(name) in xs
    case Str(s) => Contains(s, name)
    case Dict(es) => name in Keys(es)
  }

  /** Python `name in v`, which raises `TypeError` on a value that is not
      iterable. */
  function InContainer(name: string, v: Value): (r: Result<bool>)
    ensures r.Ok? <==> Iterable(v)
    ensures r.Ok? ==> r.value == Member(name, v)
  {
    if Iterable(v) then Ok(Member(name, v))
    else Err(TypeError("argument of type is not iterable"))
  }

  /** An f-string placeholder `{v}` for the values this model renders. */
  function RenderValue(v: Value): (r: Result<string>)
    ensures r.Ok? <==> Render(v).Some?
    ensures r.Ok? ==> r.value == Render(v).value
  {
    match Render(v)
    case Some(s) => Ok(s)
    case None => Err(TypeError("container values are not rendered"))
  }

  function AllStrings(xs: seq<Value>): bool {
    forall i | 0 <= i < |xs| :: xs[i].Str?
  }

  /** Python `"\n".join(v)`: the items of a list (all strings), the characters
      of a string, or the keys of a dict, one per line. */
  function JoinLines(v: Value): (r: Result<string>)
    ensures r.Ok? <==> (v.List? && AllStrings(v.items)) || v.Str? || v.Dict?
  {
    match v
    case List(xs) =>
      if AllStrings(xs) then Ok(Join("\n", seq(|xs|, i requires 0 <= i < |xs| => xs[i].s)))
      else Err(TypeError("sequence item: expected str instance"))
    case Str(s) => Ok(Join("\n", seq(|s|, i requires 0 <= i < |s| => [s[i]])))
    case Dict(es) => Ok(Join("\n", seq(|es|, i requires 0 <= i < |es| => es[i].0)))
    case _ => Err(TypeError("can only join an iterable"))
  }

  const PrimaryKeyParam := "primary_key=True"
  const NotNullParam := "nullable=False"

  function DefaultParam(d: string): string {
    "default=" + d
  }

  /** Position of a column parameter in the fixed order primary key,
      not-null, default. */
  function ParamRank(p: string): nat {
    if p == PrimaryKeyParam then 0 else if p == NotNullParam then 1 else 2
  }

  /** The parameter list of a model field, in the order primary key,
      not-null, default, each at most once. */
  function ColumnParams(c: Column): (ps: seq<string>)
    ensures PrimaryKeyParam in ps <==> c.primaryKey
    ensures NotNullParam in ps <==> !c.nullable
    ensures c.default.Some? ==> DefaultParam(c.default.value) in ps
    ensures c.default.None? ==> forall i | 0 <= i < |ps| :: ParamRank(ps[i]) != 2
    ensures forall i, j | 0 <= i < j < |ps| :: ParamRank(ps[i]) < ParamRank(ps[j])
  {
    assert DefaultParam(if c.default.Some? then c.default.value else "")[0] == 'd';
    assert ParamRank(PrimaryKeyParam) == 0 && ParamRank(NotNullParam) == 1;
    (if c.primaryKey then [PrimaryKeyParam] else [])
    + (if !c.nullable then [NotNullParam] else [])
    + (match c.default case Some(d) => [DefaultParam(d)] case None => [])
  }

  /** `, ` and the joined parameters, or nothing when there are none. */
  function ParamsSuffix(ps: seq<string>): (r: string)
    ensures r == "" <==> ps == []
  {
    if ps == [] then "" else ", " + Join(", ", ps)
  }

  /** The start of a model field line: the column name and the `Column(`
      call (behind `db.` for Flask-SQLAlchemy) around the storage token. */
  function ModelFieldHead(variant: Variant, c: Column, classic: bool): string {
    Indent(variant) + c.name + " = " + Spelled("Column(", classic)
    + StorageType(c.typeName, c.length, classic)
  }

  /** A line made of a head, a middle and an end, each of which can be
      sliced back out of it. */
  function Assemble(head: string, mid: string, end: string): (s: string)
    ensures |s| == |head| + |mid| + |end|
    ensures s[..|head|] == head && s[|head|..|s| - |end|] == mid && s[|s| - |end|..] == end
  {
    head + (mid + end)
  }

  /** One model field line: the head, the parameters when there are any,
      and the closing `)` with a line break. */
  function ModelFieldLine(variant: Variant, c: Column, classic: bool): (r: string)
    ensures var head := ModelFieldHead(variant, c, classic);
            var params := ParamsSuffix(ColumnParams(c));
            |r| == |head| + |params| + 2
            && r[..|head|] == head && r[|head|..|r| - 2] == params && r[|r| - 2..] == ")\n"
  {
    var head := ModelFieldHead(variant, c, classic);
    var params := ParamsSuffix(ColumnParams(c));
    Assemble(head, params, ")\n")
  }

  /** The Flask-SQLAlchemy field line is the classic one with `db.` put
      before `Column(` and before the storage token. */
  lemma ModelFieldSpellings(variant: Variant, c: Column)
    ensures var head := Indent(variant) + c.name + " = ";
            var classicLine := ModelFieldLine(variant, c, true);
            |classicLine| >= |head| + 7
            && ModelFieldLine(variant, c, false) == head + "db." + "Column(" + "db." + classicLine[|head| + 7..]
  {
    var head := Indent(variant) + c.name + " = ";
    var tail := ParamsSuffix(ColumnParams(c)) + ")\n";
    var token := StorageType(c.typeName, c.length, true);
    ModelFieldLineParts(variant, c, true);
    ModelFieldLineParts(variant, c, false);
    StorageSpellings(c.typeName, c.length);
    assert ModelFieldHead(variant, c, true) == head + "Column(" + token;
    assert ModelFieldHead(variant, c, false) == head + ("db." + "Column(") + ("db." + token);
    Respelled(head, token, tail);
  }

  lemma ModelFieldLineParts(variant: Variant, c: Column, classic: bool)
    ensures ModelFieldLine(variant, c, classic)
            == ModelFieldHead(variant, c, classic) + (ParamsSuffix(ColumnParams(c)) + ")\n")
  {
    assert Assemble(ModelFieldHead(variant, c, classic), ParamsSuffix(ColumnParams(c)), ")\n")
           == ModelFieldHead(variant, c, classic) + (ParamsSuffix(ColumnParams(c)) + ")\n");
  }

  lemma Respelled(head: string, token: string, tail: string)
    ensures var classicLine := (head + "Column(" + token) + tail;
            |classicLine| >= |head| + 7
            && (head + ("db." + "Column(") + ("db." + token)) + tail
               == head + "db." + "Column(" + "db." + classicLine[|head| + 7..]
  {
    var classicLine := (head + "Column(" + token) + tail;
    assert classicLine[|head| + 7..] == token + tail;
  }

  /** A model field line ends right after the storage token exactly when the
      column is a nullable non-key without a default; a primary key puts
      `primary_key=True` first among the parameters. */
  lemma ModelFieldLineParams(variant: Variant, c: Column, classic: bool)
    ensures var head := ModelFieldHead(variant, c, classic);
            var line := ModelFieldLine(variant, c, classic);
            (line == head + ")\n" <==> !c.primaryKey && c.nullable && c.default.None?)
            && (c.primaryKey ==> StartsWith(line[|head|..], ", " + PrimaryKeyParam))
  {
    var head := ModelFieldHead(variant, c, classic);
    var line := ModelFieldLine(variant, c, classic);
    var params := ParamsSuffix(ColumnParams(c));
    ModelFieldLineParts(variant, c, classic);
    ColumnParamsEmpty(c);
    BareLine(head, params, ")\n");
    if c.primaryKey {
      PrimaryKeySuffix(c);
      StartsWithTrans(line[|head|..], params, ", " + PrimaryKeyParam);
    }
  }

  lemma PrimaryKeySuffix(c: Column)
    requires c.primaryKey
    ensures StartsWith(ParamsSuffix(ColumnParams(c)), ", " + PrimaryKeyParam)
  {
    var ps := ColumnParams(c);
    PrimaryKeyFirst(c);
    JoinStartsWithFirst(", ", ps);
    assert ParamsSuffix(ps) == ", " + Join(", ", ps);
  }

  lemma StartsWithTrans(s: string, p: string, q: string)
    requires StartsWith(s, p) && StartsWith(p, q)
    ensures StartsWith(s, q)
  {
    assert s[..|q|] == p[..|q|];
  }

  /** No parameters exactly for a nullable non-key column without a default. */
  lemma ColumnParamsEmpty(c: Column)
    ensures ColumnParams(c) == [] <==> !c.primaryKey && c.nullable && c.default.None?
  {
  }

  lemma PrimaryKeyFirst(c: Column)
    requires c.primaryKey
    ensures |ColumnParams(c)| > 0 && ColumnParams(c)[0] == PrimaryKeyParam
  {
    var ps := ColumnParams(c);
    var k :| 0 <= k < |ps| && ps[k] == PrimaryKeyParam;
    assert ParamRank(ps[k]) == 0;
  }

  /** The middle of `head + mid + end` is empty exactly when the whole is
      `head + end`, and the text after `head` starts with the middle. */
  lemma BareLine(head: string, mid: string, end: string)
    ensures head + (mid + end) == head + end <==> mid == ""
    ensures var s := head + (mid + end); StartsWith(s[|head|..], mid)
  {
    var s := head + (mid + end);
    assert s[|head|..] == mid + end;
    if head + (mid + end) == head + end {
      assert |mid| == 0;
    }
  }

  lemma JoinStartsWithFirst(sep: string, parts: seq<string>)
    requires |parts| > 0
    ensures StartsWith(Join(sep, parts), parts[0])
  {
    if |parts| > 1 {
      assert Join(sep, parts) == parts[0] + (sep + Join(sep, parts[1..]));
    }
  }

  /** The columns that survive the `exclude_columns` filter, in input order. */
  function Kept(cols: seq<Column>, exclude: Value): (r: seq<Column>)
    requires Iterable(exclude)
    ensures forall c :: c in r <==> c in cols && !Member(c.name, exclude)
    ensures |r| <= |cols|
  {
    if |cols| == 0 then []
    else (if Member(cols[0].name, exclude) then [] else [cols[0]]) + Kept(cols[1..], exclude)
  }

  /** The filter keeps input order: filtering a concatenation concatenates
      the filtered parts. */
  lemma {:induction false} KeptAppend(a: seq<Column>, b: seq<Column>, exclude: Value)
    requires Iterable(exclude)
    ensures Kept(a + b, exclude) == Kept(a, exclude) + Kept(b, exclude)
  {
    if |a| > 0 {
      assert (a + b)[1..] == a[1..] + b;
      KeptAppend(a[1..], b, exclude);
    } else {
      assert a + b == b;
    }
  }

  /** One model field line per column, in order. */
  function ModelLinesFor(variant: Variant, cols: seq<Column>, classic: bool): (r: seq<string>)
    ensures |r| == |cols|
    ensures forall i | 0 <= i < |cols| :: r[i] == ModelFieldLine(variant, cols[i], classic)
  {
    seq(|cols|, i requires 0 <= i < |cols| => ModelFieldLine(variant, cols[i], classic))
  }

  /** The field-line loop of `generate_model`: one line per column not
      excluded, in input order. Testing the first column against a value that
      is not iterable raises `TypeError`; an iterable one never fails. */
  function ModelFieldLines(variant: Variant, cols: seq<Column>, exclude: Value, classic: bool)
    : (r: Result<seq<string>>)
    ensures r.Ok? <==> (cols == [] || Iterable(exclude))
    ensures r.Ok? && Iterable(exclude) ==> r.value == ModelLinesFor(variant, Kept(cols, exclude), classic)
    ensures r.Ok? && cols == [] ==> r.value == []
  {
    if cols == [] then Ok([])
    else
      var _ :- InContainer(cols[0].name, exclude);
      Ok(ModelLinesFor(variant, Kept(cols, exclude), classic))
  }

  /** The columns that get a form field: neither excluded nor primary key. */
  function FormColumns(cols: seq<Column>, exclude: Value): (r: seq<Column>)
    requires Iterable(exclude)
    ensures forall c :: c in r <==> c in cols && !Member(c.name, exclude) && !c.primaryKey
  {
    if |cols| == 0 then []
    else
      (if Member(cols[0].name, exclude) || cols[0].primaryKey then [] else [cols[0]])
      + FormColumns(cols[1..], exclude)
  }

  function NonKeys(cols: seq<Column>): (r: seq<Column>)
  {
    if |cols| == 0 then [] else (if cols[0].primaryKey then [] else [cols[0]]) + NonKeys(cols[1..])
  }

  /** An excluded column is skipped identically by both blocks: the form's
      columns are the model's columns without the primary keys, and the
      counts add up. */
  lemma {:induction false} FormColumnsAreKeptNonKeys(cols: seq<Column>, exclude: Value)
    requires Iterable(exclude)
    ensures FormColumns(cols, exclude) == NonKeys(Kept(cols, exclude))
    ensures |FormColumns(cols, exclude)| <= |Kept(cols, exclude)|
  {
    if |cols| > 0 {
      FormColumnsAreKeptNonKeys(cols[1..], exclude);
      var head := if Member(cols[0].name, exclude) then [] else [cols[0]];
      NonKeysAppend(head, Kept(cols[1..], exclude));
    }
  }

  lemma {:induction false} NonKeysAppend(a: seq<Column>, b: seq<Column>)
    ensures NonKeys(a + b) == NonKeys(a) + NonKeys(b)
    ensures |NonKeys(a)| <= |a|
  {
    if |a| > 0 {
      assert (a + b)[1..] == a[1..] + b;
      NonKeysAppend(a[1..], b);
    } else {
      assert a + b == b;
    }
  }

  /** The label translator: enabled when `translate_labels` is truthy, with the
      external service returning `None` where it would raise. */
  datatype Translator = Translator(enabled: bool, service: string -> Option<string>)

  /** `_translate`: the service's translation, or the text unchanged when
      translation is off or the service fails. */
  function Translate(t: Translator, text: string): (r: string)
    ensures !t.enabled ==> r == text
    ensures t.enabled && t.service(text).None? ==> r == text
    ensures t.enabled && t.service(text).Some? ==> r == t.service(text).value
  {
    if !t.enabled then text
    else match t.service(text)
      case Some(translated) => translated
      case None => text
  }

  /** The validators argument of a form field, or nothing without validators. */
  function ValidatorsSuffix(vs: seq<string>): (r: string)
    ensures r == "" <==> vs == []
  {
    if vs == [] then "" else ", validators=[" + Join(", ", vs) + "]"
  }

  /** One form field line: the column name, the field class the mapping
      gives the column's family, the (possibly translated) label as the first
      argument, the validators when there are any, and a line break. The
      field mapping entry for the column's family must exist. */
  function FormFieldLine(variant: Variant, c: Column, fieldMapping: Value, t: Translator)
    : (r: Result<string>)
    ensures r.Ok? <==> (FieldType(c.typeName, fieldMapping).Ok?
                        && Render(FieldType(c.typeName, fieldMapping).value).Some?)
    ensures r.Ok? ==>
      StartsWith(r.value, Indent(variant) + c.name + " = "
                          + Render(FieldType(c.typeName, fieldMapping).value).value
                          + "('" + Translate(t, Naming.Label(c.name)) + "'")
    ensures r.Ok? ==>
      var tail := ValidatorsSuffix(Validators(c)) + ")\n";
      |r.value| >= |tail| && r.value[|r.value| - |tail|..] == tail
  {
    var ft :- FieldType(c.typeName, fieldMapping);
    var field :- RenderValue(ft);
    var caption := Translate(t, Naming.Label(c.name));
    var head := Indent(variant) + c.name + " = " + field + "('" + caption + "'";
    var tail := ValidatorsSuffix(Validators(c)) + ")\n";
    assert (head + tail)[..|head|] == head;
    assert (head + tail)[|head + tail| - |tail|..] == tail;
    Ok(head + tail)
  }

  /** A written form field line closes right after the label, with `')`,
      exactly when the column gets no validators; a required column lists
      `DataRequired()` first. */
  lemma FormFieldLineValidators(variant: Variant, c: Column, fieldMapping: Value, t: Translator)
    requires FormFieldLine(variant, c, fieldMapping, t).Ok?
    ensures var line := FormFieldLine(variant, c, fieldMapping, t).value;
            (|line| >= 3 && line[|line| - 3..] == "')\n") <==> Validators(c) == []
    ensures !c.nullable && !c.primaryKey ==>
      StartsWith(ValidatorsSuffix(Validators(c)), ", validators=[" + Required)
  {
    var line := FormFieldLine(variant, c, fieldMapping, t).value;
    var head := FormFieldHead(variant, c, fieldMapping, t);
    FormFieldLineSplit(variant, c, fieldMapping, t);
    ClosingAfterLabel(head, Validators(c));
    if !c.nullable && !c.primaryKey {
      RequiredFirst(c);
    }
  }

  /** The part of a written form field line before the validators. */
  function FormFieldHead(variant: Variant, c: Column, fieldMapping: Value, t: Translator): string
    requires FormFieldLine(variant, c, fieldMapping, t).Ok?
  {
    Indent(variant) + c.name + " = " + Render(FieldType(c.typeName, fieldMapping).value).value
    + "('" + Translate(t, Naming.Label(c.name)) + "'"
  }

  lemma FormFieldLineSplit(variant: Variant, c: Column, fieldMapping: Value, t: Translator)
    requires FormFieldLine(variant, c, fieldMapping, t).Ok?
    ensures FormFieldLine(variant, c, fieldMapping, t).value
            == FormFieldHead(variant, c, fieldMapping, t) + (ValidatorsSuffix(Validators(c)) + ")\n")
  {
  }

  lemma ClosingAfterLabel(head: string, vs: seq<string>)
    requires |head| > 0 && head[|head| - 1] == '\''
    ensures var line := head + (ValidatorsSuffix(vs) + ")\n");
            (|line| >= 3 && line[|line| - 3..] == "')\n") <==> vs == []
  {
    var line := head + (ValidatorsSuffix(vs) + ")\n");
    if vs == [] {
      assert line[|line| - 3..] == [head[|head| - 1]] + ")\n";
    } else {
      var inner := ", validators=[" + Join(", ", vs);
      assert line == (head + inner) + "])\n";
      assert line[|line| - 3] == ']';
    }
  }

  lemma RequiredFirst(c: Column)
    requires !c.nullable && !c.primaryKey
    ensures StartsWith(ValidatorsSuffix(Validators(c)), ", validators=[" + Required)
  {
    var vs := Validators(c);
    assert vs[0] == Required by {
      var k :| 0 <= k < |vs| && vs[k] == Required;
      assert ValidatorRank(vs[k]) == 0;
    }
    JoinStartsWithFirst(", ", vs);
    assert ValidatorsSuffix(vs) == ", validators=[" + Join(", ", vs) + "]";
  }

  /** A loop producing one line per column, in order, that stops at the
      first column whose line cannot be produced. */
  function LinesFor(cols: seq<Column>, line: Column -> Result<string>): (r: Result<seq<string>>)
    ensures r.Ok? ==> |r.value| == |cols|
  {
    if cols == [] then Ok([])
    else
      var first :- line(cols[0]);
      var rest :- LinesFor(cols[1..], line);
      Ok([first] + rest)
  }

  /** Such a loop succeeds exactly when every column's line can be produced,
      and then holds those lines in column order. */
  lemma {:induction false} LinesForSpec(cols: seq<Column>, line: Column -> Result<string>)
    ensures LinesFor(cols, line).Ok? <==> forall i | 0 <= i < |cols| :: line(cols[i]).Ok?
    ensures LinesFor(cols, line).Ok? ==>
      forall i | 0 <= i < |cols| :: line(cols[i]) == Ok(LinesFor(cols, line).value[i])
  {
    if cols != [] {
      LinesForSpec(cols[1..], line);
      assert forall i | 1 <= i < |cols| :: cols[1..][i - 1] == cols[i];
    }
  }

  /** The form field lines of the given columns, in order. */
  function FormLinesFor(variant: Variant, cols: seq<Column>, fieldMapping: Value, t: Translator)
    : (r: Result<seq<string>>)
    ensures r.Ok? ==> |r.value| == |cols|
  {
    LinesFor(cols, c => FormFieldLine(variant, c, fieldMapping, t))
  }

  /** The form loop succeeds exactly when every column's field line can be
      written, and then holds those lines in column order. */
  lemma FormLinesForSpec(variant: Variant, cols: seq<Column>, fieldMapping: Value, t: Translator)
    ensures FormLinesFor(variant, cols, fieldMapping, t).Ok?
            <==> forall i | 0 <= i < |cols| :: FormFieldLine(variant, cols[i], fieldMapping, t).Ok?
    ensures FormLinesFor(variant, cols, fieldMapping, t).Ok? ==>
      forall i | 0 <= i < |cols| ::
        FormFieldLine(variant, cols[i], fieldMapping, t) == Ok(FormLinesFor(variant, cols, fieldMapping, t).value[i])
  {
    LinesForSpec(cols, c => FormFieldLine(variant, c, fieldMapping, t));
  }

  /** The field-line loop of `generate_form`: one line per column that is
      neither excluded nor a primary key, in input order. As in the model
      loop, only a non-iterable exclusion value makes the membership test
      fail, and then it fails on the first column. */
  function FormFieldLines(variant: Variant, cols: seq<Column>, exclude: Value,
                          fieldMapping: Value, t: Translator): (r: Result<seq<string>>)
    ensures cols == [] ==> r == Ok([])
    ensures cols != [] && !Iterable(exclude) ==> r.Err? && r.error.TypeError?
    ensures Iterable(exclude) ==> r == FormLinesFor(variant, FormColumns(cols, exclude), fieldMapping, t)
  {
    if cols == [] then Ok([])
    else
      var _ :- InContainer(cols[0].name, exclude);
      FormLinesFor(variant, FormColumns(cols, exclude), fieldMapping, t)
  }

  /** The entries of the nested `Meta` class, one line per entry in dict
      order. */
  function MetaLines(variant: Variant, meta: Entries): (r: Result<seq<string>>)
    ensures r.Ok? <==> forall i | 0 <= i < |meta| :: Render(meta[i].1).Some?
    ensures r.Ok? ==> (|r.value| == |meta|
      && forall i | 0 <= i < |meta| ::
           r.value[i] == MetaIndent(variant) + meta[i].0 + " = " + Render(meta[i].1).value + "\n")
  {
    if |meta| == 0 then Ok([])
    else
      var v :- RenderValue(meta[0].1);
      var rest :- MetaLines(variant, meta[1..]);
      assert forall i | 1 <= i < |meta| :: meta[1..][i - 1] == meta[i];
      Ok([MetaIndent(variant) + meta[0].0 + " = " + v + "\n"] + rest)
  }

  /** The opening of the nested `Meta` class. */
  const MetaHeader := "\n    class Meta:\n"

  /** The `Meta` block: nothing when `meta` is falsy, otherwise a header and
      one line per entry; a truthy value without `.items()` raises. */
  function MetaBlock(variant: Variant, meta: Value): (r: Result<string>)
    ensures !Truthy(meta) ==> r == Ok("")
    ensures Truthy(meta) && !meta.Dict? ==> r.Err? && r.error.AttributeError?
    ensures Truthy(meta) && meta.Dict? ==> (r.Ok? <==> MetaLines(variant, meta.entries).Ok?)
    ensures Truthy(meta) && meta.Dict? && r.Ok? ==>
      r.value == MetaHeader + Concat(MetaLines(variant, meta.entries).value)
  {
    if !Truthy(meta) then Ok("")
    else if !meta.Dict? then Err(AttributeError("object has no attribute 'items'"))
    else
      var lines :- MetaLines(variant, meta.entries);
      Ok(MetaHeader + Concat(lines))
  }

  /** The fixed submit line of the console variant. */
  const ConsoleSubmitLine := "    submit = SubmitField('Отправить')\n"

  /** The submit line of the form: optional in the library variant (present
      when `submit` is not `None`, with the value as the button caption),
      fixed in the console variant. */
  function SubmitLine(variant: Variant, submit: Value): (r: Result<string>)
    ensures variant == Library ==> (r == Ok("") <==> submit == Null)
    ensures variant == Library && submit != Null ==> (r.Ok? <==> Render(submit).Some?)
    ensures variant == Library && submit != Null && Render(submit).Some? ==>
      r == Ok("    submit = SubmitField(\"" + Render(submit).value + "\")\n")
    ensures variant == Console ==> r == Ok(ConsoleSubmitLine)
  {
    match variant
    case Library =>
      if submit == Null then Ok("")
      else
        var text :- RenderValue(submit);
        Ok("    submit = SubmitField(\"" + text + "\")\n")
    case Console => Ok(ConsoleSubmitLine)
  }

  /** The section `config[name]` of the merged configuration. */
  function Section(config: Entries, name: string): Result<Value> {
    Index(Dict(config), name)
  }

  /** The value `config[section][key]`. */
  function Setting(config: Entries, section: string, key: string): Result<Value> {
    var s :- Section(config, section);
    Index(s, key)
  }

  /** The class name `generate_model` (suffix empty) or `generate_form`
      (suffix `Form`) uses: the generic name `generate_file` passes under
      `default_rename`, otherwise the CamelCase table name and the suffix.
      `_to_camel_case` calls `.split` on the table name, so a value that is
      not text raises `AttributeError`. */
  function ClassName(defaultRename: bool, generic: string, table: Value, suffix: string)
    : (r: Result<string>)
    ensures defaultRename ==> r == Ok(generic)
    ensures !defaultRename ==> (r.Ok? <==> table.Str?)
    ensures !defaultRename && !table.Str? ==> r.Err? && r.error.AttributeError?
    ensures !defaultRename && table.Str? ==> r == Ok(Naming.CamelCase(table.s) + suffix)
  {
    if defaultRename then Ok(generic)
    else if table.Str? then Ok(Naming.CamelCase(table.s) + suffix)
    else Err(AttributeError("object has no attribute 'split'"))
  }

  /** `generate_model(class_name)` as `generate_file` calls it: the class
      name is derived first; the table name itself is only rendered into
      `__tablename__`. */
  function ModelBlock(variant: Variant, defaultRename: bool, table: Value, config: Entries,
                      cols: seq<Column>, classic: bool): (r: Result<string>)
    ensures !defaultRename && !table.Str? ==> r.Err? && r.error.AttributeError?
    ensures r.Ok? ==> r.value != []
  {
    var className :- ClassName(defaultRename, "Model", table, "");
    var tableText :- RenderValue(table);
    ModelCode(variant, className, tableText, config, cols, classic)
  }

  /** For a text table name the model block is the model code for the
      generic or the CamelCase class name, with the table name as
      `__tablename__`. */
  lemma ModelBlockOfText(variant: Variant, defaultRename: bool, table: string, config: Entries,
                         cols: seq<Column>, classic: bool)
    ensures ModelBlock(variant, defaultRename, Str(table), config, cols, classic)
      == ModelCode(variant, if defaultRename then "Model" else Naming.CamelCase(table),
                   table, config, cols, classic)
  {
    var name := if defaultRename then "Model" else Naming.CamelCase(table);
    assert Naming.CamelCase(table) + "" == Naming.CamelCase(table);
    assert ClassName(defaultRename, "Model", Str(table), "") == Ok(name);
    assert RenderValue(Str(table)) == Ok(table);
  }

  /** `generate_form(class_name)` as `generate_file` calls it: the generic
      `Form`, or the CamelCase table name followed by `Form`. */
  function FormBlock(variant: Variant, defaultRename: bool, table: Value, config: Entries,
                     cols: seq<Column>, submit: Value, t: Translator): (r: Result<string>)
    ensures !defaultRename && !table.Str? ==> r.Err? && r.error.AttributeError?
    ensures defaultRename || table.Str? ==>
      r == FormCode(variant, if defaultRename then "Form" else Naming.CamelCase(table.s) + "Form",
                    config, cols, submit, t)
    ensures r.Ok? ==> r.value != []
  {
    var className :- ClassName(defaultRename, "Form", table, "Form");
    FormCode(variant, className, config, cols, submit, t)
  }

  /** `generate_model` once the class name is fixed and the columns are known. */
  function ModelCode(variant: Variant, className: string, tableName: string, config: Entries,
                     cols: seq<Column>, classic: bool): (r: Result<string>)
    ensures r.Ok? ==> r.value != []
  {
    var importsValue :- Setting(config, "model", "imports");
    var imports :- JoinLines(importsValue);
    var baseValue :- Setting(config, "model", "base_class");
    var base :- RenderValue(baseValue);
    var lines :- if cols == [] then Ok([])
                 else
                   var exclude :- Setting(config, "model", "exclude_columns");
                   var _ :- if Iterable(exclude) && Kept(cols, exclude) != []
                            then Setting(config, "model", "type_mapping") else Ok(Null);
                   ModelFieldLines(variant, cols, exclude, classic);
    Ok(imports + "\n\n"
       + (if classic then "" else "db = SQLAlchemy()\n\n")
       + (if variant == Library then "__all__ = ['" + className + "']\n\n\n" else "")
       + "class " + className + "(" + base + "):\n"
       + Indent(variant) + "__tablename__ = '" + tableName + "'\n"
       + Concat(lines)
       + "\n    def __repr__(self):\n"
       + "        return f'<" + className + " {self.id}>'\n")
  }

  /** `generate_form` once the class name is fixed and the columns are known. */
  function FormCode(variant: Variant, className: string, config: Entries, cols: seq<Column>,
                    submit: Value, t: Translator): (r: Result<string>)
    ensures r.Ok? ==> r.value != []
  {
    var importsValue :- Setting(config, "form", "imports");
    var imports :- JoinLines(importsValue);
    var baseValue :- Setting(config, "form", "base_class");
    var base :- RenderValue(baseValue);
    var lines :- if cols == [] then Ok([])
                 else
                   var exclude :- Setting(config, "model", "exclude_columns");
                   FormLinesWith(variant, cols, exclude, config, t);
    var submitLine :- SubmitLine(variant, submit);
    var metaValue :- Setting(config, "form", "meta");
    var meta :- MetaBlock(variant, metaValue);
    Ok(imports + "\n\n"
       + (if variant == Library then "__all__ = ['" + className + "']\n\n\n" else "")
       + "class " + className + "(" + base + "):\n"
       + Concat(lines) + submitLine + meta)
  }

  /** The form loop, with the field mapping looked up only when a column
      gets a field: an exclusion value that cannot be searched fails on the
      first column before any field type is asked for, and with no surviving
      column the mapping is never read. */
  function FormLinesWith(variant: Variant, cols: seq<Column>, exclude: Value, config: Entries,
                         t: Translator): (r: Result<seq<string>>)
    ensures cols != [] && !Iterable(exclude) ==> r.Err? && r.error.TypeError?
    ensures Iterable(exclude) && FormColumns(cols, exclude) == [] ==> r == Ok([])
    ensures NeedsFieldMapping(cols, exclude) ==>
      (r.Ok? <==> Setting(config, "form", "field_mapping").Ok?
                  && FormLinesFor(variant, FormColumns(cols, exclude),
                                  Setting(config, "form", "field_mapping").value, t).Ok?)
    ensures NeedsFieldMapping(cols, exclude) && r.Ok? ==>
      r == FormLinesFor(variant, FormColumns(cols, exclude), Setting(config, "form", "field_mapping").value, t)
  {
    if NeedsFieldMapping(cols, exclude) then
      var fieldMapping :- Setting(config, "form", "field_mapping");
      FormFieldLines(variant, cols, exclude, fieldMapping, t)
    else FormFieldLines(variant, cols, exclude, Dict([]), t)
  }

  /** Some column survives both form filters, so the field mapping is read. */
  predicate NeedsFieldMapping(cols: seq<Column>, exclude: Value) {
    Iterable(exclude) && FormColumns(cols, exclude) != []
  }

  /** `generate_file`'s choice of blocks: the model unless `only_form`, the
      form unless `only_model`; a block not asked for is the empty string and
      is never generated, so its errors cannot surface. */
  function SelectBlocks(onlyModel: bool, onlyForm: bool, model: Result<string>,
                        form: Result<string>): (r: Result<(string, string)>)
    ensures onlyForm && r.Ok? ==> r.value.0 == ""
    ensures onlyModel && r.Ok? ==> r.value.1 == ""
    ensures r.Ok? <==> (onlyForm || model.Ok?) && (onlyModel || form.Ok?)
    ensures r.Ok? && !onlyForm ==> r.value.0 == model.value
    ensures r.Ok? && !onlyModel ==> r.value.1 == form.value
  {
    var m :- if onlyForm then Ok("") else model;
    var f :- if onlyModel then Ok("") else form;
    Ok((m, f))
  }

  /** The first line of every generated file. */
  const FileHeader := "__all__ = []\n\n"

  const ModelComment := "# Модель SQLAlchemy\n"
  const FormComment := "# Форма WTForms\n"

  /** A block as it is written: through `reformat` when `applyReformat`
      holds, verbatim otherwise. */
  function Written(block: string, applyReformat: bool, reformat: string -> string): string {
    if applyReformat then reformat(block) else block
  }

  /** The text `generate_file` writes: a header line, then the model block
      with its comment when it is non-empty, a blank separator when both are
      present, then the form block with its comment. `reformat` is the
      external `tab4` function, applied to each block when `applyReformat`
      holds. */
  function FileContent(model: string, form: string, applyReformat: bool,
                       reformat: string -> string): (r: string)
    ensures StartsWith(r, FileHeader)
    ensures model == "" && form == "" ==> r == FileHeader
    ensures model != "" && form == "" ==>
      r == FileHeader + ModelComment + Written(model, applyReformat, reformat)
    ensures model == "" && form != "" ==>
      r == FileHeader + FormComment + Written(form, applyReformat, reformat)
    ensures model != "" && form != "" ==>
      r == FileHeader + ModelComment + Written(model, applyReformat, reformat) + "\n\n"
           + FormComment + Written(form, applyReformat, reformat)
  {
    var model' := Written(model, applyReformat, reformat);
    var form' := Written(form, applyReformat, reformat);
    FileHeader
    + (if model != "" then ModelComment + model' + (if form != "" then "\n\n" else "") else "")
    + (if form != "" then FormComment + form' else "")
  }
}
