/** Names derived from the table and column names: class names
    (`_to_camel_case`, the `Form` suffix, the generic-rename override), form
    labels, and the default output file name. */
module Naming {
  import opened Strings

  function CapitalizeAll(parts: seq<string>): (r: seq<string>)
    ensures |r| == |parts|
    ensures forall i | 0 <= i < |parts| :: r[i] == Capitalize(parts[i])
  {
    seq(|parts|, i requires 0 <= i < |parts| => Capitalize(parts[i]))
  }

  /** `_to_camel_case`: the `_`-separated pieces of `name`, each capitalized,
      joined without separator. */
  function CamelCase(name: string): string
  {
    Concat(CapitalizeAll(Split(name, '_')))
  }

  lemma CapitalizeKeepsOut(p: string, c: char)
    requires c !in p && !IsLetter(c)
    ensures c !in Capitalize(p)
  {
    if |p| > 0 {
      assert Capitalize(p) == [UpperChar(p[0])] + Lower(p[1..]);
      assert p[0] != c;
      forall i | 0 <= i < |p[1..]| ensures Lower(p[1..])[i] != c {
        assert p[1..][i] in p;
      }
    }
  }

  lemma LowerCapitalize(p: string)
    ensures Lower(Capitalize(p)) == Lower(p)
  {
    if |p| > 0 {
      assert Lower(Capitalize(p))[0] == LowerChar(UpperChar(p[0])) == LowerChar(p[0]);
      forall i | 1 <= i < |p| ensures Lower(Capitalize(p))[i] == Lower(p)[i] {
        assert Capitalize(p)[i] == Lower(p[1..])[i - 1] == LowerChar(p[i]);
      }
    }
  }

  lemma {:induction false} ConcatCapitalized(parts: seq<string>)
    requires forall i | 0 <= i < |parts| :: '_' !in parts[i]
    ensures '_' !in Concat(CapitalizeAll(parts))
    ensures Lower(Concat(CapitalizeAll(parts))) == Lower(Concat(parts))
  {
    if |parts| > 0 {
      var caps := CapitalizeAll(parts);
      assert caps[1..] == CapitalizeAll(parts[1..]);
      ConcatCapitalized(parts[1..]);
      CapitalizeKeepsOut(parts[0], '_');
      LowerCapitalize(parts[0]);
      LowerAppend(caps[0], Concat(caps[1..]));
      LowerAppend(parts[0], Concat(parts[1..]));
    }
  }

  /** The CamelCase name has no `_` left, and it spells the name without its
      underscores, letter for letter up to case. */
  lemma CamelCaseSpec(name: string)
    ensures '_' !in CamelCase(name)
    ensures |CamelCase(name)| == |Remove(name, '_')|
    ensures Lower(CamelCase(name)) == Lower(Remove(name, '_'))
  {
    ConcatCapitalized(Split(name, '_'));
    ConcatSplit(name, '_');
  }

  /** A piece without `_` is capitalized: its first letter upper-cased and
      the rest lower-cased. */
  lemma CamelCaseWord(w: string)
    requires '_' !in w
    ensures CamelCase(w) == Capitalize(w)
    ensures |w| > 0 ==> CamelCase(w)[0] == UpperChar(w[0]) && CamelCase(w)[1..] == Lower(w[1..])
  {
    SplitFree(w, '_');
    assert CapitalizeAll([w]) == [Capitalize(w)];
    assert Concat([Capitalize(w)]) == Capitalize(w) + Concat([]);
  }

  /** Each `_` separates pieces that are converted independently and then
      joined without separator. */
  lemma CamelCaseJoin(a: string, b: string)
    ensures CamelCase(a + "_" + b) == CamelCase(a) + CamelCase(b)
  {
    SplitAround(a, b, '_');
    var p := Split(a, '_');
    var q := Split(b, '_');
    assert CapitalizeAll(p + q) == CapitalizeAll(p) + CapitalizeAll(q);
    ConcatAppend(CapitalizeAll(p), CapitalizeAll(q));
  }

  /** The form label of a column: `name.replace('_', ' ').title()`. Each
      underscore becomes a space, a letter is upper-case exactly when it
      starts a run of letters, and the text is the name's up to case. */
  function Label(name: string): (r: string)
    ensures |r| == |name|
    ensures forall i | 0 <= i < |name| :: (name[i] == '_' || name[i] == ' ') <==> r[i] == ' '
    ensures forall i | 0 <= i < |name| && IsLetter(name[i]) ::
      IsUpper(r[i]) <==> (i == 0 || !IsLetter(name[i - 1]))
    ensures Lower(r) == Lower(ReplaceChar(name, '_', ' '))
  {
    var spaced := ReplaceChar(name, '_', ' ');
    TitlePointwise(spaced, false);
    var r := Title(spaced);
    assert r == TitleFrom(spaced, false);
    forall i | 0 <= i < |name| ensures LowerChar(r[i]) == LowerChar(spaced[i]) {
      CaseRoundTrip(spaced[i]);
      assert r[i] == (if (if i == 0 then false else IsLetter(spaced[i - 1]))
                      then LowerChar(spaced[i]) else UpperChar(spaced[i]));
    }
    r
  }

  /** The file name used when no output path is given: the table name, then
      `_model` for model-only or `_form` for form-only output, then `.py`. */
  function DefaultOutputName(table: string, onlyModel: bool, onlyForm: bool): (r: string)
    ensures StartsWith(r, table)
    ensures r[|table|..] == if onlyModel then "_model.py" else if onlyForm then "_form.py" else ".py"
  {
    var suffix := if onlyModel then "_model" else if onlyForm then "_form" else "";
    assert (table + suffix + ".py")[..|table|] == table;
    table + suffix + ".py"
  }

  /** The three generation modes never share a default file name. */
  lemma DefaultOutputNamesDistinct(table: string)
    ensures DefaultOutputName(table, true, false) != DefaultOutputName(table, false, true)
    ensures DefaultOutputName(table, true, false) != DefaultOutputName(table, false, false)
    ensures DefaultOutputName(table, false, true) != DefaultOutputName(table, false, false)
  {
    var m := DefaultOutputName(table, true, false);
    var f := DefaultOutputName(table, false, true);
    var b := DefaultOutputName(table, false, false);
    assert m[|table|..] != f[|table|..] by { assert m[|table|..][1] == 'm'; }
    assert |m| != |b|;
    assert |f| != |b|;
  }
}
