/** The dynamic values the generator's configuration is made of, and the
    Python dict operations the configuration code performs on them. */
module Values {
  import opened Wrappers
  import Strings

  /** A JSON / Python value as found in the parsed config file, the coerced
      environment file and the call-time keyword arguments. A `Float` (a JSON
      number with a fraction or an exponent) is held as the text Python's
      `str()` gives for the parsed float, which is all the generator does
      with one. A `Dict` keeps its entries in insertion order, as a Python
      dict does. */
  datatype Value =
    | Null
    | Bool(b: bool)
    | Int(i: int)
    | Float(text: string)
    | Str(s: string)
    | List(items: seq<Value>)
    | Dict(entries: seq<(string, Value)>)

  /** The entries of a Python dict, in insertion order. */
  type Entries = seq<(string, Value)>

  /** Python truthiness: `None`, `False`, `0` and empty containers are false. */
  predicate Truthy(v: Value) {
    match v
    case Null => false
    case Bool(b) => b
    case Int(i) => i != 0
    case Float(t) => t != "0.0" && t != "-0.0"
    case Str(s) => s != []
    case List(xs) => xs != []
    case Dict(es) => es != []
  }

  /** Python `str(v)` for the scalar values an f-string meets in the
      generator's templates; containers are not rendered. */
  function Render(v: Value): (r: Option<string>)
    ensures r.Some? <==> !v.List? && !v.Dict?
    ensures v.Str? ==> r == Some(v.s)
  {
    match v
    case Null => Some("None")
    case Bool(b) => Some(if b then "True" else "False")
    case Int(i) => Some(Strings.IntToString(i))
    case Float(t) => Some(t)
    case Str(s) => Some(s)
    case List(_) => None
    case Dict(_) => None
  }

  function Keys(d: Entries): set<string> {
    set e | e in d :: e.0
  }

  /** Python dicts never hold a key twice. */
  predicate NoDupKeys(d: Entries) {
    forall i, j | 0 <= i < j < |d| :: d[i].0 != d[j].0
  }

  lemma KeysCons(d: Entries)
    requires |d| > 0
    ensures Keys(d) == {d[0].0} + Keys(d[1..])
  {
    assert d == [d[0]] + d[1..];
  }

  lemma NoDupKeysCons(d: Entries)
    requires |d| > 0
    ensures NoDupKeys(d) <==> d[0].0 !in Keys(d[1..]) && NoDupKeys(d[1..])
  {
    if NoDupKeys(d) {
      forall e | e in d[1..] ensures e.0 != d[0].0 {
        var j :| 0 <= j < |d[1..]| && d[1..][j] == e;
        assert d[j + 1] == e;
      }
    }
    if d[0].0 !in Keys(d[1..]) && NoDupKeys(d[1..]) {
      forall i, j | 0 <= i < j < |d| ensures d[i].0 != d[j].0 {
        if i == 0 {
          assert d[j] in d[1..];
        } else {
          assert d[1..][i - 1] == d[i] && d[1..][j - 1] == d[j];
        }
      }
    }
  }

  /** Python `d.get(k)`: the value stored under `k`, if any. */
  function Lookup(d: Entries, k: string): (r: Option<Value>)
    ensures r.Some? <==> k in Keys(d)
    ensures r.Some? ==> (k, r.value) in d
  {
    if |d| == 0 then None
    else
      KeysCons(d);
      if d[0].0 == k then Some(d[0].1) else Lookup(d[1..], k)
  }

  /** Python `d[k] = v`: an existing key keeps its position and takes the new
      value, a new key is appended. */
  function Set(d: Entries, k: string, v: Value): (r: Entries)
    ensures |r| == if k in Keys(d) then |d| else |d| + 1
    ensures forall i | 0 <= i < |d| :: r[i].0 == d[i].0
    ensures Keys(r) == Keys(d) + {k}
  {
    if |d| == 0 then [(k, v)]
    else
      KeysCons(d);
      var r := if d[0].0 == k then [(k, v)] + d[1..] else [d[0]] + Set(d[1..], k, v);
      KeysCons(r);
      assert r[1..] == if d[0].0 == k then d[1..] else Set(d[1..], k, v);
      r
  }

  /** After `d[k] = v`, `k` holds `v` and every other key is untouched. */
  lemma SetLookup(d: Entries, k: string, v: Value, k': string)
    ensures Lookup(Set(d, k, v), k') == if k' == k then Some(v) else Lookup(d, k')
  {
    if |d| > 0 && d[0].0 != k {
      var r := Set(d, k, v);
      assert r[1..] == Set(d[1..], k, v);
      SetLookup(d[1..], k, v, k');
    } else if |d| > 0 {
      assert Set(d, k, v)[1..] == d[1..];
    }
  }

  lemma SetNoDup(d: Entries, k: string, v: Value)
    requires NoDupKeys(d)
    ensures NoDupKeys(Set(d, k, v))
  {
    if |d| > 0 {
      NoDupKeysCons(d);
      var r := Set(d, k, v);
      NoDupKeysCons(r);
      if d[0].0 != k {
        assert r[1..] == Set(d[1..], k, v);
        SetNoDup(d[1..], k, v);
      } else {
        assert r[1..] == d[1..];
      }
    }
  }

  lemma SetLookupAll(d: Entries, k: string, v: Value)
    ensures forall k' :: Lookup(Set(d, k, v), k') == if k' == k then Some(v) else Lookup(d, k')
  {
    forall k' ensures Lookup(Set(d, k, v), k') == if k' == k then Some(v) else Lookup(d, k') {
      SetLookup(d, k, v, k');
    }
  }

  /** A lookup in `p + [e]` finds `p`'s entry first, `e` otherwise. */
  lemma LookupSnoc(p: Entries, e: (string, Value), k: string)
    ensures Lookup(p + [e], k)
      == if k in Keys(p) then Lookup(p, k) else if k == e.0 then Some(e.1) else None
  {
    if |p| > 0 {
      assert (p + [e])[1..] == p[1..] + [e];
      KeysCons(p);
      LookupSnoc(p[1..], e, k);
    }
  }

  lemma NoDupPrefix(d: Entries)
    requires NoDupKeys(d) && |d| > 0
    ensures NoDupKeys(d[..|d| - 1])
    ensures d[|d| - 1].0 !in Keys(d[..|d| - 1])
  {
    var p := d[..|d| - 1];
    forall e | e in p ensures e.0 != d[|d| - 1].0 {
      var i :| 0 <= i < |p| && p[i] == e;
      assert d[i] == e;
    }
  }

  /** Python `del d[k]` (every entry under `k` goes). */
  function Delete(d: Entries, k: string): (r: Entries)
    ensures forall k' :: Lookup(r, k') == if k' == k then None else Lookup(d, k')
    ensures Keys(r) == Keys(d) - {k}
    ensures NoDupKeys(d) ==> NoDupKeys(r)
  {
    if |d| == 0 then []
    else
      KeysCons(d);
      NoDupKeysCons(d);
      if d[0].0 == k then Delete(d[1..], k)
      else
        var r := [d[0]] + Delete(d[1..], k);
        KeysCons(r);
        NoDupKeysCons(r);
        assert r[1..] == Delete(d[1..], k);
        r
  }

  /** Python `d.get(k, default)`. */
  function Get(d: Entries, k: string, default: Value): (r: Value)
    ensures k in Keys(d) ==> (k, r) in d
    ensures k !in Keys(d) ==> r == default
  {
    match Lookup(d, k)
    case Some(v) => v
    case None => default
  }

  /** Python `v[key]` for a string key: a dict lookup that raises `KeyError`
      when the key is missing and `TypeError` on a value that is not a dict. */
  function Index(v: Value, key: string): (r: Result<Value>)
    ensures r.Ok? <==> v.Dict? && key in Keys(v.entries)
    ensures r.Ok? ==> (key, r.value) in v.entries
    ensures v.Dict? && r.Err? ==> r.error == KeyError(key)
    ensures !v.Dict? ==> r.Err? && r.error.TypeError?
  {
    match v
    case Dict(es) =>
      (match Lookup(es, key)
       case Some(x) => Ok(x)
       case None => Err(KeyError(key)))
    case List(_) => Err(TypeError("list indices must be integers or slices, not str"))
    case Str(_) => Err(TypeError("string indices must be integers, not 'str'"))
    case _ => Err(TypeError("object is not subscriptable"))
  }

  /** Python `d.update(es)`: each entry of `es` stored with `d[k] = v`, in
      order, so a later entry overrides an earlier one with the same key. */
  function Update(d: Entries, es: Entries): (r: Entries)
    ensures Keys(r) == Keys(d) + Keys(es)
    decreases |es|
  {
    if |es| == 0 then d
    else
      var p := es[..|es| - 1];
      assert es == p + [es[|es| - 1]];
      Set(Update(d, p), es[|es| - 1].0, es[|es| - 1].1)
  }

  /** The value of the last entry of `es` stored under `k`, if any. */
  function LookupLast(es: Entries, k: string): (r: Option<Value>)
    ensures r.Some? <==> k in Keys(es)
    decreases |es|
  {
    if |es| == 0 then None
    else
      assert es == es[..|es| - 1] + [es[|es| - 1]];
      if es[|es| - 1].0 == k then Some(es[|es| - 1].1) else LookupLast(es[..|es| - 1], k)
  }

  /** After an update, a key holds the last value `es` gives it, or its old
      value when `es` does not mention it. */
  lemma {:induction false} UpdateLookup(d: Entries, es: Entries, k: string)
    ensures Lookup(Update(d, es), k) == if k in Keys(es) then LookupLast(es, k) else Lookup(d, k)
    decreases |es|
  {
    if |es| > 0 {
      var p := es[..|es| - 1];
      assert es == p + [es[|es| - 1]];
      UpdateLookup(d, p, k);
      SetLookup(Update(d, p), es[|es| - 1].0, es[|es| - 1].1, k);
    }
  }

  lemma {:induction false} UpdateNoDup(d: Entries, es: Entries)
    requires NoDupKeys(d)
    ensures NoDupKeys(Update(d, es))
    decreases |es|
  {
    if |es| > 0 {
      UpdateNoDup(d, es[..|es| - 1]);
      SetNoDup(Update(d, es[..|es| - 1]), es[|es| - 1].0, es[|es| - 1].1);
    }
  }

  /** Without repeated keys the last entry under `k` is the only one. */
  lemma {:induction false} LookupLastUnique(es: Entries, k: string)
    requires NoDupKeys(es)
    ensures LookupLast(es, k) == Lookup(es, k)
    decreases |es|
  {
    if |es| > 0 {
      var p := es[..|es| - 1];
      var e := es[|es| - 1];
      assert es == p + [e];
      NoDupPrefix(es);
      LookupSnoc(p, e, k);
      LookupLastUnique(p, k);
    }
  }

  /** The last entry of `es` under the key of entry `i` is entry `i` itself
      when no later entry shares that key. */
  lemma {:induction false} LookupLastAt(es: Entries, i: nat)
    requires i < |es|
    requires forall j | i < j < |es| :: es[j].0 != es[i].0
    ensures LookupLast(es, es[i].0) == Some(es[i].1)
    decreases |es|
  {
    if i < |es| - 1 {
      var p := es[..|es| - 1];
      assert p[i] == es[i];
      forall j | i < j < |p| ensures p[j].0 != p[i].0 {
        assert p[j] == es[j];
      }
      LookupLastAt(p, i);
    }
  }
}
