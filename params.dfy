/** The request payload: a Python dict from parameter name to value. Python dicts keep
    insertion order, and `cleanup_solr_request` iterates over a snapshot of that order
    (views.py:270), so the model keeps the key order explicitly. */
module Params {
  import opened Wrappers
  import opened Strings

  /** A parameter value: one text, one integer (written by the gateway itself or sent
      in a JSON body), the list of texts a repeated query parameter turns into, or a list
      whose first item is an integer and whose other items are texts (what
      `apply_protective_filters` makes of an integer filter, views.py:191-193, or a JSON
      list that starts with a number). */
  datatype Value = Str(s: string) | Int(n: int) | Strs(items: seq<string>) | IntList(lead: int, rest: seq<string>)

  /** An insertion-ordered dict. */
  datatype Dict = Dict(keys: seq<string>, vals: map<string, Value>) {

    ghost predicate Valid() {
      && Distinct(keys)
      && (forall k :: k in vals <==> k in keys)
    }

    function Get(k: string): Option<Value> {
      if k in vals then Some(vals[k]) else None
    }

    /** `d[k] = v`: a new key goes to the end, an existing key keeps its place. */
    function Put(k: string, v: Value): Dict {
      Dict(if k in vals then keys else keys + [k], vals[k := v])
    }

    /** `del d[k]` (a no-op here when `k` is absent). */
    function Del(k: string): Dict {
      Dict(Without(keys, k), vals - {k})
    }
  }

  const EmptyDict := Dict([], map[])

  ghost predicate Distinct(ks: seq<string>) {
    forall i, j :: 0 <= i < j < |ks| ==> ks[i] != ks[j]
  }

  function Without(ks: seq<string>, k: string): (r: seq<string>)
    ensures forall x :: x in r <==> x in ks && x != k
    decreases |ks|
  {
    if |ks| == 0 then []
    else if ks[|ks| - 1] == k then Without(ks[..|ks| - 1], k)
    else Without(ks[..|ks| - 1], k) + [ks[|ks| - 1]]
  }

  lemma {:induction false} WithoutDistinct(ks: seq<string>, k: string)
    requires Distinct(ks)
    ensures Distinct(Without(ks, k))
    decreases |ks|
  {
    if |ks| > 0 {
      var init := ks[..|ks| - 1];
      assert Distinct(init) by {
        forall i, j | 0 <= i < j < |init| ensures init[i] != init[j] {
          assert init[i] == ks[i] && init[j] == ks[j];
        }
      }
      WithoutDistinct(init, k);
      if ks[|ks| - 1] != k {
        var w := Without(init, k);
        assert ks[|ks| - 1] !in w;
        DistinctSnoc(w, ks[|ks| - 1]);
      }
    }
  }

  lemma DistinctSnoc(w: seq<string>, x: string)
    requires Distinct(w) && x !in w
    ensures Distinct(w + [x])
  {
    var r := w + [x];
    forall i, j | 0 <= i < j < |r| ensures r[i] != r[j] {
      assert r[i] == w[i] && w[i] in w;
      if j < |w| {
        assert r[j] == w[j];
      }
    }
  }

  lemma PutValid(d: Dict, k: string, v: Value)
    requires d.Valid()
    ensures d.Put(k, v).Valid()
  {
  }

  lemma DelValid(d: Dict, k: string)
    requires d.Valid()
    ensures d.Del(k).Valid()
  {
    WithoutDistinct(d.keys, k);
  }

  /** `d.update(e)`: the entries of `e`, in `e`'s order, written over `d`. */
  function Update(d: Dict, e: Dict): Dict
  {
    UpdateWith(d, e.vals, e.keys)
  }

  function UpdateWith(d: Dict, vals: map<string, Value>, ks: seq<string>): Dict
    decreases |ks|
  {
    if |ks| == 0 then d
    else
      var d1 := UpdateWith(d, vals, ks[..|ks| - 1]);
      var k := ks[|ks| - 1];
      if k in vals then d1.Put(k, vals[k]) else d1
  }

  /** After `d.update(e)` the keys of `e` hold `e`'s values and every other key keeps its
      value; both dicts stay well formed. */
  lemma {:induction false} UpdateMeaning(d: Dict, e: Dict)
    requires d.Valid() && e.Valid()
    ensures var r := Update(d, e);
      && r.Valid()
      && (forall k :: k in e.vals ==> r.Get(k) == Some(e.vals[k]))
      && (forall k :: k !in e.vals ==> r.Get(k) == d.Get(k))
  {
    UpdatePrefix(d, e.vals, e.keys);
  }

  lemma {:induction false} UpdatePrefix(d: Dict, vals: map<string, Value>, ks: seq<string>)
    requires d.Valid()
    requires Distinct(ks)
    requires forall k :: k in ks ==> k in vals
    ensures var r := UpdateWith(d, vals, ks);
      && r.Valid()
      && (forall k :: k in ks ==> r.Get(k) == Some(vals[k]))
      && (forall k :: k !in ks ==> r.Get(k) == d.Get(k))
    decreases |ks|
  {
    if |ks| > 0 {
      var init := ks[..|ks| - 1];
      UpdatePrefix(d, vals, init);
      var d1 := UpdateWith(d, vals, init);
      PutValid(d1, ks[|ks| - 1], vals[ks[|ks| - 1]]);
      assert forall k :: k in ks && k != ks[|ks| - 1] ==> k in init;
    }
  }

  /** The payload dict that the gateway's methods mutate in place. */
  class Payload {
    var keys: seq<string>
    var vals: map<string, Value>

    function Model(): Dict
      reads this
    {
      Dict(keys, vals)
    }

    ghost predicate Valid()
      reads this
    {
      Model().Valid()
    }

    constructor (d: Dict)
      requires d.Valid()
      ensures Valid() && Model() == d
    {
      keys := d.keys;
      vals := d.vals;
    }

    method Get(k: string) returns (v: Option<Value>)
      ensures v == Model().Get(k)
    {
      v := if k in vals then Some(vals[k]) else None;
    }

    method Put(k: string, v: Value)
      requires Valid()
      modifies this
      ensures Valid() && Model() == old(Model()).Put(k, v)
    {
      if k !in vals {
        keys := keys + [k];
      }
      vals := vals[k := v];
    }

    method Delete(k: string)
      requires Valid()
      modifies this
      ensures Valid() && Model() == old(Model()).Del(k)
    {
      DelValid(Model(), k);
      keys := Without(keys, k);
      vals := vals - {k};
    }
  }

  /** The texts a value splits into for `y.split(',')`; an integer has no `split`
      (AttributeError). */
  function Texts(v: Value): Result<seq<string>> {
    match v
    case Str(s) => Ok([s])
    case Strs(xs) => Ok(xs)
    case Int(_) => Err("AttributeError: int has no split")
    case IntList(_, _) => Err("AttributeError: int has no split")
  }

  /** `x[0]` when `x` is a non-empty list, `x` otherwise (views.py:434-435, 441-442). */
  function First(v: Value): Value {
    match v
    case Strs(xs) => if |xs| > 0 then Str(xs[0]) else v
    case IntList(n, _) => Int(n)
    case _ => v
  }

  /** `_safe_int` (views.py:634-640): the first element of a list, then `int(...)`, with
      `default` for text that is not an integer. An empty list raises IndexError, which
      the function does not catch. */
  function SafeInt(v: Value, default: int): Result<int> {
    match v
    case Int(n) => Ok(n)
    case IntList(n, _) => Ok(n)
    case Str(s) => Ok(ParseInt(s).GetOr(default))
    case Strs(xs) => if |xs| == 0 then Err("IndexError: list index out of range") else Ok(ParseInt(xs[0]).GetOr(default))
  }

  /** What `_safe_int` makes of text: the decimal rendering of `n`, alone or first in a
      list, reads back as `n`; text that is not an integer gives the default; only the
      empty list fails. */
  lemma SafeIntReads(n: int, s: string, default: int, rest: seq<string>)
    ensures SafeInt(Str(IntToString(n)), default) == Ok(n)
    ensures SafeInt(Strs([IntToString(n)] + rest), default) == Ok(n)
    ensures ParseInt(s).None? ==> SafeInt(Str(s), default) == Ok(default)
    ensures ParseInt(s).None? ==> SafeInt(Strs([s] + rest), default) == Ok(default)
    ensures SafeInt(Strs([]), default).Err?
  {
    ParseIntToString(n);
  }
}
