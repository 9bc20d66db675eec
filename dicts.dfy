/** Python's insertion-ordered `dict` with string keys: the keys in
    insertion order beside the key-to-value map.  Assigning to an existing
    key replaces its value and keeps its place; a new key goes to the end. */
module Dicts {
  import opened Wrappers

  datatype Entry<V> = Entry(key: string, value: V)

  datatype Dict<V> = Dict(keys: seq<string>, values: map<string, V>)

  /** No string occurs twice. */
  predicate Distinct(s: seq<string>) {
    forall i, j :: 0 <= i < j < |s| ==> s[i] != s[j]
  }

  /** The keys are distinct and are exactly the keys of the map. */
  ghost predicate Valid<V>(d: Dict<V>) {
    Distinct(d.keys) && (forall k :: k in d.values <==> k in d.keys)
  }

  function Empty<V>(): (r: Dict<V>)
    ensures Valid(r) && r.keys == []
  {
    Dict([], map[])
  }

  /** `d.get(k)` */
  function Get<V>(d: Dict<V>, k: string): Option<V> {
    if k in d.values then Some(d.values[k]) else None
  }

  /** `d[k] = v` */
  function Put<V>(d: Dict<V>, k: string, v: V): (r: Dict<V>)
    ensures Valid(d) ==> Valid(r)
    ensures Get(r, k) == Some(v)
    ensures forall k' :: k' != k ==> Get(r, k') == Get(d, k')
    ensures Valid(d) ==> r.keys == if k in d.keys then d.keys else d.keys + [k]
  {
    Dict(if k in d.values then d.keys else d.keys + [k], d.values[k := v])
  }

  /** The dictionary built by assigning the entries one after another. */
  function FromEntries<V>(es: seq<Entry<V>>): (r: Dict<V>)
    ensures Valid(r)
  {
    if es == [] then Empty() else Put(FromEntries(es[..|es| - 1]), es[|es| - 1].key, es[|es| - 1].value)
  }

  /** The value of the last entry for `k`: what a later assignment leaves. */
  function LastValue<V>(es: seq<Entry<V>>, k: string): Option<V> {
    if es == [] then None
    else if es[|es| - 1].key == k then Some(es[|es| - 1].value)
    else LastValue(es[..|es| - 1], k)
  }

  /** Assigning a list of entries in turn keeps, for every key, the value of
      its last entry; keys that never occur are absent. */
  lemma {:induction false} FromEntriesGet<V>(es: seq<Entry<V>>, k: string)
    ensures Get(FromEntries(es), k) == LastValue(es, k)
  {
    if es != [] {
      FromEntriesGet(es[..|es| - 1], k);
    }
  }
  /** The keys of a list of entries, in order. */
  function Keys<V>(es: seq<Entry<V>>): (r: seq<string>)
    ensures |r| == |es| && forall j :: 0 <= j < |es| ==> r[j] == es[j].key
  {
    seq(|es|, j requires 0 <= j < |es| => es[j].key)
  }

  /** The entries assigned one after another into an existing dictionary. */
  function PutAll<V>(d: Dict<V>, es: seq<Entry<V>>): Dict<V> {
    if es == [] then d else Put(PutAll(d, es[..|es| - 1]), es[|es| - 1].key, es[|es| - 1].value)
  }

  /** Assigning two lists of entries is assigning the first, then the
      second. */
  lemma {:induction false} FromEntriesConcat<V>(xs: seq<Entry<V>>, ys: seq<Entry<V>>)
    ensures FromEntries(xs + ys) == PutAll(FromEntries(xs), ys)
    decreases |ys|
  {
    if ys == [] {
      assert xs + ys == xs;
    } else {
      var init := ys[..|ys| - 1];
      FromEntriesConcat(xs, init);
      assert (xs + ys)[..|xs + ys| - 1] == xs + init;
    }
  }

  /** When no key repeats, the keys keep the order of the entries. */
  lemma FromEntriesDistinct<V>(es: seq<Entry<V>>)
    requires Distinct(Keys(es))
    ensures FromEntries(es).keys == Keys(es)
  {
    DistinctKeysOf(es);
    FromEntriesDistinctKeys(es);
    KeysOfPointwise(FromEntries(es).keys, es);
  }

  /** When no key repeats, every entry is in the dictionary with its own
      value. */
  lemma FromEntriesDistinctGet<V>(es: seq<Entry<V>>)
    requires Distinct(Keys(es))
    ensures forall j :: 0 <= j < |es| ==> Get(FromEntries(es), es[j].key) == Some(es[j].value)
  {
    DistinctKeysOf(es);
    FromEntriesDistinctValues(es);
  }

  lemma DistinctKeysOf<V>(es: seq<Entry<V>>)
    requires Distinct(Keys(es))
    ensures DistinctKeys(es)
  {
    forall i, j | 0 <= i < j < |es| ensures es[i].key != es[j].key {
      assert Keys(es)[i] != Keys(es)[j];
    }
  }

  /** A list holding the key of each entry, in order, is their keys. */
  lemma KeysOfPointwise<V>(ks: seq<string>, es: seq<Entry<V>>)
    requires |ks| == |es| && forall j :: 0 <= j < |es| ==> ks[j] == es[j].key
    ensures ks == Keys(es)
  {
  }

  /** No two entries have the same key. */
  predicate DistinctKeys<V>(es: seq<Entry<V>>) {
    forall i, j :: 0 <= i < j < |es| ==> es[i].key != es[j].key
  }

  lemma {:induction false} FromEntriesDistinctKeys<V>(es: seq<Entry<V>>)
    requires DistinctKeys(es)
    ensures |FromEntries(es).keys| == |es|
    ensures forall j :: 0 <= j < |es| ==> FromEntries(es).keys[j] == es[j].key
  {
    if es != [] {
      var init := es[..|es| - 1];
      var last := es[|es| - 1];
      assert DistinctKeys(init) by {
        forall i, j | 0 <= i < j < |init| ensures init[i].key != init[j].key {
          assert init[i] == es[i] && init[j] == es[j];
        }
      }
      FromEntriesDistinctKeys(init);
      var d0 := FromEntries(init);
      assert last.key !in d0.keys by {
        forall j | 0 <= j < |init| ensures d0.keys[j] != last.key {
          assert init[j] == es[j];
        }
      }
      var r := FromEntries(es);
      assert r.keys == d0.keys + [last.key];
      forall j | 0 <= j < |es| ensures r.keys[j] == es[j].key {
        if j < |init| {
          assert init[j] == es[j];
        }
      }
    }
  }

  lemma FromEntriesDistinctValues<V>(es: seq<Entry<V>>)
    requires DistinctKeys(es)
    ensures forall j :: 0 <= j < |es| ==> Get(FromEntries(es), es[j].key) == Some(es[j].value)
  {
    forall j | 0 <= j < |es| ensures Get(FromEntries(es), es[j].key) == Some(es[j].value) {
      FromEntriesGet(es, es[j].key);
      LastValueDistinct(es, j);
    }
  }

  /** With distinct keys, the last value of an entry's key is its own. */
  lemma {:induction false} LastValueDistinct<V>(es: seq<Entry<V>>, j: nat)
    requires DistinctKeys(es) && j < |es|
    ensures LastValue(es, es[j].key) == Some(es[j].value)
  {
    if j < |es| - 1 {
      var init := es[..|es| - 1];
      assert DistinctKeys(init) by {
        forall i, i' | 0 <= i < i' < |init| ensures init[i].key != init[i'].key {
          assert init[i] == es[i] && init[i'] == es[i'];
        }
      }
      assert es[j] == init[j];
      LastValueDistinct(init, j);
    }
  }

  /** A key has a last value exactly when some entry has it, and that
      value is the one of the entry for it that no later entry follows. */
  lemma {:induction false} LastValueWitness<V>(es: seq<Entry<V>>, k: string)
    ensures LastValue(es, k).Some? <==> exists j :: 0 <= j < |es| && es[j].key == k
    ensures LastValue(es, k).Some? ==>
              (exists j :: 0 <= j < |es| && es[j].key == k
                 && LastValue(es, k) == Some(es[j].value) && forall j' :: j < j' < |es| ==> es[j'].key != k)
  {
    if es != [] {
      var init := es[..|es| - 1];
      LastValueWitness(init, k);
      if es[|es| - 1].key != k {
        assert forall j :: 0 <= j < |init| ==> init[j] == es[j];
      }
    }
  }

  /** The listed keys that are in the dictionary, in list order. */
  function Present<V>(d: Dict<V>, vars: seq<string>): (r: seq<string>)
    ensures |r| <= |vars|
    ensures forall i :: 0 <= i < |r| ==> r[i] in d.values
  {
    if vars == [] then []
    else
      var v := vars[|vars| - 1];
      Present(d, vars[..|vars| - 1]) + (if v in d.values then [v] else [])
  }

  /** None of the keys is present exactly when no listed key is in the
      dictionary. */
  lemma {:induction false} PresentEmpty<V>(d: Dict<V>, vars: seq<string>)
    ensures Present(d, vars) == [] <==> forall i :: 0 <= i < |vars| ==> vars[i] !in d.values
  {
    if vars != [] {
      var init := vars[..|vars| - 1];
      PresentEmpty(d, init);
      assert forall i :: 0 <= i < |init| ==> init[i] == vars[i];
    }
  }

  /** `[d[k] for k in ks if k in d]` */
  function ValuesAt<V>(d: Dict<V>, vars: seq<string>): (r: seq<V>)
    ensures |r| == |Present(d, vars)|
    ensures forall i :: 0 <= i < |r| ==> r[i] == d.values[Present(d, vars)[i]]
  {
    if vars == [] then []
    else
      var v := vars[|vars| - 1];
      ValuesAt(d, vars[..|vars| - 1]) + (if v in d.values then [d.values[v]] else [])
  }

  /** The loop that looks up each listed variable that is a key, in order. */
  method ValuesAtLoop<V>(d: Dict<V>, vars: seq<string>) returns (r: seq<V>)
    ensures r == ValuesAt(d, vars)
  {
    r := [];
    for i := 0 to |vars|
      invariant r == ValuesAt(d, vars[..i])
    {
      assert vars[..i + 1][..i] == vars[..i];
      if vars[i] in d.values {
        r := r + [d.values[vars[i]]];
      }
    }
    assert vars[..|vars|] == vars;
  }
}
