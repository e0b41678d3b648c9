/** Insertion-ordered dictionaries keyed by strings.

    Python dictionaries iterate in insertion order, and several results of
    the modelled code (the lists built by `get_convert_symbols`, the order of
    holdings) depend on that order. An `OMap` keeps the keys in insertion
    order next to a Dafny `map` for lookup. */
module OrderedMaps {

  datatype OMap<V> = OMap(keys: seq<string>, items: map<string, V>)

  predicate Distinct(s: seq<string>) {
    forall i, j :: 0 <= i < j < |s| ==> s[i] != s[j]
  }

  /** The key sequence lists every stored key exactly once. */
  ghost predicate Valid<V>(m: OMap<V>) {
    && Distinct(m.keys)
    && (forall k :: k in m.items <==> k in m.keys)
  }

  function Empty<V>(): (m: OMap<V>)
    ensures Valid(m)
    ensures m.items == map[]
  {
    OMap([], map[])
  }

  /** Python's `d[k] = v`: overwrite in place, or append a new key at the end. */
  function Put<V>(m: OMap<V>, k: string, v: V): (r: OMap<V>)
    requires Valid(m)
    ensures Valid(r)
    ensures r.items == m.items[k := v]
    ensures k in m.items ==> r.keys == m.keys
    ensures k !in m.items ==> r.keys == m.keys + [k]
  {
    if k in m.items then OMap(m.keys, m.items[k := v])
    else OMap(m.keys + [k], m.items[k := v])
  }

  predicate Covers<V>(keys: seq<string>, items: map<string, V>) {
    forall k :: k in keys ==> k in items
  }

  /** The sum of `f` over the values, visited in key order. */
  function Sum<V>(keys: seq<string>, items: map<string, V>, f: V -> real): real
    requires Covers(keys, items)
  {
    if keys == [] then 0.0
    else Sum(keys[..|keys| - 1], items, f) + f(items[keys[|keys| - 1]])
  }

  lemma SumAppend<V>(keys: seq<string>, k: string, items: map<string, V>, f: V -> real)
    requires Covers(keys, items) && k in items
    ensures Covers(keys + [k], items)
    ensures Sum(keys + [k], items, f) == Sum(keys, items, f) + f(items[k])
  {
    assert (keys + [k])[..|keys|] == keys;
  }

  /** Changing a value under a key that is not visited leaves the sum alone. */
  lemma {:induction false} SumFrame<V>(keys: seq<string>, items: map<string, V>, k: string, v: V, f: V -> real)
    requires Covers(keys, items) && k !in keys
    ensures Covers(keys, items[k := v])
    ensures Sum(keys, items[k := v], f) == Sum(keys, items, f)
  {
    if keys != [] {
      var init := keys[..|keys| - 1];
      assert forall x :: x in init ==> x in keys;
      SumFrame(init, items, k, v, f);
    }
  }

  /** Changing the value under a key visited exactly once shifts the sum by the difference. */
  lemma {:induction false} SumUpdate<V>(keys: seq<string>, items: map<string, V>, k: string, v: V, f: V -> real)
    requires Covers(keys, items) && Distinct(keys) && k in keys
    ensures Covers(keys, items[k := v])
    ensures Sum(keys, items[k := v], f) == Sum(keys, items, f) - f(items[k]) + f(v)
  {
    var n := |keys| - 1;
    var init := keys[..n];
    assert forall x :: x in init ==> x in keys;
    if keys[n] == k {
      assert k !in init by {
        forall i | 0 <= i < |init| ensures init[i] != k {
          assert keys[i] != keys[n];
        }
      }
      SumFrame(init, items, k, v, f);
    } else {
      assert k in init by {
        var i :| 0 <= i < |keys| && keys[i] == k;
        assert i < n;
        assert init[i] == k;
      }
      SumUpdate(init, items, k, v, f);
    }
  }

  /** The effect of `Put` on a sum over all the values. */
  lemma SumPut<V>(m: OMap<V>, k: string, v: V, f: V -> real)
    requires Valid(m)
    ensures Covers(m.keys, m.items) && Covers(Put(m, k, v).keys, Put(m, k, v).items)
    ensures k in m.items ==>
      Sum(Put(m, k, v).keys, Put(m, k, v).items, f) == Sum(m.keys, m.items, f) - f(m.items[k]) + f(v)
    ensures k !in m.items ==>
      Sum(Put(m, k, v).keys, Put(m, k, v).items, f) == Sum(m.keys, m.items, f) + f(v)
  {
    if k in m.items {
      SumUpdate(m.keys, m.items, k, v, f);
    } else {
      SumFrame(m.keys, m.items, k, v, f);
      SumAppend(m.keys, k, m.items[k := v], f);
    }
  }

  /** A sum sees only the values `f` gives. */
  lemma {:induction false} SumSame<V>(keys: seq<string>, a: map<string, V>, b: map<string, V>, f: V -> real)
    requires Covers(keys, a) && Covers(keys, b)
    requires forall k :: k in keys ==> f(a[k]) == f(b[k])
    ensures Sum(keys, a, f) == Sum(keys, b, f)
  {
    if keys != [] {
      var init := keys[..|keys| - 1];
      assert forall x :: x in init ==> x in keys;
      SumSame(init, a, b, f);
    }
  }
}
