/**
  Python's insertion-ordered `dict`: a key sequence remembering the order in which keys
  were first assigned, beside a map from key to current value. `d[k] = v` on an existing
  key replaces its value in place; on a new key it appends the key.
 */
module PyDict {

  datatype Dict<K(==), V> = Dict(keys: seq<K>, vals: map<K, V>)

  predicate Distinct<K(==)>(xs: seq<K>) {
    forall i, j :: 0 <= i < j < |xs| ==> xs[i] != xs[j]
  }

  /** The key order has no repeats and lists exactly the keys of the map. */
  predicate Valid<K(==), V>(d: Dict<K, V>) {
    && Distinct(d.keys)
    && d.vals.Keys == (set k | k in d.keys)
  }

  function Empty<K(==), V>(): (d: Dict<K, V>)
    ensures Valid(d)
  {
    Dict([], map[])
  }

  /** `d[k] = v`. */
  function Put<K(==), V>(d: Dict<K, V>, k: K, v: V): (r: Dict<K, V>)
    requires Valid(d)
    ensures Valid(r)
    ensures r.vals == d.vals[k := v]
    ensures k in d.vals ==> r.keys == d.keys
    ensures k !in d.vals ==> r.keys == d.keys + [k]
  {
    if k in d.vals then Dict(d.keys, d.vals[k := v]) else Dict(d.keys + [k], d.vals[k := v])
  }

  /** `list(d.values())`: the values in key-insertion order. */
  function Values<K(==), V>(d: Dict<K, V>): seq<V>
    requires Valid(d)
  {
    seq(|d.keys|, i requires 0 <= i < |d.keys| => d.vals[d.keys[i]])
  }

  /** Assigning to the key in slot `j` replaces that slot's value and leaves the others. */
  lemma ValuesPutExisting<K, V>(d: Dict<K, V>, j: nat, v: V)
    requires Valid(d) && j < |d.keys|
    ensures Values(Put(d, d.keys[j], v)) == Values(d)[j := v]
  {
    var e := Put(d, d.keys[j], v);
    forall i | 0 <= i < |d.keys| ensures Values(e)[i] == Values(d)[j := v][i] {
      assert i != j ==> d.keys[i] != d.keys[j];
    }
  }

  /** Assigning to a new key appends its value after all the others. */
  lemma ValuesPutNew<K, V>(d: Dict<K, V>, k: K, v: V)
    requires Valid(d) && k !in d.vals
    ensures Values(Put(d, k, v)) == Values(d) + [v]
  {
    var e := Put(d, k, v);
    forall i | 0 <= i < |d.keys| ensures Values(e)[i] == Values(d)[i] {
      assert d.keys[i] in d.vals;
    }
  }

  /**
    Reference for insertion order: the elements of `xs` with repeats removed, each kept
    where it first occurs.
   */
  function FirstOccurrences<K(==)>(xs: seq<K>): seq<K>
    decreases |xs|
  {
    if |xs| == 0 then []
    else
      var front := FirstOccurrences(xs[..|xs| - 1]);
      if xs[|xs| - 1] in xs[..|xs| - 1] then front else front + [xs[|xs| - 1]]
  }

  /** Removing repeats keeps every element and repeats none. */
  lemma {:induction false} FirstOccurrencesSpec<K>(xs: seq<K>)
    ensures Distinct(FirstOccurrences(xs))
    ensures forall x :: x in FirstOccurrences(xs) <==> x in xs
    decreases |xs|
  {
    if |xs| > 0 {
      var p := xs[..|xs| - 1];
      FirstOccurrencesSpec(p);
      assert xs == p + [xs[|xs| - 1]];
    }
  }
}
