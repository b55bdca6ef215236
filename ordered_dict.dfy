/** Python's insertion-ordered `dict` with string keys: the order of first insertion and the current values. */
module OrderedDict {

  datatype Dict<V> = Dict(keys: seq<string>, vals: map<string, V>)

  /** The keys are listed once each, and exactly the keys of the mapping are listed. */
  ghost predicate Valid<V>(d: Dict<V>)
  {
    && (forall i, j :: 0 <= i < j < |d.keys| ==> d.keys[i] != d.keys[j])
    && (forall k :: k in d.vals <==> k in d.keys)
  }

  function Empty<V>(): (d: Dict<V>)
    ensures Valid(d) && d.keys == []
  {
    Dict([], map[])
  }

  /** `d[k] = v`: a new key goes last, an existing key keeps its place and takes the new value. */
  function Put<V>(d: Dict<V>, k: string, v: V): (r: Dict<V>)
    requires Valid(d)
    ensures Valid(r)
    ensures r.vals == d.vals[k := v]
    ensures r.keys == if k in d.vals then d.keys else d.keys + [k]
  {
    if k in d.vals then Dict(d.keys, d.vals[k := v]) else Dict(d.keys + [k], d.vals[k := v])
  }

  /** The keys that pass, in their order. */
  function FilterKeys<V>(keys: seq<string>, vals: map<string, V>, keep: (string, V) -> bool): (r: seq<string>)
    requires forall k :: k in keys ==> k in vals
    ensures forall k :: k in r <==> k in keys && keep(k, vals[k])
    ensures (forall i, j :: 0 <= i < j < |keys| ==> keys[i] != keys[j]) ==>
      forall i, j :: 0 <= i < j < |r| ==> r[i] != r[j]
  {
    if keys == [] then []
    else
      var rest := FilterKeys(keys[1..], vals, keep);
      assert forall k :: k in keys[1..] ==> k in keys;
      if keep(keys[0], vals[keys[0]]) then [keys[0]] + rest else rest
  }

  /** `{k: v for k, v in d.items() if keep(k, v)}`: the entries that pass, in the same order. */
  function Filter<V>(d: Dict<V>, keep: (string, V) -> bool): (r: Dict<V>)
    requires Valid(d)
    ensures Valid(r)
    ensures forall k :: k in r.vals <==> k in d.vals && keep(k, d.vals[k])
    ensures forall k :: k in r.vals ==> r.vals[k] == d.vals[k]
  {
    Dict(FilterKeys(d.keys, d.vals, keep), map k | k in d.vals && keep(k, d.vals[k]) :: d.vals[k])
  }
}
