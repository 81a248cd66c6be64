/**
 * A string-keyed dictionary that remembers insertion order, as the source's
 * dictionaries do: iterating visits the keys in the order they were first
 * inserted, and assigning to an existing key keeps its place.
 */
module OrderedDict {

  datatype Dict<V> = Dict(order: seq<string>, values: map<string, V>)

  /** Every key appears once in `order`, and `order` lists exactly the keys of `values`. */
  ghost predicate Valid<V>(d: Dict<V>) {
    && (forall i, j :: 0 <= i < j < |d.order| ==> d.order[i] != d.order[j])
    && (forall k :: k in d.values <==> k in d.order)
  }

  function Empty<V>(): (d: Dict<V>)
    ensures Valid(d) && d.values == map[]
  {
    Dict([], map[])
  }

  /** `d[k] = v`: a new key goes to the end of the order, an existing one keeps its place. */
  function Put<V>(d: Dict<V>, k: string, v: V): (r: Dict<V>)
    ensures r.values == d.values[k := v]
    ensures k in d.values ==> r.order == d.order
    ensures k !in d.values ==> r.order == d.order + [k]
  {
    if k in d.values then Dict(d.order, d.values[k := v]) else Dict(d.order + [k], d.values[k := v])
  }

  /** Assigning a key keeps the dictionary well formed. */
  lemma PutValid<V>(d: Dict<V>, k: string, v: V)
    requires Valid(d)
    ensures Valid(Put(d, k, v))
  {
  }
}
