/**
 * Python's insertion-ordered `dict`: the session states keep their
 * counterparties and offers in dicts whose iteration order is observable
 * (`get_all_contexts`, `get_all_offers`).
 */
module Dicts {
  import opened Wrappers

  /** Keys in insertion order, and the entries they map to. */
  datatype Dict<K(==,!new), V> = Dict(order: seq<K>, entries: map<K, V>) {
    ghost predicate Valid() {
      (forall k :: k in order <==> k in entries)
      && forall i, j :: 0 <= i < j < |order| ==> order[i] != order[j]
    }

    function Keys(): seq<K> {
      order
    }

    function Get(k: K): (r: Option<V>)
      ensures r.Some? <==> k in entries
      ensures r.Some? ==> r.value == entries[k]
    {
      if k in entries then Some(entries[k]) else None
    }

    /**
     * `d[k] = v`: a new key goes to the end, an existing key keeps its
     * place and gets the new value.
     */
    function Put(k: K, v: V): (d: Dict<K, V>)
      ensures Valid() ==> d.Valid()
      ensures d.entries == entries[k := v]
      ensures k in entries ==> d.order == order
      ensures k !in entries ==> d.order == order + [k]
    {
      if k in entries then Dict(order, entries[k := v]) else Dict(order + [k], entries[k := v])
    }

    /** `list(d.values())`: the values in key order. */
    function Values(): (vs: seq<V>)
      requires Valid()
      ensures |vs| == |order|
      ensures forall i :: 0 <= i < |order| ==> vs[i] == entries[order[i]]
    {
      ValuesOf(order, entries)
    }

    function Size(): nat {
      |order|
    }
  }

  function ValuesOf<K, V>(ks: seq<K>, m: map<K, V>): (vs: seq<V>)
    requires forall k :: k in ks ==> k in m
    ensures |vs| == |ks|
    ensures forall i :: 0 <= i < |ks| ==> vs[i] == m[ks[i]]
  {
    if ks == [] then [] else [m[ks[0]]] + ValuesOf(ks[1..], m)
  }

  function Empty<K(==,!new), V>(): (d: Dict<K, V>)
    ensures d.Valid() && d.order == [] && d.entries == map[]
  {
    Dict([], map[])
  }

  /** Putting a key never loses another key's entry, and the key reads back. */
  lemma PutGet<K(!new), V>(d: Dict<K, V>, k: K, v: V, k': K)
    requires d.Valid()
    ensures d.Put(k, v).Get(k') == if k' == k then Some(v) else d.Get(k')
  {
  }
}
