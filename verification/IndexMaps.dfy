/** Maps that remember the order in which keys were first inserted. */
module IndexMaps {
  import opened Wrappers

  datatype IndexMap<K(==), V> = IndexMap(keys: seq<K>, vals: map<K, V>)

  ghost predicate WellFormed<K(!new), V>(m: IndexMap<K, V>) {
    NoDuplicates(m.keys) && forall k :: k in m.keys <==> k in m.vals
  }

  /** A key inserted again keeps its place and takes the new value. */
  function Insert<K, V>(m: IndexMap<K, V>, k: K, v: V): IndexMap<K, V> {
    IndexMap(if k in m.vals then m.keys else m.keys + [k], m.vals[k := v])
  }

  function InsertNew<K(==)>(s: seq<K>, k: K): seq<K> {
    if k in s then s else s + [k]
  }

  lemma InsertWellFormed<K(!new), V>(m: IndexMap<K, V>, k: K, v: V)
    requires WellFormed(m)
    ensures WellFormed(Insert(m, k, v))
  {
  }

  lemma InsertNewElems<K(!new)>(s: seq<K>, k: K)
    requires NoDuplicates(s)
    ensures NoDuplicates(InsertNew(s, k)) && Elems(InsertNew(s, k)) == Elems(s) + {k}
  {
  }
}
