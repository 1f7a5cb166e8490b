/** The witness and seal tables of a contract (src/pile.rs, persistence/fs/src/pile.rs). */
module Piles {
  import opened Wrappers
  import opened Seals
  import opened Status

  /** What one record of the witness listing says. */
  datatype Witness = Witness(id: Wid, published: PubWitness, client: Anchor, status: WitnessStatus, opids: set<Opid>)

  datatype OpRels = OpRels(opid: Opid, witnessIds: set<Wid>, defines: map<U16, WTxoSeal>)

  function Get<K, V>(m: map<K, seq<V>>, k: K): seq<V> {
    if k in m then m[k] else []
  }

  function Push<K, V>(m: map<K, seq<V>>, k: K, v: V): map<K, seq<V>> {
    m[k := Get(m, k) + [v]]
  }

  function Count<T(==)>(s: seq<T>, x: T): nat { multiset(s)[x] }

  /** The two indexes are inverse relations in which every pair has the same multiplicity. */
  ghost predicate Inverse(index: map<Opid, seq<Wid>>, stand: map<Wid, seq<Opid>>) {
    forall o, w :: Count(Get(index, o), w) == Count(Get(stand, w), o)
  }

  ghost predicate NoneEmpty<K, V>(m: map<K, seq<V>>) {
    forall k :: k in m ==> m[k] != []
  }

  ghost predicate IdsMatch(cache: map<Wid, PubWitness>) {
    forall w :: w in cache ==> cache[w].id == w
  }

  lemma CountAppend<T>(s: seq<T>, v: T, x: T)
    ensures Count(s + [v], x) == Count(s, x) + if x == v then 1 else 0
  {
  }

  lemma InversePush(index: map<Opid, seq<Wid>>, stand: map<Wid, seq<Opid>>, o: Opid, w: Wid)
    requires Inverse(index, stand)
    ensures Inverse(Push(index, o, w), Push(stand, w, o))
  {
    forall o', w' ensures Count(Get(Push(index, o, w), o'), w') == Count(Get(Push(stand, w, o), w'), o') {
      PushCount(index, o, w, o', w');
      PushCount(stand, w, o, w', o');
      assert Count(Get(index, o'), w') == Count(Get(stand, w'), o');
    }
  }

  lemma PushCount<K, V>(m: map<K, seq<V>>, k: K, v: V, k': K, v': V)
    ensures Count(Get(Push(m, k, v), k'), v') == Count(Get(m, k'), v') + if k' == k && v' == v then 1 else 0
  {
    CountAppend(Get(m, k), v, v');
  }

  /** The seal table with the given seals of operation `o` written over it. */
  function WithSeals(keep: map<CellAddr, WTxoSeal>, o: Opid, seals: map<U16, WTxoSeal>): (r: map<CellAddr, WTxoSeal>)
    ensures forall a :: a in r <==> a in keep || (a.opid == o && a.pos in seals)
    ensures forall a :: a in r ==> r[a] == if a.opid == o && a.pos in seals then seals[a.pos] else keep[a]
  {
    var written := set p | p in seals :: CellAddr(o, p);
    map a | a in keep.Keys + written :: if a.opid == o && a.pos in seals then seals[a.pos] else keep[a]
  }

  /** The contents of the six tables. */
  datatype PileView = PileView(
    hoard: map<Wid, Anchor>,
    cache: map<Wid, PubWitness>,
    keep: map<CellAddr, WTxoSeal>,
    index: map<Opid, seq<Wid>>,
    stand: map<Wid, seq<Opid>>,
    mine: map<Wid, WitnessStatus>)
  {
    /** Every table over witnesses has the same keys, and the two indexes are inverse. */
    ghost predicate Valid() {
      && hoard.Keys == cache.Keys == mine.Keys == stand.Keys
      && Inverse(index, stand)
      && NoneEmpty(index) && NoneEmpty(stand)
      && IdsMatch(cache)
    }

    function OpWids(o: Opid): seq<Wid> { Get(index, o) }

    function WidOps(w: Wid): seq<Opid> { Get(stand, w) }

    /** Every indexed witness has a status. */
    ghost predicate Resolved() {
      forall o, w :: w in OpWids(o) ==> w in mine
    }

    /** Statuses of the witnesses of an operation, in the order of the index. */
    function Statuses(o: Opid): (r: seq<WitnessStatus>)
      requires Resolved()
    {
      seq(|OpWids(o)|, i requires 0 <= i < |OpWids(o)| => mine[OpWids(o)[i]])
    }

    /** The best status among the witnesses of an operation; `Genesis` when it has none. */
    function OpStatus(o: Opid): WitnessStatus
      requires Resolved()
    {
      if OpWids(o) == [] then Genesis else BestOf(Statuses(o))
    }

    /** The record carries the stored data of its witness and exactly the operations indexed under it. */
    ghost predicate Describes(r: Witness) {
      && r.id in hoard && r.client == hoard[r.id]
      && r.id in cache && r.published == cache[r.id] && r.published.id == r.id
      && r.id in mine && r.status == mine[r.id]
      && r.opids != {}
      && forall o :: o in r.opids <==> r.id in OpWids(o)
    }

    /** The tables after `add_witness`. */
    function AddWitness(o: Opid, w: Wid, published: PubWitness, anchor: Anchor, status: WitnessStatus): PileView {
      PileView(
        hoard[w := anchor], cache[w := published], keep,
        Push(index, o, w), Push(stand, w, o),
        if w in mine then mine else mine[w := status])
    }

    /** The tables after `add_seals`. */
    function AddSeals(o: Opid, seals: map<U16, WTxoSeal>): PileView {
      this.(keep := WithSeals(keep, o, seals))
    }

    /** The explicit seals of the outputs below `upTo`. */
    function SealsOf(o: Opid, upTo: U16): map<U16, WTxoSeal> {
      map p: U16 | 0 <= p < upTo && CellAddr(o, p) in keep :: keep[CellAddr(o, p)]
    }
  }

  const EMPTY: PileView := PileView(map[], map[], map[], map[], map[], map[])

  /** No lookup behind `has_witness` can fail, in either direction of the indexes. */
  lemma LookupsDefined(v: PileView)
    requires v.Valid()
    ensures forall o, w :: w in v.OpWids(o) <==> o in v.WidOps(w)
    ensures forall o, w :: w in v.OpWids(o) ==> w in v.hoard && w in v.cache && w in v.mine && o in v.index
    ensures forall w, o :: o in v.WidOps(w) ==> o in v.index
    ensures forall w :: w in v.hoard ==> v.WidOps(w) != []
    ensures v.Resolved()
  {
    forall o, w ensures w in v.OpWids(o) <==> o in v.WidOps(w) {
      assert Count(v.OpWids(o), w) == Count(v.WidOps(w), o);
    }
    forall o, w | w in v.OpWids(o) ensures w in v.hoard && w in v.cache && w in v.mine && o in v.index {
      assert o in v.WidOps(w);
      assert w in v.stand;
    }
  }

  /** The status of an operation is the status of one of its witnesses, and none ranks better. */
  lemma OpStatusIsBest(v: PileView, o: Opid)
    requires v.Resolved()
    ensures v.OpWids(o) == [] ==> v.OpStatus(o) == Genesis
    ensures v.OpWids(o) != [] ==> exists w :: w in v.OpWids(o) && v.mine[w] == v.OpStatus(o)
    ensures forall w :: w in v.OpWids(o) ==> v.OpStatus(o).QuasiHeight() <= v.mine[w].QuasiHeight()
  {
    var s := v.Statuses(o);
    forall w | w in v.OpWids(o) ensures v.mine[w] in s {
      var i :| 0 <= i < |v.OpWids(o)| && v.OpWids(o)[i] == w;
      assert s[i] == v.mine[w];
    }
    if v.OpWids(o) != [] {
      var i :| 0 <= i < |s| && s[i] == BestOf(s);
      assert v.OpWids(o)[i] in v.OpWids(o);
    }
  }

  /** Adding a witness keeps the tables consistent, including when the pair was added before. */
  lemma AddWitnessValid(v: PileView, o: Opid, published: PubWitness, anchor: Anchor, status: WitnessStatus)
    requires v.Valid()
    ensures v.AddWitness(o, published.id, published, anchor, status).Valid()
  {
    var w := published.id;
    InversePush(v.index, v.stand, o, w);
    var v' := v.AddWitness(o, w, published, anchor, status);
    assert v'.index == Push(v.index, o, w) && v'.stand == Push(v.stand, w, o);
    assert NoneEmpty(v'.index) && NoneEmpty(v'.stand);
    assert v'.hoard.Keys == v.hoard.Keys + {w};
    assert v'.cache.Keys == v.cache.Keys + {w};
    assert v'.mine.Keys == v.mine.Keys + {w};
    assert IdsMatch(v'.cache);
  }

  lemma WithOneMoreSeal(keep: map<CellAddr, WTxoSeal>, o: Opid, seals: map<U16, WTxoSeal>, p: U16, seal: WTxoSeal)
    ensures WithSeals(keep, o, seals[p := seal]) == WithSeals(keep, o, seals)[CellAddr(o, p) := seal]
  {
  }

  /** Seals written for a fresh operation are read back in full, and no other operation's change. */
  lemma SealsReadBack(v: PileView, o: Opid, seals: map<U16, WTxoSeal>, upTo: U16)
    requires forall a :: a in v.keep ==> a.opid != o
    requires forall p :: p in seals ==> p < upTo
    ensures v.AddSeals(o, seals).SealsOf(o, upTo) == seals
    ensures forall o', n :: o' != o ==> v.AddSeals(o, seals).SealsOf(o', n) == v.SealsOf(o', n)
  {
  }

  lemma DescribesRecord(v: PileView, r: Witness)
    requires v.Valid() && r.id in v.hoard
    requires r == Witness(r.id, v.cache[r.id], v.hoard[r.id], v.mine[r.id], Elems(v.stand[r.id]))
    ensures v.Describes(r)
  {
    LookupsDefined(v);
    assert v.stand[r.id][0] in r.opids;
  }

  lemma ListedAppend(r: seq<Witness>, x: Witness)
    ensures forall w :: Listed(r + [x], w) <==> Listed(r, w) || w == x.id
  {
    forall w ensures Listed(r + [x], w) <==> Listed(r, w) || w == x.id {
      if i :| 0 <= i < |r| && r[i].id == w {
        assert (r + [x])[i].id == w;
      }
      assert (r + [x])[|r|] == x;
    }
  }

  ghost predicate Listed(r: seq<Witness>, w: Wid) {
    exists i :: 0 <= i < |r| && r[i].id == w
  }

  /** The six tables as they are kept by the file-based pile; `disk` is what `mine` has committed. */
  class PileFs {
    var hoard: map<Wid, Anchor>
    var cache: map<Wid, PubWitness>
    var keep: map<CellAddr, WTxoSeal>
    var index: map<Opid, seq<Wid>>
    var stand: map<Wid, seq<Opid>>
    var mine: map<Wid, WitnessStatus>
    var disk: map<Wid, WitnessStatus>

    function View(): PileView
      reads this
    {
      PileView(hoard, cache, keep, index, stand, mine)
    }

    ghost predicate Valid()
      reads this
    {
      View().Valid()
    }

    constructor ()
      ensures Valid() && View() == EMPTY && disk == map[]
    {
      hoard, cache, keep, index, stand, mine, disk := map[], map[], map[], map[], map[], map[], map[];
    }

    predicate HasWitness(w: Wid)
      reads this
    {
      w in hoard
    }

    method AddWitness(o: Opid, w: Wid, published: PubWitness, anchor: Anchor, status: WitnessStatus)
      modifies this`index, this`stand, this`hoard, this`cache, this`mine
      ensures index == old(Push(index, o, w))
      ensures stand == old(Push(stand, w, o))
      ensures hoard == old(hoard)[w := anchor]
      ensures cache == old(cache)[w := published]
      ensures mine == if w in old(mine) then old(mine) else old(mine)[w := status]
      ensures keep == old(keep) && disk == old(disk)
      ensures View() == old(View()).AddWitness(o, w, published, anchor, status)
    {
      index := Push(index, o, w);
      stand := Push(stand, w, o);
      hoard := hoard[w := anchor];
      cache := cache[w := published];
      if w !in mine {
        mine := mine[w := status];
      }
    }

    method AddSeals(o: Opid, seals: map<U16, WTxoSeal>)
      modifies this`keep
      ensures View() == old(View()).AddSeals(o, seals)
    {
      var todo := seals.Keys;
      ghost var before, done := keep, map[];
      assert keep == WithSeals(before, o, map[]);
      while todo != {}
        invariant todo <= seals.Keys && done.Keys == seals.Keys - todo
        invariant forall p :: p in done ==> done[p] == seals[p]
        invariant keep == WithSeals(before, o, done)
      {
        var p :| p in todo;
        WithOneMoreSeal(before, o, done, p, seals[p]);
        keep := keep[CellAddr(o, p) := seals[p]];
        todo, done := todo - {p}, done[p := seals[p]];
      }
      assert done == seals;
    }

    method UpdateWitnessStatus(w: Wid, status: WitnessStatus)
      requires w in mine
      modifies this`mine
      ensures View() == old(View()).(mine := old(mine)[w := status])
      ensures mine == old(mine)[w := status]
    {
      mine := mine[w := status];
    }

    method CommitTransaction()
      modifies this`disk
      ensures disk == mine
    {
      disk := mine;
    }

    method SealsOf(o: Opid, upTo: U16) returns (seals: map<U16, WTxoSeal>)
      ensures seals == View().SealsOf(o, upTo)
    {
      seals := map[];
      for no := 0 to upTo
        invariant seals == View().SealsOf(o, no)
      {
        var addr := CellAddr(o, no);
        if addr in keep {
          seals := seals[no := keep[addr]];
        }
      }
    }

    /** Lists every known witness once, each with exactly its operations. */
    method Witnesses() returns (r: seq<Witness>)
      requires Valid()
      ensures forall w :: w in hoard <==> Listed(r, w)
      ensures NoDuplicates(r)
      ensures forall i :: 0 <= i < |r| ==> r[i].id in hoard && View().Describes(r[i])
    {
      r := [];
      var todo := hoard.Keys;
      while todo != {}
        invariant todo <= hoard.Keys
        invariant forall w :: w in hoard <==> w in todo || Listed(r, w)
        invariant forall i :: 0 <= i < |r| ==> r[i].id in hoard && r[i].id !in todo && View().Describes(r[i])
        invariant NoDuplicates(r)
      {
        var w :| w in todo;
        var record := Witness(w, cache[w], hoard[w], mine[w], Elems(stand[w]));
        DescribesRecord(View(), record);
        ListedAppend(r, record);
        r := r + [record];
        todo := todo - {w};
      }
    }

    method OpRelations(o: Opid, upTo: U16) returns (r: OpRels)
      requires Valid()
      ensures r.opid == o && r.defines == View().SealsOf(o, upTo)
      ensures forall w :: w in r.witnessIds <==> o in View().WidOps(w)
    {
      LookupsDefined(View());
      var seals := SealsOf(o, upTo);
      r := OpRels(o, Elems(Get(index, o)), seals);
    }
  }
}
