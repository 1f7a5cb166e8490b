/** The status of state elements over the history of operations (src/contract.rs, `state`). */
module History {
  import opened Wrappers
  import opened Seals
  import opened Status
  import opened Piles
  import opened Runs

  /** State names are ordered by their key. */
  datatype StateName = StateName(key: nat)

  type Data = int

  /** The operations each operation depends on directly; `rank` witnesses that there is no cycle. */
  datatype Dag = Dag(parents: Opid -> set<Opid>, rank: Opid -> nat) {
    ghost predicate Acyclic() {
      forall o, p :: p in parents(o) ==> rank(p) < rank(o)
    }

    /** An operation with everything it depends on, directly or not. */
    ghost function History(o: Opid): set<Opid>
      requires Acyclic()
      decreases rank(o)
    {
      {o} + set p, q | p in parents(o) && q in History(p) :: q
    }
  }

  /** The ledger's iterator over ancestors lists them in any order and with any repetition, and may
      or may not list the operation itself. */
  ghost predicate ListsAncestors(dag: Dag, ancestors: Opid -> seq<Opid>)
    requires dag.Acyclic()
  {
    forall o :: dag.History(o) - {o} <= Elems(ancestors(o)) <= dag.History(o)
  }

  lemma {:induction false} HistoryTransitive(dag: Dag, o: Opid, p: Opid)
    requires dag.Acyclic() && p in dag.History(o)
    ensures dag.History(p) <= dag.History(o)
    decreases dag.rank(o)
  {
    if p != o {
      var a :| a in dag.parents(o) && p in dag.History(a);
      HistoryTransitive(dag, a, p);
    }
  }

  // ---------------------------------------------------------------- statuses, computed afresh

  function StatusesOf(v: PileView, ops: seq<Opid>): (r: seq<WitnessStatus>)
    requires v.Resolved()
  {
    seq(|ops|, i requires 0 <= i < |ops| => v.OpStatus(ops[i]))
  }

  function AncestorStatus(v: PileView, ancestors: Opid -> seq<Opid>, o: Opid): WitnessStatus
    requires v.Resolved()
  {
    WorstOf(StatusesOf(v, ancestors(o)))
  }

  function ElementStatus(v: PileView, ancestors: Opid -> seq<Opid>, o: Opid, own: WitnessStatus): WitnessStatus
    requires v.Resolved()
  {
    AncestorStatus(v, ancestors, o).Worst(own)
  }

  lemma AncestorsBounded(v: PileView, ancestors: Opid -> seq<Opid>, o: Opid)
    requires v.Resolved()
    ensures forall p :: p in ancestors(o) ==>
      v.OpStatus(p).QuasiHeight() <= AncestorStatus(v, ancestors, o).QuasiHeight()
    ensures || AncestorStatus(v, ancestors, o) == Genesis
            || exists p :: p in ancestors(o) && v.OpStatus(p) == AncestorStatus(v, ancestors, o)
  {
    var s := StatusesOf(v, ancestors(o));
    forall p | p in ancestors(o) ensures v.OpStatus(p) in s {
      var i :| 0 <= i < |s| && ancestors(o)[i] == p;
      assert s[i] == v.OpStatus(p);
    }
    if WorstOf(s) in s {
      var i :| 0 <= i < |s| && s[i] == WorstOf(s);
      assert ancestors(o)[i] in ancestors(o);
    }
  }

  // ---------------------------------------------------------------- the documented formula

  /** `m` is the least rank among the witnesses of `o`, and zero when it has none. */
  ghost predicate MinOverWitnesses(v: PileView, o: Opid, m: nat)
    requires v.Resolved()
  {
    if v.OpWids(o) == [] then m == 0
    else
      && (forall w :: w in v.OpWids(o) ==> m <= v.mine[w].QuasiHeight())
      && (exists w :: w in v.OpWids(o) && m == v.mine[w].QuasiHeight())
  }

  /** `m` is the greatest, over the operations of `ops`, of the least rank over their witnesses. */
  ghost predicate MaxOfMins(v: PileView, ops: set<Opid>, m: nat)
    requires v.Resolved()
  {
    && (forall p, n: nat :: p in ops && MinOverWitnesses(v, p, n) ==> n <= m)
    && (exists p :: p in ops && MinOverWitnesses(v, p, m))
  }

  lemma OpStatusIsMin(v: PileView, o: Opid)
    requires v.Resolved()
    ensures forall m: nat :: MinOverWitnesses(v, o, m) <==> m == v.OpStatus(o).QuasiHeight()
  {
    OpStatusIsBest(v, o);
  }

  /** `m` is the greater of the rank of witness `w` and the ranks of the other operations of the history. */
  ghost predicate MaxUnder(v: PileView, dag: Dag, o: Opid, w: Wid, m: nat)
    requires v.Resolved() && dag.Acyclic() && w in v.OpWids(o)
  {
    && v.mine[w].QuasiHeight() <= m
    && (forall p, n: nat :: p in dag.History(o) && p != o && MinOverWitnesses(v, p, n) ==> n <= m)
    && (m == v.mine[w].QuasiHeight() || exists p :: p in dag.History(o) && p != o && MinOverWitnesses(v, p, m))
  }

  /** An element is shown once for its operation, or once under each of its witnesses. */
  ghost predicate Has(v: PileView, o: Opid, under: Option<Wid>) { under.Some? ==> under.value in v.OpWids(o) }

  /** The status that stands for the operation itself. */
  function Own(v: PileView, o: Opid, under: Option<Wid>): WitnessStatus
    requires v.Resolved() && Has(v, o, under)
  {
    match under
    case None => v.OpStatus(o)
    case Some(w) => v.mine[w]
  }

  function Shown(v: PileView, ancestors: Opid -> seq<Opid>, o: Opid, under: Option<Wid>): WitnessStatus
    requires v.Resolved() && Has(v, o, under)
  {
    ElementStatus(v, ancestors, o, Own(v, o, under))
  }

  /** The status shown is the worst of the own one and those of the other operations of the history. */
  lemma ShownIsWorst(v: PileView, dag: Dag, ancestors: Opid -> seq<Opid>, o: Opid, under: Option<Wid>)
    requires v.Resolved() && Has(v, o, under) && dag.Acyclic() && ListsAncestors(dag, ancestors)
    ensures var r := Shown(v, ancestors, o, under).QuasiHeight();
      && Own(v, o, under).QuasiHeight() <= r
      && (forall p :: p in dag.History(o) ==> v.OpStatus(p).QuasiHeight() <= r)
      && (r == Own(v, o, under).QuasiHeight()
          || exists p :: p in dag.History(o) && p != o && v.OpStatus(p).QuasiHeight() == r)
  {
    AncestorsBounded(v, ancestors, o);
    HistoryIsListed(dag, ancestors, o);
    OpStatusIsBest(v, o);
    var a, own := AncestorStatus(v, ancestors, o), Own(v, o, under);
    if a.QuasiHeight() > own.QuasiHeight() {
      var p :| p in ancestors(o) && v.OpStatus(p) == a;
      assert p in dag.History(o) && p != o;
    }
  }

  lemma HistoryIsListed(dag: Dag, ancestors: Opid -> seq<Opid>, o: Opid)
    requires dag.Acyclic() && ListsAncestors(dag, ancestors)
    ensures o in dag.History(o)
    ensures forall p :: p in dag.History(o) && p != o ==> p in ancestors(o)
    ensures forall p :: p in ancestors(o) ==> p in dag.History(o)
  {
    forall p | p in ancestors(o) ensures p in dag.History(o) {
      assert p in Elems(ancestors(o));
    }
    forall p | p in dag.History(o) && p != o ensures p in ancestors(o) {
      assert p in dag.History(o) - {o};
      assert p in Elems(ancestors(o));
    }
  }

  /** The status shown for an element with an explicit seal, and for immutable state, is the maximum
      over its history of the minimum over witnesses, for every status and every ancestor order. */
  lemma StatusFormula(v: PileView, dag: Dag, ancestors: Opid -> seq<Opid>, o: Opid)
    requires v.Resolved() && dag.Acyclic() && ListsAncestors(dag, ancestors)
    ensures MaxOfMins(v, dag.History(o), Shown(v, ancestors, o, None).QuasiHeight())
  {
    ShownIsWorst(v, dag, ancestors, o, None);
    HistoryIsListed(dag, ancestors, o);
    forall p | p in dag.History(o)
      ensures forall n: nat :: MinOverWitnesses(v, p, n) <==> n == v.OpStatus(p).QuasiHeight()
    {
      OpStatusIsMin(v, p);
    }
  }

  /** The status shown for a copy under witness `w` takes that witness alone for the operation itself. */
  lemma WitnessStatusFormula(v: PileView, dag: Dag, ancestors: Opid -> seq<Opid>, o: Opid, w: Wid)
    requires v.Resolved() && dag.Acyclic() && ListsAncestors(dag, ancestors)
    requires w in v.OpWids(o)
    ensures MaxUnder(v, dag, o, w, Shown(v, ancestors, o, Some(w)).QuasiHeight())
  {
    ShownIsWorst(v, dag, ancestors, o, Some(w));
    forall p | p in dag.History(o)
      ensures forall n: nat :: MinOverWitnesses(v, p, n) <==> n == v.OpStatus(p).QuasiHeight()
    {
      OpStatusIsMin(v, p);
    }
  }

  /** Two ancestor iterators give the same status up to rank, and the same status on regular ones. */
  lemma AncestorOrderIrrelevant(v: PileView, dag: Dag, a: Opid -> seq<Opid>, b: Opid -> seq<Opid>, o: Opid,
                                under: Option<Wid>)
    requires v.Resolved() && Has(v, o, under)
    requires dag.Acyclic() && ListsAncestors(dag, a) && ListsAncestors(dag, b)
    ensures Shown(v, a, o, under).QuasiHeight() == Shown(v, b, o, under).QuasiHeight()
    ensures RegularStatuses(v.mine) ==> Shown(v, a, o, under) == Shown(v, b, o, under)
  {
    ShownIsWorst(v, dag, a, o, under);
    ShownIsWorst(v, dag, b, o, under);
    if RegularStatuses(v.mine) {
      ShownRegular(v, a, o, under);
      ShownRegular(v, b, o, under);
      RegularOrderIf(Shown(v, a, o, under), Shown(v, b, o, under));
    }
  }

  lemma ShownRegular(v: PileView, ancestors: Opid -> seq<Opid>, o: Opid, under: Option<Wid>)
    requires v.Resolved() && Has(v, o, under) && RegularStatuses(v.mine)
    ensures Own(v, o, under).Regular() && Shown(v, ancestors, o, under).Regular()
  {
    OpStatusIsBest(v, o);
    AncestorsBounded(v, ancestors, o);
    var a := AncestorStatus(v, ancestors, o);
    if p :| p in ancestors(o) && v.OpStatus(p) == a {
      OpStatusIsBest(v, p);
    }
  }

  // ---------------------------------------------------------------- monotonicity

  /** No operation of the history of an element ranks worse than the element itself. */
  lemma DescendantsAreNoBetter(v: PileView, dag: Dag, ancestors: Opid -> seq<Opid>, o: Opid, under: Option<Wid>,
                               p: Opid)
    requires v.Resolved() && Has(v, o, under)
    requires dag.Acyclic() && ListsAncestors(dag, ancestors) && p in dag.History(o)
    ensures Shown(v, ancestors, p, None).QuasiHeight() <= Shown(v, ancestors, o, under).QuasiHeight()
  {
    HistoryTransitive(dag, o, p);
    ShownIsWorst(v, dag, ancestors, o, under);
    ShownIsWorst(v, dag, ancestors, p, None);
  }

  /** When nothing in the history gets worse, the element does not either. */
  lemma ShownMonotone(v: PileView, v': PileView, dag: Dag, ancestors: Opid -> seq<Opid>, o: Opid, under: Option<Wid>)
    requires v.Resolved() && v'.Resolved() && Has(v, o, under) && Has(v', o, under)
    requires dag.Acyclic() && ListsAncestors(dag, ancestors)
    requires Own(v', o, under).QuasiHeight() <= Own(v, o, under).QuasiHeight()
    requires forall p :: p in dag.History(o) ==> v'.OpStatus(p).QuasiHeight() <= v.OpStatus(p).QuasiHeight()
    ensures Shown(v', ancestors, o, under).QuasiHeight() <= Shown(v, ancestors, o, under).QuasiHeight()
  {
    ShownIsWorst(v, dag, ancestors, o, under);
    ShownIsWorst(v', dag, ancestors, o, under);
  }

  /** Improving the statuses of witnesses never worsens a reported status, of an operation or of a copy. */
  lemma ImprovingWitnesses(v: PileView, v': PileView, dag: Dag, ancestors: Opid -> seq<Opid>, o: Opid,
                           under: Option<Wid>)
    requires v.Resolved() && Has(v, o, under) && dag.Acyclic() && ListsAncestors(dag, ancestors)
    requires v'.index == v.index && v'.mine.Keys == v.mine.Keys
    requires forall w :: w in v.mine ==> v'.mine[w].QuasiHeight() <= v.mine[w].QuasiHeight()
    ensures v'.Resolved() && Has(v', o, under)
    ensures Shown(v', ancestors, o, under).QuasiHeight() <= Shown(v, ancestors, o, under).QuasiHeight()
  {
    assert forall p :: v'.OpWids(p) == v.OpWids(p);
    forall p ensures v'.OpStatus(p).QuasiHeight() <= v.OpStatus(p).QuasiHeight() {
      OpStatusIsBest(v, p);
      OpStatusIsBest(v', p);
    }
    ShownMonotone(v, v', dag, ancestors, o, under);
  }

  /** Including one more witness for an already witnessed operation never worsens a reported status, of
      an operation or of a copy shown before. */
  lemma AddingWitness(s: RunState, x: Opid, anchor: Anchor, published: PubWitness,
                      dag: Dag, ancestors: Opid -> seq<Opid>, o: Opid, under: Option<Wid>)
    requires Good(s) && Enabled(s, Include(x, anchor, published)) && s.pile.OpWids(x) != []
    requires Has(s.pile, o, under) && dag.Acyclic() && ListsAncestors(dag, ancestors)
    ensures var v := Included(s.pile, x, anchor, published);
            && v.Resolved() && Has(v, o, under)
            && Shown(v, ancestors, o, under).QuasiHeight() <= Shown(s.pile, ancestors, o, under).QuasiHeight()
  {
    var v := Included(s.pile, x, anchor, published);
    IncludedTables(s, x, anchor, published);
    forall p ensures v.OpStatus(p).QuasiHeight() <= s.pile.OpStatus(p).QuasiHeight() {
      if p == x {
        OwnAfterAdd(s.pile, v, x, published.id);
      } else {
        OthersAfterAdd(s.pile, v, x, p);
      }
    }
    ShownMonotone(s.pile, v, dag, ancestors, o, under);
  }

  // ---------------------------------------------------------------- validity

  /** An element is shown as valid exactly when what stands for its operation is valid and so are all the
      other operations of its history. */
  lemma ElementValidIffHistoryValid(v: PileView, dag: Dag, ancestors: Opid -> seq<Opid>, o: Opid, under: Option<Wid>)
    requires v.Resolved() && Has(v, o, under) && RegularStatuses(v.mine)
    requires dag.Acyclic() && ListsAncestors(dag, ancestors)
    ensures Shown(v, ancestors, o, under).IsValid() <==>
            && Own(v, o, under).IsValid()
            && forall p :: p in dag.History(o) && p != o ==> v.OpStatus(p).IsValid()
  {
    ShownIsWorst(v, dag, ancestors, o, under);
    ShownRegular(v, ancestors, o, under);
    OpsRegular(v);
  }

  lemma OpsRegular(v: PileView)
    requires v.Resolved() && RegularStatuses(v.mine)
    ensures forall p :: v.OpStatus(p).Regular()
  {
    forall p ensures v.OpStatus(p).Regular() {
      OpStatusIsBest(v, p);
    }
  }

  /** When ledger and tables agree, an element is shown as valid exactly when the ledger holds its whole
      history and, for a copy, its witness is valid. */
  lemma ShownValidIffHistoryLive(s: RunState, dag: Dag, ancestors: Opid -> seq<Opid>, o: Opid, under: Option<Wid>)
    requires Good(s) && Has(s.pile, o, under) && InStep(s) && dag.Acyclic() && ListsAncestors(dag, ancestors)
    requires dag.History(o) <= s.ops
    ensures Shown(s.pile, ancestors, o, under).IsValid() <==>
            Own(s.pile, o, under).IsValid() && dag.History(o) <= s.live
  {
    ElementValidIffHistoryValid(s.pile, dag, ancestors, o, under);
    HistoryIsListed(dag, ancestors, o);
    OwnIsNoBetter(s.pile, o, under);
    forall p | p in dag.History(o) ensures p in s.live <==> s.pile.OpStatus(p).IsValid() {
      assert p in s.ops;
    }
  }

  lemma OwnIsNoBetter(v: PileView, o: Opid, under: Option<Wid>)
    requires v.Resolved() && Has(v, o, under) && RegularStatuses(v.mine)
    ensures Own(v, o, under).IsValid() ==> v.OpStatus(o).IsValid()
  {
    OpStatusIsBest(v, o);
  }

  // ---------------------------------------------------------------- the contract state

  datatype OwnedState = OwnedState(addr: CellAddr, seal: TxoSeal, data: Data, status: WitnessStatus)
  datatype ImmutableState = ImmutableState(addr: CellAddr, data: Data, status: WitnessStatus)

  type Cells = seq<(CellAddr, Data)>

  /** The state kept by the ledger, name by name. */
  datatype LedgerState = LedgerState(global: map<StateName, Cells>, owned: map<StateName, Cells>,
                                     aggregated: map<StateName, Data>)

  datatype ContractState = ContractState(immutable: map<StateName, seq<ImmutableState>>,
                                         owned: map<StateName, seq<OwnedState>>,
                                         aggregated: map<StateName, Data>)

  /** The entries of one cell: one for an explicit seal, one per witness for a seal that waits for its
      witness, none for a seal that is not known. */
  function Entries(v: PileView, ancestors: Opid -> seq<Opid>, addr: CellAddr, data: Data): (r: seq<OwnedState>)
    requires v.Resolved()
  {
    if addr !in v.keep then []
    else match v.keep[addr].ToSrc()
      case Some(src) => [OwnedState(addr, src, data, ElementStatus(v, ancestors, addr.opid, v.OpStatus(addr.opid)))]
      case None => WitnessEntries(v, ancestors, addr, data, v.OpWids(addr.opid))
  }

  function WitnessEntries(v: PileView, ancestors: Opid -> seq<Opid>, addr: CellAddr, data: Data, wids: seq<Wid>):
    (r: seq<OwnedState>)
    requires v.Resolved() && addr in v.keep
    requires forall w :: w in wids ==> w in v.mine
    ensures |r| == |wids|
    ensures forall i :: 0 <= i < |wids| ==> r[i] == OwnedState(
      addr, v.keep[addr].Resolve(wids[i]), data, ElementStatus(v, ancestors, addr.opid, v.mine[wids[i]]))
  {
    if wids == [] then []
    else
      var n := |wids| - 1;
      WitnessEntries(v, ancestors, addr, data, wids[..n]) +
      [OwnedState(addr, v.keep[addr].Resolve(wids[n]), data, ElementStatus(v, ancestors, addr.opid, v.mine[wids[n]]))]
  }

  function OwnedOf(v: PileView, ancestors: Opid -> seq<Opid>, cells: Cells): (r: seq<OwnedState>)
    requires v.Resolved()
  {
    if cells == [] then []
    else
      var n := |cells| - 1;
      OwnedOf(v, ancestors, cells[..n]) + Entries(v, ancestors, cells[n].0, cells[n].1)
  }

  function ImmutableOf(v: PileView, ancestors: Opid -> seq<Opid>, cells: Cells): (r: seq<ImmutableState>)
    requires v.Resolved()
    ensures |r| == |cells|
    ensures forall i :: 0 <= i < |cells| ==> r[i] == ImmutableState(cells[i].0, cells[i].1,
      ElementStatus(v, ancestors, cells[i].0.opid, v.OpStatus(cells[i].0.opid)))
  {
    seq(|cells|, i requires 0 <= i < |cells| => ImmutableState(cells[i].0, cells[i].1,
      ElementStatus(v, ancestors, cells[i].0.opid, v.OpStatus(cells[i].0.opid))))
  }

  /** The contract state shown: name by name the entries of each owned cell, the immutable cells with their
      statuses, and the aggregated state as it is. */
  ghost predicate Shows(v: PileView, ancestors: Opid -> seq<Opid>, ledger: LedgerState, r: ContractState)
    requires v.Resolved()
  {
    && r.owned.Keys == ledger.owned.Keys && r.immutable.Keys == ledger.global.Keys && r.aggregated == ledger.aggregated
    && (forall n :: n in r.owned ==> r.owned[n] == OwnedOf(v, ancestors, ledger.owned[n]))
    && (forall n :: n in r.immutable ==> r.immutable[n] == ImmutableOf(v, ancestors, ledger.global[n]))
  }

  /** The owned state holds the entries of its cells and nothing else. */
  lemma {:induction false} OwnedOfCells(v: PileView, ancestors: Opid -> seq<Opid>, cells: Cells, e: OwnedState)
    requires v.Resolved()
    ensures e in OwnedOf(v, ancestors, cells) <==>
            exists i :: 0 <= i < |cells| && e in Entries(v, ancestors, cells[i].0, cells[i].1)
  {
    if cells != [] {
      var n := |cells| - 1;
      var last := Entries(v, ancestors, cells[n].0, cells[n].1);
      OwnedOfCells(v, ancestors, cells[..n], e);
      assert e in OwnedOf(v, ancestors, cells) <==> e in OwnedOf(v, ancestors, cells[..n]) || e in last;
      assert forall i :: 0 <= i < n ==> cells[..n][i] == cells[i];
    }
  }

  /** What is shown of one cell: its data under its explicit seal with the status of the documented
      formula, or under one resolved seal for each of its witnesses with the status under it, or nothing. */
  lemma CellShown(v: PileView, dag: Dag, ancestors: Opid -> seq<Opid>, addr: CellAddr, data: Data)
    requires v.Resolved() && dag.Acyclic() && ListsAncestors(dag, ancestors)
    ensures var r := Entries(v, ancestors, addr, data);
      && (forall e :: e in r ==> e.addr == addr && e.data == data)
      && (r != [] ==> addr in v.keep)
      && (addr in v.keep && v.keep[addr].primary.Extern? ==>
            |r| == 1 && r[0].seal == TxoSeal(v.keep[addr].primary.outpoint, v.keep[addr].secondary)
            && MaxOfMins(v, dag.History(addr.opid), r[0].status.QuasiHeight()))
      && (addr in v.keep && v.keep[addr].primary.Wout? ==>
            && |r| == |v.OpWids(addr.opid)|
            && forall i :: 0 <= i < |r| ==>
                 var w := v.OpWids(addr.opid)[i];
                 && r[i].seal == TxoSeal(Outpoint(w, v.keep[addr].primary.vout), v.keep[addr].secondary)
                 && MaxUnder(v, dag, addr.opid, w, r[i].status.QuasiHeight()))
  {
    StatusFormula(v, dag, ancestors, addr.opid);
    forall w | w in v.OpWids(addr.opid)
      ensures MaxUnder(v, dag, addr.opid, w, ElementStatus(v, ancestors, addr.opid, v.mine[w]).QuasiHeight())
    {
      WitnessStatusFormula(v, dag, ancestors, addr.opid, w);
    }
  }

  /** The entries of several cells are those of the first ones, and then those of the others, in order. */
  lemma {:induction false} OwnedOfParts(v: PileView, ancestors: Opid -> seq<Opid>, a: Cells, b: Cells)
    requires v.Resolved()
    ensures OwnedOf(v, ancestors, a + b) == OwnedOf(v, ancestors, a) + OwnedOf(v, ancestors, b)
  {
    if b == [] {
      assert a + b == a;
    } else {
      var init, last := b[..|b| - 1], b[|b| - 1];
      OwnedOfParts(v, ancestors, a, init);
      assert b == init + [last];
      OwnedOfPart(v, ancestors, a, init, last);
    }
  }

  lemma OwnedOfPart(v: PileView, ancestors: Opid -> seq<Opid>, a: Cells, b: Cells, c: (CellAddr, Data))
    requires v.Resolved() && OwnedOf(v, ancestors, a + b) == OwnedOf(v, ancestors, a) + OwnedOf(v, ancestors, b)
    ensures OwnedOf(v, ancestors, a + (b + [c])) == OwnedOf(v, ancestors, a) + OwnedOf(v, ancestors, b + [c])
  {
    assert a + (b + [c]) == (a + b) + [c];
    OwnedOfMore(v, ancestors, a + b, c);
    OwnedOfMore(v, ancestors, b, c);
    Regrouped(OwnedOf(v, ancestors, a), OwnedOf(v, ancestors, b), Entries(v, ancestors, c.0, c.1));
  }

  lemma Regrouped<T>(a: seq<T>, b: seq<T>, c: seq<T>)
    ensures (a + b) + c == a + (b + c)
  {
  }

  lemma OwnedOfMore(v: PileView, ancestors: Opid -> seq<Opid>, cells: Cells, c: (CellAddr, Data))
    requires v.Resolved()
    ensures OwnedOf(v, ancestors, cells + [c]) == OwnedOf(v, ancestors, cells) + Entries(v, ancestors, c.0, c.1)
  {
    assert (cells + [c])[..|cells|] == cells;
  }

  lemma OwnedOfOne(v: PileView, ancestors: Opid -> seq<Opid>, addr: CellAddr, data: Data)
    requires v.Resolved()
    ensures OwnedOf(v, ancestors, [(addr, data)]) == Entries(v, ancestors, addr, data)
  {
    assert [] + [(addr, data)] == [(addr, data)];
    OwnedOfMore(v, ancestors, [], (addr, data));
  }

  // ---------------------------------------------------------------- what is shown of the ledger

  /** An entry that a cell calls for: under its explicit seal, or under its seal resolved by a witness. */
  ghost predicate CallsFor(v: PileView, dag: Dag, addr: CellAddr, data: Data, e: OwnedState)
    requires v.Resolved() && dag.Acyclic()
  {
    && e.addr == addr && e.data == data && addr in v.keep && e.seal.secondary == v.keep[addr].secondary
    && match v.keep[addr].primary
       case Extern(outpoint) =>
         e.seal.primary == outpoint && MaxOfMins(v, dag.History(addr.opid), e.status.QuasiHeight())
       case Wout(vout) =>
         var w := e.seal.primary.txid;
         && w in v.OpWids(addr.opid) && e.seal.primary.vout == vout
         && MaxUnder(v, dag, addr.opid, w, e.status.QuasiHeight())
  }

  ghost predicate CalledFor(v: PileView, dag: Dag, cells: Cells, e: OwnedState)
    requires v.Resolved() && dag.Acyclic()
  {
    exists i :: 0 <= i < |cells| && CallsFor(v, dag, cells[i].0, cells[i].1, e)
  }

  /** The entries are the same, up to statuses of one rank. */
  predicate SameEntry(d: OwnedState, e: OwnedState) {
    d.addr == e.addr && d.seal == e.seal && d.data == e.data && d.status.QuasiHeight() == e.status.QuasiHeight()
  }

  /** A cell shows the entries it calls for and no others. */
  lemma CellShowsCalled(v: PileView, dag: Dag, ancestors: Opid -> seq<Opid>, addr: CellAddr, data: Data, e: OwnedState)
    requires v.Resolved() && dag.Acyclic() && ListsAncestors(dag, ancestors)
    ensures CallsFor(v, dag, addr, data, e) <==> exists d :: d in Entries(v, ancestors, addr, data) && SameEntry(d, e)
  {
    CellShown(v, dag, ancestors, addr, data);
    var r := Entries(v, ancestors, addr, data);
    if CallsFor(v, dag, addr, data, e) {
      if v.keep[addr].primary.Wout? {
        var i :| 0 <= i < |r| && v.OpWids(addr.opid)[i] == e.seal.primary.txid;
        assert r[i] in r && SameEntry(r[i], e);
      } else {
        assert r[0] in r && SameEntry(r[0], e);
      }
    }
    if d :| d in r && SameEntry(d, e) {
      var i :| 0 <= i < |r| && r[i] == d;
    }
  }

  /** Under each name the contract state has the entries that the cells of the ledger call for, and no others. */
  lemma OwnedShown(v: PileView, dag: Dag, ancestors: Opid -> seq<Opid>, ledger: LedgerState, r: ContractState,
                   n: StateName, e: OwnedState)
    requires v.Resolved() && dag.Acyclic() && ListsAncestors(dag, ancestors) && Shows(v, ancestors, ledger, r)
    ensures n in r.owned <==> n in ledger.owned
    ensures n in r.owned ==>
      ((exists d :: d in r.owned[n] && SameEntry(d, e)) <==> CalledFor(v, dag, ledger.owned[n], e))
  {
    if n in r.owned {
      var cells := ledger.owned[n];
      if d :| d in r.owned[n] && SameEntry(d, e) {
        OwnedOfCells(v, ancestors, cells, d);
        var i :| 0 <= i < |cells| && d in Entries(v, ancestors, cells[i].0, cells[i].1);
        CellShowsCalled(v, dag, ancestors, cells[i].0, cells[i].1, e);
      }
      if i :| 0 <= i < |cells| && CallsFor(v, dag, cells[i].0, cells[i].1, e) {
        CellShowsCalled(v, dag, ancestors, cells[i].0, cells[i].1, e);
        var d :| d in Entries(v, ancestors, cells[i].0, cells[i].1) && SameEntry(d, e);
        OwnedOfCells(v, ancestors, cells, d);
      }
    }
  }

  /** Immutable state is shown cell by cell, with the rank of the documented formula; aggregated state as it is. */
  lemma ImmutableShown(v: PileView, dag: Dag, ancestors: Opid -> seq<Opid>, ledger: LedgerState, r: ContractState)
    requires v.Resolved() && dag.Acyclic() && ListsAncestors(dag, ancestors) && Shows(v, ancestors, ledger, r)
    ensures r.aggregated == ledger.aggregated && r.immutable.Keys == ledger.global.Keys
    ensures forall n :: n in ledger.global ==> |r.immutable[n]| == |ledger.global[n]|
    ensures forall n, i :: n in ledger.global && 0 <= i < |ledger.global[n]| ==>
      ImmutableAs(v, dag, ledger.global[n][i], r.immutable[n][i])
  {
    forall n, i | n in ledger.global && 0 <= i < |ledger.global[n]|
      ensures ImmutableAs(v, dag, ledger.global[n][i], r.immutable[n][i])
    {
      StatusFormula(v, dag, ancestors, ledger.global[n][i].0.opid);
    }
  }

  ghost predicate ImmutableAs(v: PileView, dag: Dag, cell: (CellAddr, Data), e: ImmutableState)
    requires v.Resolved() && dag.Acyclic()
  {
    e.addr == cell.0 && e.data == cell.1 && MaxOfMins(v, dag.History(cell.0.opid), e.status.QuasiHeight())
  }
}
