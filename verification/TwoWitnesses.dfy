/** A cell shown under two witnesses, both of whose outputs are spent: the blank operation made for it pays
    its value out twice (src/contract.rs, `state`, and src/popls/bp.rs, `bundle` and `prefab`). */
module TwoWitnesses {
  import opened Wrappers
  import opened Seals
  import opened Piles
  import opened History
  import opened StateCalcs
  import opened Requests
  import opened Payments
  import opened Prefabs
  import opened Blanks
  import Conservation

  const TOKEN := Atom(0)
  const NAME := StateName(0)

  /** An interface in which every piece of data is one token. */
  function TokenApi(): Api {
    Api({NAME}, (n, d) => Some(multiset{TOKEN}), (n, v) => true, (n, v) => Tokens(v))
  }

  function Tokens(v: Value): Option<seq<Data>> {
    if v == Copies(|v|) then Some(Zeros(|v|)) else None
  }

  /** A number of tokens, and the data that stands for them. */
  function Copies(k: nat): Value { multiset{}[TOKEN := k] }

  function Zeros(k: nat): seq<Data> { seq(k, i => 0) }

  lemma {:induction false} ZerosSum(n: StateName, k: nat)
    ensures SumOf(TokenApi(), Label(n, Zeros(k)), n) == Copies(k)
  {
    if k > 0 {
      ZerosSum(n, k - 1);
      assert Label(n, Zeros(k)) == Label(n, Zeros(k - 1)) + [Named(n, 0)];
      SumAppend(TokenApi(), Label(n, Zeros(k - 1)), Named(n, 0), n);
      assert Copies(k) == Copies(k - 1) + multiset{TOKEN};
    }
  }

  lemma TokensSum(n: StateName)
    ensures SumOf(TokenApi(), Label(n, [0, 0]), n) == multiset{TOKEN, TOKEN}
  {
    var one, two := [Named(n, 0)], [Named(n, 0), Named(n, 0)];
    assert Label(n, [0, 0]) == two && two[..1] == one && one[..0] == [];
    assert SumOf(TokenApi(), one, n) == multiset{TOKEN};
  }

  lemma TokenApiIsLawful()
    ensures TokenApi().Lawful()
  {
    var api := TokenApi();
    forall n, v | api.split(n, v).Some?
      ensures SumOf(api, Label(n, api.split(n, v).value), n) == v && AllMeasured(api, n, api.split(n, v).value)
    {
      ZerosSum(n, |v|);
    }
    assert Copies(0) == multiset{};
  }

  // ---------------------------------------------------------------- the state and the request

  /** A cell whose seal waits for its witness, and whose operation has two. */
  ghost predicate TwiceWitnessed(v: PileView, addr: CellAddr, w1: Wid, w2: Wid) {
    && v.Resolved() && w1 != w2 && v.OpWids(addr.opid) == [w1, w2]
    && addr in v.keep && v.keep[addr].primary.Wout?
  }

  /** The output of the cell under a witness. */
  function OutputUnder(v: PileView, addr: CellAddr, w: Wid): Outpoint
    requires addr in v.keep && v.keep[addr].primary.Wout?
  {
    Outpoint(w, v.keep[addr].primary.vout)
  }

  /** The contract shows the cell and nothing else. */
  function Showing(v: PileView, ancestors: Opid -> seq<Opid>, addr: CellAddr): WalletContract
    requires v.Resolved()
  {
    WalletContract(TokenApi(), map[NAME := OwnedOf(v, ancestors, [(addr, 0)])], v)
  }

  function Allocated(addr: CellAddr, o: Outpoint): Allocation { Allocation(NAME, addr, o, 0) }

  lemma ShownTwice(v: PileView, ancestors: Opid -> seq<Opid>, addr: CellAddr, w1: Wid, w2: Wid)
    requires TwiceWitnessed(v, addr, w1, w2)
    ensures var cells := Showing(v, ancestors, addr).owned[NAME];
      && |cells| == 2
      && AllocationOf(NAME, cells[0]) == Allocated(addr, OutputUnder(v, addr, w1))
      && AllocationOf(NAME, cells[1]) == Allocated(addr, OutputUnder(v, addr, w2))
  {
    OwnedOfOne(v, ancestors, addr, 0);
    assert Entries(v, ancestors, addr, 0) == WitnessEntries(v, ancestors, addr, 0, [w1, w2]);
  }

  lemma BothAffected(cells: seq<OwnedState>, a: Allocation, b: Allocation, outpoints: set<Outpoint>)
    requires |cells| == 2 && AllocationOf(NAME, cells[0]) == a && AllocationOf(NAME, cells[1]) == b
    requires a.outpoint in outpoints && b.outpoint in outpoints
    ensures Affected(map[NAME := cells], outpoints) == [a, b]
  {
    var owned := map[NAME := cells];
    assert cells[..1] == [cells[0]] && cells[..1][..0] == [];
    assert AffectedOf(NAME, cells[..1], outpoints) == [a];
    assert AffectedOf(NAME, cells, outpoints) == [a, b];
    SortedOne();
    assert owned.Keys == {NAME};
    assert [NAME][..0] == [];
    assert AffectedIn(owned, [NAME], outpoints)
        == AffectedIn(owned, [], outpoints) + AffectedOf(NAME, cells, outpoints);
  }

  lemma SortedOne()
    ensures Sorted({NAME}) == [NAME]
  {
    assert {NAME} - {NAME} == {};
    assert Sorted({NAME}) == [NAME] + Sorted({NAME} - {NAME});
  }

  /** The blank request: both entries go in, two tokens come out. */
  function DoubleRequest(h: Hashes, contractId: ContractId, vout: Vout, addr: CellAddr, o1: Outpoint, o2: Outpoint):
    OpRequest<PrefabSeal>
  {
    OpRequest(contractId, BLANK, [], UsingOf([Allocated(addr, o1), Allocated(addr, o2)]), [],
              BlankAssignments(h, contractId, vout, NAME, [0, 0], 0))
  }

  // ---------------------------------------------------------------- value out of nothing

  /** The check accepts the blank request, its operation has one input, worth a token, and pays out two. */
  lemma BlankPaysTwice(h: Hashes, contractId: ContractId, v: PileView, ancestors: Opid -> seq<Opid>, addr: CellAddr,
                       w1: Wid, w2: Wid, vout: Vout, p: Prefab)
    requires TwiceWitnessed(v, addr, w1, w2)
    requires Builds(h, DoubleRequest(h, contractId, vout, addr, OutputUnder(v, addr, w1), OutputUnder(v, addr, w2)), p)
    ensures var c := Showing(v, ancestors, addr);
      var o1, o2 := OutputUnder(v, addr, w1), OutputUnder(v, addr, w2);
      && c.api.Lawful() && ConsistentCells(c.owned)
      && IsBlank(h, contractId, c, {o1, o2}, Some(vout), DoubleRequest(h, contractId, vout, addr, o1, o2))
      && p.operation.params.using.Keys == {addr}
      && Conservation.SpentBy(c.api, c.owned, p.operation.params, NAME) == multiset{TOKEN}
      && Conservation.PaidOutBy(c.api, p.operation.params, NAME) == multiset{TOKEN, TOKEN}
  {
    var c, o1, o2 := Showing(v, ancestors, addr), OutputUnder(v, addr, w1), OutputUnder(v, addr, w2);
    TokenApiIsLawful();
    ShownTwice(v, ancestors, addr, w1, w2);
    BothAffected(c.owned[NAME], Allocated(addr, o1), Allocated(addr, o2), {o1, o2});
    InputIsOneToken(c.owned, addr);
    DoubleIsBlank(h, contractId, c, vout, addr, o1, o2);
    DoublePays(h, contractId, c.owned, vout, addr, o1, o2, p);
  }

  lemma InputIsOneToken(owned: OwnedMap, addr: CellAddr)
    requires owned.Keys == {NAME} && |owned[NAME]| == 2
    requires forall i :: 0 <= i < 2 ==> owned[NAME][i].addr == addr && owned[NAME][i].data == 0
    ensures ConsistentCells(owned) && Locate(owned, addr) == Some(Named(NAME, 0))
  {
    LocateEntry(owned, NAME, 0);
  }

  lemma DoubleIsBlank(h: Hashes, contractId: ContractId, c: WalletContract, vout: Vout, addr: CellAddr, o1: Outpoint,
                      o2: Outpoint)
    requires c.api == TokenApi() && Locate(c.owned, addr) == Some(Named(NAME, 0))
    requires Affected(c.owned, {o1, o2}) == [Allocated(addr, o1), Allocated(addr, o2)]
    ensures IsBlank(h, contractId, c, {o1, o2}, Some(vout), DoubleRequest(h, contractId, vout, addr, o1, o2))
  {
    DoubleIsAccepted(h, contractId, c.owned, vout, addr, o1, o2);
    ToChange(h, contractId, vout);
  }

  lemma ToChange(h: Hashes, contractId: ContractId, vout: Vout)
    ensures AllToChange(h, contractId, Some(vout), BlankAssignments(h, contractId, vout, NAME, [0, 0], 0))
  {
  }

  lemma DoubleIsAccepted(h: Hashes, contractId: ContractId, owned: OwnedMap, vout: Vout, addr: CellAddr, o1: Outpoint,
                         o2: Outpoint)
    requires Locate(owned, addr) == Some(Named(NAME, 0))
    ensures var req := DoubleRequest(h, contractId, vout, addr, o1, o2);
      Acceptable(TokenApi(), owned, req.using, OutputsOf(req.owned))
  {
    var req := DoubleRequest(h, contractId, vout, addr, o1, o2);
    TwoInputs(owned, addr, req.using);
    TwoOutputs(h, contractId, vout);
    TwoTokensAreAccepted(owned, req.using, OutputsOf(req.owned));
  }

  lemma TwoInputs(owned: OwnedMap, addr: CellAddr, using: seq<UsedState>)
    requires Locate(owned, addr) == Some(Named(NAME, 0)) && |using| == 2 && using[0].addr == using[1].addr == addr
    ensures AllLocated(owned, using) && InputsOf(owned, using) == Label(NAME, [0, 0])
  {
    var ins := Label(NAME, [0, 0]);
    forall i | 0 <= i < |using| ensures Locate(owned, using[i].addr) == Some(ins[i]) {
      assert using[i].addr == addr && ins[i] == Named(NAME, 0);
    }
    InputsAre(owned, using, ins);
  }

  lemma TwoOutputs(h: Hashes, contractId: ContractId, vout: Vout)
    ensures OutputsOf(BlankAssignments(h, contractId, vout, NAME, [0, 0], 0)) == Label(NAME, [0, 0])
  {
  }

  lemma TwoTokensAreAccepted(owned: OwnedMap, using: seq<UsedState>, outs: seq<Named>)
    requires AllLocated(owned, using) && InputsOf(owned, using) == outs && outs == Label(NAME, [0, 0])
    ensures Acceptable(TokenApi(), owned, using, outs)
  {
    assert Countable(TokenApi(), outs) && FitsAll(TokenApi(), outs);
  }

  lemma DoublePays(h: Hashes, contractId: ContractId, owned: OwnedMap, vout: Vout, addr: CellAddr, o1: Outpoint,
                   o2: Outpoint, p: Prefab)
    requires Locate(owned, addr) == Some(Named(NAME, 0))
    requires Builds(h, DoubleRequest(h, contractId, vout, addr, o1, o2), p)
    ensures p.operation.params.using.Keys == {addr}
    ensures Conservation.SpentBy(TokenApi(), owned, p.operation.params, NAME) == multiset{TOKEN}
    ensures Conservation.PaidOutBy(TokenApi(), p.operation.params, NAME) == multiset{TOKEN, TOKEN}
  {
    var req, params := DoubleRequest(h, contractId, vout, addr, o1, o2), p.operation.params;
    Conservation.InputsAreCells(req.using);
    assert Conservation.Addrs(req.using) == [addr, addr];
    assert params.using.Keys == {addr};
    OneTokenSpent(owned, addr);
    TwoOutputs(h, contractId, vout);
    assert Conservation.DataOf(params.owned) == OutputsOf(req.owned);
    TokensSum(NAME);
  }

  lemma OneTokenSpent(owned: OwnedMap, addr: CellAddr)
    requires Locate(owned, addr) == Some(Named(NAME, 0))
    ensures Conservation.WorthOf(TokenApi(), Conservation.CellsOf(owned), {addr}, NAME) == multiset{TOKEN}
  {
    Conservation.WorthWithout(TokenApi(), Conservation.CellsOf(owned), {addr}, NAME, addr);
    assert {addr} - {addr} == {};
  }
}
