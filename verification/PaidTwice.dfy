/** A payment whose operation pays a cell out twice: the cell is shown under two witnesses, and other cells select
    both its outputs (src/popls/bp.rs:486-498). */
module PaidTwice {
  import opened Wrappers
  import opened Seals
  import opened Piles
  import opened History
  import opened StateCalcs
  import opened Requests
  import opened Fulfilment
  import opened Payments
  import opened Prefabs
  import opened TwoWitnesses
  import Conservation

  /** Cell `a` has two witnesses; `b` and `c` lie on the two outputs it is shown on. */
  datatype Wallet = Wallet(a: CellAddr, b: CellAddr, c: CellAddr, w1: Wid, w2: Wid)

  ghost predicate Sees(v: PileView, w: Wallet) {
    && TwiceWitnessed(v, w.a, w.w1, w.w2) && w.a != w.b && w.a != w.c && w.b != w.c
    && SealedTo(v, w.b, OutputUnder(v, w.a, w.w1)) && SealedTo(v, w.c, OutputUnder(v, w.a, w.w2))
  }

  predicate SealedTo(v: PileView, addr: CellAddr, o: Outpoint) {
    addr in v.keep && v.keep[addr].primary == Extern(o)
  }

  function CellsShown(w: Wallet): Cells { [(w.b, 0)] + [(w.c, 0)] + [(w.a, 0)] }

  function StateShown(v: PileView, ancestors: Opid -> seq<Opid>, w: Wallet): OwnedMap
    requires v.Resolved()
  {
    map[NAME := OwnedOf(v, ancestors, CellsShown(w))]
  }

  /** The four allocations of the wallet: one of each of the other cells, and two of `a`. */
  function Four(w: Wallet, o1: Outpoint, o2: Outpoint): seq<OwnCell> {
    [OwnCell(w.b, o1, 0), OwnCell(w.c, o2, 0), OwnCell(w.a, o1, 0), OwnCell(w.a, o2, 0)]
  }

  /** A selection of the first two. */
  function Selected(w: Wallet, o1: Outpoint, o2: Outpoint): seq<(CellAddr, Outpoint)> { [(w.b, o1), (w.c, o2)] }

  function TwoTokens(): StateCalc { StateCalc(NAME, multiset{TOKEN, TOKEN}) }

  function Selects(w: Wallet, o1: Outpoint, o2: Outpoint): Selector {
    (value, c, cells) =>
      if c == StateCalc(NAME, multiset{}) && cells == Four(w, o1, o2)
      then Some((Selected(w, o1, o2), TwoTokens())) else None
  }

  function Pay(contractId: ContractId, auth: AuthToken): Invoice {
    Invoice(contractId, Some(CallSpec(MethodName("transfer"), Some(NAME))), Some(0), ByToken(auth))
  }

  // ---------------------------------------------------------------- the state and the selection

  function AsOwn(cells: seq<OwnedState>): seq<OwnCell> {
    Mapped(cells, (e: OwnedState) => OwnCell(e.addr, e.seal.primary, e.data))
  }

  lemma AsOwnConcat(a: seq<OwnedState>, b: seq<OwnedState>)
    ensures AsOwn(a + b) == AsOwn(a) + AsOwn(b)
  {
  }

  lemma OneEntry(v: PileView, ancestors: Opid -> seq<Opid>, addr: CellAddr, o: Outpoint)
    requires v.Resolved() && SealedTo(v, addr, o)
    ensures AsOwn(Entries(v, ancestors, addr, 0)) == [OwnCell(addr, o, 0)]
  {
  }

  lemma TwoEntries(v: PileView, ancestors: Opid -> seq<Opid>, addr: CellAddr, w1: Wid, w2: Wid)
    requires TwiceWitnessed(v, addr, w1, w2)
    ensures AsOwn(Entries(v, ancestors, addr, 0))
         == [OwnCell(addr, OutputUnder(v, addr, w1), 0), OwnCell(addr, OutputUnder(v, addr, w2), 0)]
  {
    assert Entries(v, ancestors, addr, 0) == WitnessEntries(v, ancestors, addr, 0, [w1, w2]);
  }

  lemma OwnedMore(v: PileView, ancestors: Opid -> seq<Opid>, cells: Cells, addr: CellAddr)
    requires v.Resolved()
    ensures AsOwn(OwnedOf(v, ancestors, cells + [(addr, 0)]))
         == AsOwn(OwnedOf(v, ancestors, cells)) + AsOwn(Entries(v, ancestors, addr, 0))
  {
    OwnedOfMore(v, ancestors, cells, (addr, 0));
    AsOwnConcat(OwnedOf(v, ancestors, cells), Entries(v, ancestors, addr, 0));
  }

  lemma FourShown(v: PileView, ancestors: Opid -> seq<Opid>, w: Wallet)
    requires Sees(v, w)
    ensures AsOwn(StateShown(v, ancestors, w)[NAME]) == Four(w, OutputUnder(v, w.a, w.w1), OutputUnder(v, w.a, w.w2))
  {
    var o1, o2 := OutputUnder(v, w.a, w.w1), OutputUnder(v, w.a, w.w2);
    OneEntry(v, ancestors, w.b, o1);
    OneEntry(v, ancestors, w.c, o2);
    TwoEntries(v, ancestors, w.a, w.w1, w.w2);
    OwnedMore(v, ancestors, [], w.b);
    OwnedMore(v, ancestors, [(w.b, 0)], w.c);
    OwnedMore(v, ancestors, [(w.b, 0)] + [(w.c, 0)], w.a);
    assert [] + [(w.b, 0)] == [(w.b, 0)];
    Joined(w, o1, o2);
  }

  lemma Joined(w: Wallet, o1: Outpoint, o2: Outpoint)
    ensures [OwnCell(w.b, o1, 0)] + [OwnCell(w.c, o2, 0)] + [OwnCell(w.a, o1, 0), OwnCell(w.a, o2, 0)]
         == Four(w, o1, o2)
  {
  }

  lemma {:induction false} AllOwn(utxos: set<Outpoint>, cells: seq<OwnedState>)
    requires forall e :: e in cells ==> e.seal.primary in utxos
    ensures OwnCells(utxos, cells) == AsOwn(cells)
  {
    if cells != [] {
      var init, last := cells[..|cells| - 1], cells[|cells| - 1];
      assert last in cells && forall e :: e in init ==> e in cells;
      AllOwn(utxos, init);
      AsOwnConcat(init, [last]);
      assert cells == init + [last];
    }
  }

  lemma FourOwn(owned: seq<OwnedState>, w: Wallet, o1: Outpoint, o2: Outpoint)
    requires AsOwn(owned) == Four(w, o1, o2)
    ensures OwnCells({o1, o2}, owned) == Four(w, o1, o2)
  {
    forall e | e in owned ensures e.seal.primary in {o1, o2} {
      var i :| 0 <= i < |owned| && owned[i] == e;
      assert AsOwn(owned)[i].outpoint == e.seal.primary;
    }
    AllOwn({o1, o2}, owned);
  }

  lemma SelectsExactly(w: Wallet, o1: Outpoint, o2: Outpoint)
    ensures ExactSelection(TokenApi(), Selects(w, o1, o2))
  {
    var used := [OwnCell(w.b, o1, 0), OwnCell(w.c, o2, 0)];
    SumOfTwo(used);
    assert Four(w, o1, o2)[0] == used[0] && Four(w, o1, o2)[1] == used[1];
    assert Accumulated(TokenApi(), NAME, Four(w, o1, o2), used, Selected(w, o1, o2), TwoTokens());
  }

  lemma SumOfTwo(used: seq<OwnCell>)
    requires |used| == 2 && used[0].data == used[1].data == 0
    ensures SumOf(TokenApi(), NamedCells(NAME, used), NAME) == multiset{TOKEN, TOKEN}
  {
    assert NamedCells(NAME, used) == Label(NAME, [0, 0]);
    TokensSum(NAME);
  }

  /** The loop adds `a` under each of the outputs: only the selected addresses are left out. */
  lemma AddsTwice(w: Wallet, o1: Outpoint, o2: Outpoint)
    requires w.a != w.b && w.a != w.c
    ensures Extra(TokenApi(), Four(w, o1, o2), 4, Selected(w, o1, o2), TwoTokens()).0 == [(w.a, o1), (w.a, o2)]
  {
    var cells, selected := Four(w, o1, o2), Selected(w, o1, o2);
    assert selected[0] in selected && selected[1] in selected;
    assert OnOutput(selected, o1) && OnOutput(selected, o2);
    assert OnAddr(selected, w.b) && OnAddr(selected, w.c) && !OnAddr(selected, w.a);
    assert Extra(TokenApi(), cells, 2, selected, TwoTokens()) == ([], TwoTokens()) by {
      assert Extra(TokenApi(), cells, 1, selected, TwoTokens()) == ([], TwoTokens());
    }
    assert Extra(TokenApi(), cells, 3, selected, TwoTokens()).0 == [(w.a, o1)];
  }

  // ---------------------------------------------------------------- the payment

  function Listed(w: Wallet): seq<CellAddr> { [w.b, w.c, w.a, w.a] }

  /** The payment is made, and lists `a` twice. */
  method PayWithFour(v: PileView, ancestors: Opid -> seq<Opid>, w: Wallet, contractId: ContractId, auth: AuthToken)
    returns (r: OpRequest<PaymentSeal>)
    requires Sees(v, w)
    ensures Pays(TokenApi(), StateShown(v, ancestors, w), NAME, 0, Token(auth), r)
    ensures Conservation.Addrs(r.using) == Listed(w)
  {
    var o1, o2 := OutputUnder(v, w.a, w.w1), OutputUnder(v, w.a, w.w2);
    var owned := StateShown(v, ancestors, w);
    TokenApiIsLawful();
    FourShown(v, ancestors, w);
    FourAreConsistent(owned, w, o1, o2);
    SelectsExactly(w, o1, o2);
    var paid := Fulfill(TokenApi(), owned, {o1, o2}, None, Pay(contractId, auth), Selects(w, o1, o2), None);
    GoesThrough(owned, w, o1, o2, contractId, auth, paid);
    r := paid.value;
  }

  function Spent(w: Wallet, o1: Outpoint, o2: Outpoint): seq<UsedState> {
    ToUsed(Selected(w, o1, o2) + [(w.a, o1), (w.a, o2)])
  }

  lemma GoesThrough(owned: OwnedMap, w: Wallet, o1: Outpoint, o2: Outpoint, contractId: ContractId, auth: AuthToken,
                    r: Result<OpRequest<PaymentSeal>, FulfillError>)
    requires NAME in owned && AsOwn(owned[NAME]) == Four(w, o1, o2) && w.a != w.b && w.a != w.c
    requires forall i :: 0 <= i < 4 ==> Locate(owned, Listed(w)[i]) == Some(Named(NAME, 0))
    requires Answers(TokenApi(), owned, {o1, o2}, Pay(contractId, auth).call, Pay(contractId, auth),
                     Selects(w, o1, o2), None, r)
    ensures r.Ok? && Pays(TokenApi(), owned, NAME, 0, Token(auth), r.value)
    ensures Conservation.Addrs(r.value.using) == Listed(w)
  {
    FourOwn(owned[NAME], w, o1, o2);
    SpendsFour(w, o1, o2);
    FourTokensAreEnough(owned, w, o1, o2);
    NothingMissing(owned, w, o1, o2, contractId, auth);
    AnswerPays(TokenApi(), owned, {o1, o2}, Pay(contractId, auth).call, Pay(contractId, auth), Selects(w, o1, o2), None,
               r, NAME, 0, Spent(w, o1, o2));
  }

  lemma SpendsFour(w: Wallet, o1: Outpoint, o2: Outpoint)
    requires w.a != w.b && w.a != w.c
    ensures Spending(TokenApi(), Four(w, o1, o2), (Selected(w, o1, o2), TwoTokens())) == Spent(w, o1, o2)
    ensures Conservation.Addrs(Spent(w, o1, o2)) == Listed(w)
  {
    AddsTwice(w, o1, o2);
  }

  lemma NothingMissing(owned: OwnedMap, w: Wallet, o1: Outpoint, o2: Outpoint, contractId: ContractId, auth: AuthToken)
    requires NAME in owned && OwnCells({o1, o2}, owned[NAME]) == Four(w, o1, o2)
    ensures Obstacle(TokenApi(), owned, {o1, o2}, Pay(contractId, auth).call, Pay(contractId, auth), Selects(w, o1, o2),
                     None).None?
    ensures Picked(owned, {o1, o2}, NAME, 0, Selects(w, o1, o2)) == Some((Selected(w, o1, o2), TwoTokens()))
  {
  }

  lemma FourAreConsistent(owned: OwnedMap, w: Wallet, o1: Outpoint, o2: Outpoint)
    requires owned.Keys == {NAME} && AsOwn(owned[NAME]) == Four(w, o1, o2)
    ensures ConsistentCells(owned)
    ensures forall i :: 0 <= i < 4 ==> Locate(owned, Listed(w)[i]) == Some(Named(NAME, 0))
  {
    forall i | 0 <= i < 4 ensures owned[NAME][i].addr == Listed(w)[i] && owned[NAME][i].data == 0 {
      assert AsOwn(owned[NAME])[i] == Four(w, o1, o2)[i];
    }
    forall i | 0 <= i < 4 ensures Locate(owned, Listed(w)[i]) == Some(Named(NAME, 0)) {
      LocateEntry(owned, NAME, i);
    }
  }

  /** Four tokens cover one, and the rest can be expressed. */
  lemma FourTokensAreEnough(owned: OwnedMap, w: Wallet, o1: Outpoint, o2: Outpoint)
    requires forall i :: 0 <= i < 4 ==> Locate(owned, Listed(w)[i]) == Some(Named(NAME, 0))
    ensures var spent := Spent(w, o1, o2);
      && AllLocated(owned, spent)
      && Shortage(TokenApi(), StateCalc(NAME, SumOf(TokenApi(), InputsOf(owned, spent), NAME)), 0).None?
  {
    var spent := Spent(w, o1, o2);
    var ins := Label(NAME, Zeros(4));
    forall i | 0 <= i < |spent| ensures Locate(owned, spent[i].addr) == Some(ins[i]) {
      assert spent[i].addr == Listed(w)[i];
    }
    InputsAre(owned, spent, ins);
    ZerosSum(NAME, 4);
    assert Copies(4) - multiset{TOKEN} == Copies(3) && |Copies(3)| == 3;
  }

  /** Its operation pays out one token more than the cells it spends are worth. */
  lemma PaysTwice(h: Hashes, v: PileView, ancestors: Opid -> seq<Opid>, w: Wallet, auth: AuthToken,
                  before: OpRequest<PaymentSeal>, after: OpRequest<PrefabSeal>, resolver: Resolver,
                  change: Option<Vout>, params: CallParams)
    requires Sees(v, w) && Pays(TokenApi(), StateShown(v, ancestors, w), NAME, 0, Token(auth), before)
    requires Conservation.Addrs(before.using) == Listed(w)
    requires RequestResolved(h, before, after, resolver, change) && ParamsMatch(h, after, params)
    ensures Conservation.PaidOutBy(TokenApi(), params, NAME)
         == Conservation.SpentBy(TokenApi(), StateShown(v, ancestors, w), params, NAME) + multiset{TOKEN}
    ensures !Conservation.Conserves(TokenApi(), StateShown(v, ancestors, w), params)
  {
    FindsTheCell(v, ancestors, w);
    PaysOneMore(h, StateShown(v, ancestors, w), w, auth, before, after, resolver, change, params);
  }

  lemma FindsTheCell(v: PileView, ancestors: Opid -> seq<Opid>, w: Wallet)
    requires Sees(v, w)
    ensures Locate(StateShown(v, ancestors, w), w.a) == Some(Named(NAME, 0))
  {
    FourShown(v, ancestors, w);
    FourAreConsistent(StateShown(v, ancestors, w), w, OutputUnder(v, w.a, w.w1), OutputUnder(v, w.a, w.w2));
    assert Listed(w)[3] == w.a;
  }

  lemma PaysOneMore(h: Hashes, owned: OwnedMap, w: Wallet, auth: AuthToken, before: OpRequest<PaymentSeal>,
                    after: OpRequest<PrefabSeal>, resolver: Resolver, change: Option<Vout>, params: CallParams)
    requires Locate(owned, w.a) == Some(Named(NAME, 0)) && w.a != w.b && w.a != w.c && w.b != w.c
    requires Pays(TokenApi(), owned, NAME, 0, Token(auth), before) && Conservation.Addrs(before.using) == Listed(w)
    requires RequestResolved(h, before, after, resolver, change) && ParamsMatch(h, after, params)
    ensures Conservation.PaidOutBy(TokenApi(), params, NAME)
         == Conservation.SpentBy(TokenApi(), owned, params, NAME) + multiset{TOKEN}
    ensures !Conservation.Conserves(TokenApi(), owned, params)
  {
    ResolutionKeepsBalance(h, before, after, resolver, change, TokenApi(), owned);
    Conservation.PaysOutRepeats(h, TokenApi(), owned, after, params, NAME);
    RepeatedOnce(w);
    OneToken(Conservation.CellsOf(owned), w.a);
    Conservation.NothingMore(Conservation.SpentBy(TokenApi(), owned, params, NAME), multiset{TOKEN});
  }

  lemma RepeatedOnce(w: Wallet)
    requires w.a != w.b && w.a != w.c && w.b != w.c
    ensures Conservation.Repeated(Listed(w)) == [w.a]
  {
    var l := Listed(w);
    assert l[..3] == [w.b, w.c, w.a] && l[..3][..2] == [w.b, w.c] && l[..3][..2][..1] == [w.b];
    assert Conservation.Repeated([w.b]) == [] && Conservation.Repeated([w.b, w.c]) == [];
    assert Conservation.Repeated([w.b, w.c, w.a]) == [];
  }

  lemma OneToken(at: Conservation.Lookup, a: CellAddr)
    requires at(a) == Named(NAME, 0)
    ensures SumOf(TokenApi(), Conservation.Entries(at, [a]), NAME) == multiset{TOKEN}
  {
    var one := Conservation.Entries(at, [a]);
    assert one == [Named(NAME, 0)] && one[..0] == [];
  }
}
