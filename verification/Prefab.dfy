/** One prefabricated operation (src/popls/bp.rs, `prefab`). */
module Prefabs {
  import opened Wrappers
  import opened Seals
  import opened Piles
  import opened History
  import opened StateCalcs
  import opened Requests
  import opened Payments

  const BLANK := MethodName("_")

  /** A contract as the wallet sees it: its interface, its owned state, its tables. */
  datatype WalletContract = WalletContract(api: Api, owned: OwnedMap, pile: PileView)

  /** An output of an operation: what it is, and the token of the seal that owns it. */
  datatype DataCell = DataCell(name: StateName, data: Data, auth: AuthToken)

  datatype CallParams = CallParams(
    methodName: MethodName,
    global: seq<Named>,
    owned: seq<DataCell>,
    using: map<CellAddr, Option<int>>,
    reading: seq<CellAddr>)

  datatype Operation = Operation(contractId: ContractId, opid: Opid, params: CallParams)

  datatype Prefab = Prefab(closes: set<Outpoint>, defines: set<Vout>, operation: Operation)

  /** `SealOverflow` stands for the panic when the seal map is full. */
  datatype PrefabError = TooManyInputs | TooManyOutputs | SealOverflow | Unmatched(error: UnmatchedState) | Accept

  datatype BundleError =
    | Requested(error: PrefabError) | Blank(error: PrefabError)
    | ChangeRequired | StateError(cause: CalcsError) | TooManyBlanks

  /** The ledger's own handling of a call, which is not part of this model: it rejects the call or
      answers with the new operation and the owned state that will be shown from then on. */
  type LedgerCall = (ContractId, WalletContract, CallParams) -> Option<(Opid, OwnedMap)>

  // ---------------------------------------------------------------- one operation

  function UsingMap(using: seq<UsedState>): (r: map<CellAddr, Option<int>>)
    ensures forall a :: a in r <==> exists i :: 0 <= i < |using| && using[i].addr == a
  {
    if using == [] then map[]
    else
      var n := |using| - 1;
      UsingMap(using[..n])[using[n].addr := using[n].satisfaction]
  }

  predicate LastWith(using: seq<UsedState>, i: nat)
    requires i < |using|
  {
    forall j :: i < j < |using| ==> using[j].addr != using[i].addr
  }

  /** Of the entries with one address, the last gives the satisfaction of the input. */
  lemma {:induction false} LastSatisfies(using: seq<UsedState>, i: nat)
    requires i < |using| && LastWith(using, i)
    ensures using[i].addr in UsingMap(using) && UsingMap(using)[using[i].addr] == using[i].satisfaction
  {
    var n := |using| - 1;
    if i < n {
      LastSatisfies(using[..n], i);
      assert using[..n][i].addr in UsingMap(using[..n]) && using[n].addr != using[i].addr;
    }
  }

  /** The operation has one input for each used entry exactly when no address is used twice: entries
      shown for one cell under two witnesses are summed twice by the check, and are one input. */
  lemma {:induction false} InputsCountedOnce(using: seq<UsedState>)
    ensures |UsingMap(using)| <= |using|
    ensures |UsingMap(using)| == |using| <==> DistinctAddrs(using)
  {
    if using != [] {
      var n := |using| - 1;
      InputsCountedOnce(using[..n]);
      DistinctStep(using[..n], using[n]);
      assert using == using[..n] + [using[n]];
    }
  }

  predicate DistinctAddrs(using: seq<UsedState>) {
    forall i, j :: 0 <= i < j < |using| ==> using[i].addr != using[j].addr
  }

  lemma DistinctStep(using: seq<UsedState>, u: UsedState)
    ensures DistinctAddrs(using + [u]) <==> DistinctAddrs(using) && u.addr !in UsingMap(using)
  {
    var longer := using + [u];
    assert forall i :: 0 <= i < |using| ==> longer[i] == using[i];
    if DistinctAddrs(longer) {
      assert forall i :: 0 <= i < |using| ==> using[i].addr != longer[|using|].addr;
    }
  }

  function ClosedBy(using: seq<UsedState>): set<Outpoint> {
    set i | 0 <= i < |using| :: using[i].outpoint
  }

  function TokenAt(h: Hashes, contractId: ContractId, i: nat, seal: EitherSeal<PrefabSeal>): AuthToken {
    match seal
    case Token(auth) => auth
    case Alt(s) => h.authToken(SealAt(h, contractId, i, s))
  }

  function DefinedBy(owned: seq<Assigned<PrefabSeal>>): set<Vout> {
    set i | 0 <= i < |owned| && owned[i].seal.Alt? :: owned[i].seal.seal.vout
  }

  /** The cells carry the names, data and tokens of the requested outputs, in order. */
  ghost predicate CellsMatch(h: Hashes, contractId: ContractId, owned: seq<Assigned<PrefabSeal>>,
                             cells: seq<DataCell>) {
    && |cells| == |owned|
    && forall i :: 0 <= i < |owned| ==>
         cells[i] == DataCell(owned[i].name, owned[i].data, TokenAt(h, contractId, i, owned[i].seal))
  }

  /** The seal map has exactly the positions of the explicit seals as keys, with those seals. */
  ghost predicate SealsMatch(h: Hashes, contractId: ContractId, owned: seq<Assigned<PrefabSeal>>,
                             seals: map<U16, WTxoSeal>) {
    && (forall i :: i in seals <==> 0 <= i < |owned| && owned[i].seal.Alt?)
    && forall i :: i in seals ==> seals[i] == SealAt(h, contractId, i, owned[i].seal.seal)
  }

  /** What the loop over the outputs of an operation builds. */
  datatype Outputs = Outputs(defines: set<Vout>, seals: map<U16, WTxoSeal>, cells: seq<DataCell>)

  /** A cast to sixteen bits. */
  function Truncate(i: nat): (r: U16)
    ensures i <= U16_MAX ==> r == i
    ensures (i - r) % 0x1_0000 == 0
  {
    i % 0x1_0000
  }

  /** The truncated positions of the explicit seals. */
  function Positions(owned: seq<Assigned<PrefabSeal>>): set<U16> {
    set i | 0 <= i < |owned| && owned[i].seal.Alt? :: Truncate(i)
  }

  /** All explicit seals are among the first 65536. */
  predicate InReach(owned: seq<Assigned<PrefabSeal>>) {
    forall i :: 0 <= i < |owned| && owned[i].seal.Alt? ==> i <= U16_MAX
  }

  /** One output more. Its position is truncated to sixteen bits, and a full collection refuses it. */
  function AddOutput(h: Hashes, contractId: ContractId, o: Outputs, i: nat, a: Assigned<PrefabSeal>):
    Result<Outputs, PrefabError>
  {
    match a.seal
    case Token(auth) => Ok(o.(cells := o.cells + [DataCell(a.name, a.data, auth)]))
    case Alt(s) =>
      if |o.defines| >= U16_MAX then Err(TooManyOutputs)
      else if |o.seals| >= U16_MAX then Err(SealOverflow)
      else
        var seal := SealAt(h, contractId, i, s);
        Ok(Outputs(o.defines + {s.vout}, o.seals[Truncate(i) := seal],
                   o.cells + [DataCell(a.name, a.data, h.authToken(seal))]))
  }

  /** As many distinct outputs, or as many distinct positions, as a collection holds. */
  predicate NoRoom(owned: seq<Assigned<PrefabSeal>>) {
    |DefinedBy(owned)| >= U16_MAX || |Positions(owned)| >= U16_MAX
  }

  /** An explicit output finds no room after `owned`. */
  predicate Blocked(owned: seq<Assigned<PrefabSeal>>, a: Assigned<PrefabSeal>) {
    a.seal.Alt? && NoRoom(owned)
  }

  /** Each of the first `n` outputs finds room. */
  predicate Fit(owned: seq<Assigned<PrefabSeal>>, n: nat) {
    n <= |owned| && forall i :: 0 <= i < n ==> !Blocked(owned[..i], owned[i])
  }

  /** The outputs found full come first, then the seals. */
  function Overflow(owned: seq<Assigned<PrefabSeal>>): PrefabError {
    if |DefinedBy(owned)| >= U16_MAX then TooManyOutputs else SealOverflow
  }

  /** The first output that finds no room fails with `e`. */
  ghost predicate Overflows(owned: seq<Assigned<PrefabSeal>>, e: PrefabError) {
    exists i: nat :: i < |owned| && FirstBlocked(owned, i) && e == Overflow(owned[..i])
  }

  predicate FirstBlocked(owned: seq<Assigned<PrefabSeal>>, i: nat)
    requires i < |owned|
  {
    Fit(owned, i) && Blocked(owned[..i], owned[i])
  }

  ghost predicate OutputsMatch(h: Hashes, contractId: ContractId, owned: seq<Assigned<PrefabSeal>>, o: Outputs) {
    && o.defines == DefinedBy(owned) && o.seals.Keys == Positions(owned)
    && CellsMatch(h, contractId, owned, o.cells)
    && (InReach(owned) ==> SealsMatch(h, contractId, owned, o.seals))
  }

  lemma AddOutputMatches(h: Hashes, contractId: ContractId, owned: seq<Assigned<PrefabSeal>>, o: Outputs,
                         a: Assigned<PrefabSeal>)
    requires OutputsMatch(h, contractId, owned, o)
    ensures var r := AddOutput(h, contractId, o, |owned|, a);
      && (r.Err? <==> Blocked(owned, a))
      && (r.Err? ==> r.error == Overflow(owned))
      && (r.Ok? ==> OutputsMatch(h, contractId, owned + [a], r.value))
  {
    assert |o.seals.Keys| == |o.seals|;
    var r := AddOutput(h, contractId, o, |owned|, a);
    if r.Ok? {
      AddedCells(h, contractId, owned, o, a, r.value);
      AddedSeals(h, contractId, owned, o, a, r.value);
    }
  }

  lemma AddedCells(h: Hashes, contractId: ContractId, owned: seq<Assigned<PrefabSeal>>, o: Outputs,
                   a: Assigned<PrefabSeal>, next: Outputs)
    requires AddOutput(h, contractId, o, |owned|, a) == Ok(next)
    requires CellsMatch(h, contractId, owned, o.cells) && o.defines == DefinedBy(owned)
    ensures CellsMatch(h, contractId, owned + [a], next.cells) && next.defines == DefinedBy(owned + [a])
  {
    CellsStep(h, contractId, owned, a, o.cells, DataCell(a.name, a.data, TokenAt(h, contractId, |owned|, a.seal)));
    DefinedStep(owned, a);
  }

  lemma AddedSeals(h: Hashes, contractId: ContractId, owned: seq<Assigned<PrefabSeal>>, o: Outputs,
                   a: Assigned<PrefabSeal>, next: Outputs)
    requires AddOutput(h, contractId, o, |owned|, a) == Ok(next) && o.seals.Keys == Positions(owned)
    requires InReach(owned) ==> SealsMatch(h, contractId, owned, o.seals)
    ensures next.seals.Keys == Positions(owned + [a])
    ensures InReach(owned + [a]) ==> SealsMatch(h, contractId, owned + [a], next.seals)
  {
    PositionsStep(owned, a);
    if InReach(owned + [a]) {
      ReachStep(owned, a);
      SealsStep(h, contractId, owned, a, o.seals);
    }
  }

  /** The first `i` outputs found room and are in `o`. */
  ghost predicate Added(h: Hashes, contractId: ContractId, owned: seq<Assigned<PrefabSeal>>, i: nat, o: Outputs) {
    Fit(owned, i) && OutputsMatch(h, contractId, owned[..i], o)
  }

  lemma AddedNone(h: Hashes, contractId: ContractId, owned: seq<Assigned<PrefabSeal>>)
    ensures Added(h, contractId, owned, 0, Outputs({}, map[], []))
  {
  }

  lemma AddedOne(h: Hashes, contractId: ContractId, owned: seq<Assigned<PrefabSeal>>, i: nat, o: Outputs)
    requires i < |owned| && Added(h, contractId, owned, i, o)
    ensures var r := AddOutput(h, contractId, o, i, owned[i]);
      && (r.Err? ==> !Fit(owned, |owned|) && Overflows(owned, r.error))
      && (r.Ok? ==> Added(h, contractId, owned, i + 1, r.value))
  {
    AddOutputMatches(h, contractId, owned[..i], o, owned[i]);
    assert owned[..i + 1] == owned[..i] + [owned[i]];
    if AddOutput(h, contractId, o, i, owned[i]).Err? {
      assert FirstBlocked(owned, i);
    }
  }

  lemma AddedAll(h: Hashes, contractId: ContractId, owned: seq<Assigned<PrefabSeal>>, o: Outputs)
    requires Added(h, contractId, owned, |owned|, o)
    ensures Fit(owned, |owned|) && OutputsMatch(h, contractId, owned, o)
  {
    assert owned[..|owned|] == owned;
  }

  /** Fails exactly on the first explicit output that finds no room; else the cells, the outputs defined and
      the seals are those of the request. */
  method BuildOutputs(h: Hashes, contractId: ContractId, owned: seq<Assigned<PrefabSeal>>)
    returns (r: Result<Outputs, PrefabError>)
    ensures r.Ok? <==> Fit(owned, |owned|)
    ensures r.Err? ==> Overflows(owned, r.error)
    ensures r.Ok? ==> OutputsMatch(h, contractId, owned, r.value)
  {
    var o := Outputs({}, map[], []);
    AddedNone(h, contractId, owned);
    for i := 0 to |owned|
      invariant Added(h, contractId, owned, i, o)
    {
      AddedOne(h, contractId, owned, i, o);
      var next := AddOutput(h, contractId, o, i, owned[i]);
      if next.Err? {
        return next;
      }
      o := next.value;
    }
    AddedAll(h, contractId, owned, o);
    return Ok(o);
  }

  // ---------------------------------------------------------------- too many outputs

  lemma {:induction false} CountsBounded(owned: seq<Assigned<PrefabSeal>>)
    ensures |DefinedBy(owned)| <= |owned| && |Positions(owned)| <= |owned|
  {
    if owned != [] {
      var n := |owned| - 1;
      CountsBounded(owned[..n]);
      assert owned == owned[..n] + [owned[n]];
      DefinedStep(owned[..n], owned[n]);
      PositionsStep(owned[..n], owned[n]);
    }
  }

  /** With at most 65535 outputs there is room for all. */
  lemma FewOutputsFit(owned: seq<Assigned<PrefabSeal>>)
    requires |owned| <= U16_MAX
    ensures Fit(owned, |owned|)
  {
    forall i | 0 <= i < |owned| ensures !Blocked(owned[..i], owned[i]) {
      CountsBounded(owned[..i]);
    }
  }

  lemma {:induction false} ExplicitPositions(owned: seq<Assigned<PrefabSeal>>)
    requires |owned| <= 0x1_0000 && forall i :: 0 <= i < |owned| ==> owned[i].seal.Alt?
    ensures |Positions(owned)| == |owned|
  {
    if owned != [] {
      var n := |owned| - 1;
      ExplicitPositions(owned[..n]);
      assert owned == owned[..n] + [owned[n]];
      PositionsStep(owned[..n], owned[n]);
      assert Truncate(n) !in Positions(owned[..n]);
    }
  }

  /** With explicit outputs only, one output too many fails; the seal map overflows, unseen by the check
      on the outputs, exactly when the first 65535 define fewer than 65535 distinct outputs. */
  lemma ExplicitOutputs(owned: seq<Assigned<PrefabSeal>>, e: PrefabError)
    requires forall i :: 0 <= i < |owned| ==> owned[i].seal.Alt?
    ensures Overflows(owned, e) <==> |owned| > U16_MAX && e == Overflow(owned[..U16_MAX])
    ensures Overflows(owned, SealOverflow) <==> |owned| > U16_MAX && |DefinedBy(owned[..U16_MAX])| < U16_MAX
  {
    if |owned| > U16_MAX {
      var k := U16_MAX;
      ExplicitPositions(owned[..k]);
      forall i | 0 <= i < k ensures !Blocked(owned[..i], owned[i]) {
        CountsBounded(owned[..i]);
      }
      assert FirstBlocked(owned, k);
    } else {
      FewOutputsFit(owned);
    }
  }

  /** So 65536 payments to one output of the transaction run into the panic. */
  lemma OneVoutOverflows(owned: seq<Assigned<PrefabSeal>>, vout: Vout)
    requires |owned| == 0x1_0000
    requires forall i :: 0 <= i < |owned| ==> owned[i].seal.Alt? && owned[i].seal.seal.vout == vout
    ensures Overflows(owned, SealOverflow)
  {
    ExplicitOutputs(owned, SealOverflow);
    assert DefinedBy(owned[..U16_MAX]) == {vout} by {
      assert owned[..U16_MAX][0] == owned[0];
    }
  }

  // ---------------------------------------------------------------- one output more

  lemma CellsStep(h: Hashes, contractId: ContractId, owned: seq<Assigned<PrefabSeal>>, a: Assigned<PrefabSeal>,
                  cells: seq<DataCell>, cell: DataCell)
    requires CellsMatch(h, contractId, owned, cells)
    requires cell == DataCell(a.name, a.data, TokenAt(h, contractId, |owned|, a.seal))
    ensures CellsMatch(h, contractId, owned + [a], cells + [cell])
  {
  }

  lemma SealsStep(h: Hashes, contractId: ContractId, owned: seq<Assigned<PrefabSeal>>, a: Assigned<PrefabSeal>,
                  seals: map<U16, WTxoSeal>)
    requires SealsMatch(h, contractId, owned, seals) && (a.seal.Alt? ==> |owned| <= U16_MAX)
    ensures a.seal.Token? ==> SealsMatch(h, contractId, owned + [a], seals)
    ensures a.seal.Alt? ==>
      SealsMatch(h, contractId, owned + [a], seals[|owned| := SealAt(h, contractId, |owned|, a.seal.seal)])
  {
    assert forall i :: 0 <= i < |owned| ==> (owned + [a])[i] == owned[i];
  }

  lemma PositionsStep(owned: seq<Assigned<PrefabSeal>>, a: Assigned<PrefabSeal>)
    ensures Positions(owned + [a]) == Positions(owned) + if a.seal.Alt? then {Truncate(|owned|)} else {}
  {
    var longer := owned + [a];
    assert longer[|owned|] == a && forall i :: 0 <= i < |owned| ==> longer[i] == owned[i];
    forall t | t in Positions(owned) ensures t in Positions(longer) {
      var i :| 0 <= i < |owned| && owned[i].seal.Alt? && Truncate(i) == t;
      assert longer[i].seal.Alt?;
    }
  }

  lemma ReachStep(owned: seq<Assigned<PrefabSeal>>, a: Assigned<PrefabSeal>)
    requires InReach(owned + [a])
    ensures InReach(owned) && (a.seal.Alt? ==> |owned| <= U16_MAX)
  {
    var longer := owned + [a];
    assert longer[|owned|] == a && forall i :: 0 <= i < |owned| ==> longer[i] == owned[i];
  }

  lemma DefinedStep(owned: seq<Assigned<PrefabSeal>>, a: Assigned<PrefabSeal>)
    ensures DefinedBy(owned + [a]) == DefinedBy(owned) + if a.seal.Alt? then {a.seal.seal.vout} else {}
  {
    var longer := owned + [a];
    assert longer[|owned|] == a && forall i :: 0 <= i < |owned| ==> longer[i] == owned[i];
    forall v | v in DefinedBy(owned) ensures v in DefinedBy(longer) {
      var i :| 0 <= i < |owned| && owned[i].seal.Alt? && owned[i].seal.seal.vout == v;
      assert longer[i].seal.Alt?;
    }
  }

  /** When the wallet's noise differs from position to position, so do the seals of outputs without a noise. */
  lemma SealsDiffer(h: Hashes, contractId: ContractId, owned: seq<Assigned<PrefabSeal>>, seals: map<U16, WTxoSeal>,
                    i: U16, j: U16)
    requires SealsMatch(h, contractId, owned, seals) && i in seals && j in seals && i != j
    requires owned[i].seal.seal.noise == owned[j].seal.seal.noise == None
    requires forall v, a, b :: a != b ==> h.walletNoise(contractId, v, a) != h.walletNoise(contractId, v, b)
    ensures seals[i] != seals[j]
  {
    assert seals[i].primary == seals[j].primary ==> owned[i].seal.seal.vout == owned[j].seal.seal.vout;
  }

  /** What an accepted request becomes. */
  ghost predicate Builds(h: Hashes, request: OpRequest<PrefabSeal>, p: Prefab) {
    && p.operation.contractId == request.contractId
    && p.closes == ClosedBy(request.using)
    && p.defines == DefinedBy(request.owned)
    && ParamsMatch(h, request, p.operation.params)
  }

  /** The parameters of the call made for a request. */
  ghost predicate ParamsMatch(h: Hashes, request: OpRequest<PrefabSeal>, params: CallParams) {
    && params.methodName == request.methodName
    && params.global == request.global
    && params.reading == request.reading
    && params.using == UsingMap(request.using)
    && CellsMatch(h, request.contractId, request.owned, params.owned)
  }

  /** Why a request is refused by a contract: the first of the checks that fails. */
  ghost predicate Refused(h: Hashes, ledgerCall: LedgerCall, c: WalletContract, request: OpRequest<PrefabSeal>,
                          e: PrefabError) {
    var accepted := Acceptable(c.api, c.owned, request.using, OutputsOf(request.owned));
    var few := |ClosedBy(request.using)| <= U16_MAX;
    match e
    case Unmatched(f) => !accepted && FirstFault(c.api, c.owned, request.using, OutputsOf(request.owned), f)
    case TooManyInputs => accepted && !few
    case TooManyOutputs => accepted && few && Overflows(request.owned, e)
    case SealOverflow => accepted && few && Overflows(request.owned, e)
    case Accept => accepted && few && Fit(request.owned, |request.owned|) && LedgerRefuses(h, ledgerCall, c, request)
  }

  ghost predicate LedgerRefuses(h: Hashes, ledgerCall: LedgerCall, c: WalletContract, request: OpRequest<PrefabSeal>) {
    exists params :: ParamsMatch(h, request, params) && ledgerCall(request.contractId, c, params).None?
  }

  /** The ledger answered the call, and the contract now shows its answer and has no new seals but those
      of the new operation. */
  ghost predicate Called(ledgerCall: LedgerCall, before: WalletContract, after: WalletContract, o: Operation) {
    && ledgerCall(o.contractId, before, o.params) == Some((o.opid, after.owned))
    && after.pile == before.pile.(keep := after.pile.keep)
    && (forall a :: a in before.pile.keep ==> a in after.pile.keep)
    && (forall a :: a in after.pile.keep && a.opid != o.opid ==>
         a in before.pile.keep && after.pile.keep[a] == before.pile.keep[a])
  }
}
