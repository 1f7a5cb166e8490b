/** A bundle that cannot be included: two requests of one contract spend two cells on one output
    (src/popls/bp.rs, `bundle` and `include`). */
module SharedSeals {
  import opened Wrappers
  import opened Seals
  import opened Status
  import opened Piles
  import opened History
  import opened StateCalcs
  import opened Requests
  import opened Payments
  import opened Prefabs
  import opened Wallets
  import opened TwoWitnesses
  import Inclusions

  const ID := ContractId(0)
  const OUT := Outpoint(Wid(0), 0)

  function Cell(k: nat): CellAddr { CellAddr(Opid(k), 0) }

  function Entry(k: nat): OwnedState { OwnedState(Cell(k), TxoSeal(OUT, 0), 0, Genesis) }

  /** Two tokens on one output. */
  function TwoCells(): OwnedMap { map[NAME := [Entry(0), Entry(1)]] }

  function TheContract(): WalletContract { WalletContract(TokenApi(), TwoCells(), EMPTY) }

  /** A ledger that takes every call; the operations that spend different cells have different ids. */
  function Answer(c: WalletContract, params: CallParams): Option<(Opid, OwnedMap)> {
    Some((Opid(if Cell(0) in params.using then 10 else 11), c.owned))
  }

  function Accepting(): LedgerCall { (id, c, params) => Answer(c, params) }

  /** Cell `k` goes to someone else. */
  function Transfer(k: nat): OpRequest<PrefabSeal> {
    OpRequest(ID, MethodName("transfer"), [], [UsedState(Cell(k), OUT, None)], [], [Assigned(NAME, Token(0), 0)])
  }

  function Transfers(): seq<OpRequest<PrefabSeal>> { [Transfer(0), Transfer(1)] }

  // ---------------------------------------------------------------- nothing is refused

  lemma TransferIsAccepted(k: nat)
    requires k < 2
    ensures Acceptable(TokenApi(), TwoCells(), Transfer(k).using, OutputsOf(Transfer(k).owned))
  {
    CellsAreConsistent();
    LocateEntry(TwoCells(), NAME, k);
    OneTokenIsAccepted(TwoCells(), Transfer(k).using, OutputsOf(Transfer(k).owned));
  }

  lemma OneTokenIsAccepted(owned: OwnedMap, using: seq<UsedState>, outs: seq<Named>)
    requires |using| == 1 && Locate(owned, using[0].addr) == Some(Named(NAME, 0)) && outs == [Named(NAME, 0)]
    ensures Acceptable(TokenApi(), owned, using, outs)
  {
    InputsAre(owned, using, outs);
  }

  lemma CellsAreConsistent()
    ensures ConsistentCells(TwoCells())
  {
  }

  lemma TransferIsNotRefused(h: Hashes, c: WalletContract, k: nat, e: PrefabError)
    requires c.api == TokenApi() && c.owned == TwoCells() && k < 2
    ensures !Refused(h, Accepting(), c, Transfer(k), e)
  {
    TransferIsAccepted(k);
    OneOutput(k);
    FewOutputsFit(Transfer(k).owned);
  }

  lemma OneOutput(k: nat)
    ensures |ClosedBy(Transfer(k).using)| == 1
  {
    assert Transfer(k).using[0].outpoint == OUT;
    assert ClosedBy(Transfer(k).using) == {OUT};
  }

  // ---------------------------------------------------------------- the run of the requests

  ghost predicate Unchanged(now: map<ContractId, WalletContract>) {
    now.Keys == {ID} && now[ID].api == TokenApi() && now[ID].owned == TwoCells()
  }

  ghost predicate IsTransfer(p: Prefab, k: nat) {
    p.operation.contractId == ID && p.operation.opid == Opid(10 + k) && OUT in p.closes
  }

  lemma TransferStep(h: Hashes, before: map<ContractId, WalletContract>, now: map<ContractId, WalletContract>, k: nat,
                     p: Prefab)
    requires k < 2 && Unchanged(before) && Stepped(h, Accepting(), before, now, Transfer(k), p)
    ensures Unchanged(now) && IsTransfer(p, k)
  {
    assert p.closes == ClosedBy(Transfer(k).using);
    assert Transfer(k).using[0].outpoint == OUT;
    assert Cell(0) in p.operation.params.using <==> k == 0;
  }

  ghost predicate OnlyTransfers(step: StepRelation) {
    forall before, now, k, p :: k < 2 && Unchanged(before) && step(before, now, k, p) ==>
      Unchanged(now) && IsTransfer(p, k)
  }

  lemma {:induction false} StepsTransfer(step: StepRelation, start: map<ContractId, WalletContract>, ps: seq<Prefab>,
                                         now: map<ContractId, WalletContract>)
    requires |ps| <= 2 && OnlyTransfers(step) && Unchanged(start) && Steps(step, start, ps, now)
    ensures Unchanged(now) && forall k :: 0 <= k < |ps| ==> IsTransfer(ps[k], k)
  {
    if ps != [] {
      var n := |ps| - 1;
      var mid :| Steps(step, start, ps[..n], mid) && step(mid, now, n, ps[n]);
      StepsTransfer(step, start, ps[..n], mid);
      assert forall k :: 0 <= k < n ==> ps[..n][k] == ps[k];
    }
  }

  lemma TransferSteps(h: Hashes, ps: seq<Prefab>, now: map<ContractId, WalletContract>)
    requires |ps| <= 2 && Steps(Building(h, Accepting(), Transfers()), map[ID := TheContract()], ps, now)
    ensures Unchanged(now) && forall k :: 0 <= k < |ps| ==> IsTransfer(ps[k], k)
  {
    TransfersOnly(h);
    StepsTransfer(Building(h, Accepting(), Transfers()), map[ID := TheContract()], ps, now);
  }

  lemma TransfersOnly(h: Hashes)
    ensures OnlyTransfers(Building(h, Accepting(), Transfers()))
  {
    var step := Building(h, Accepting(), Transfers());
    forall before, now, k: nat, p | k < 2 && Unchanged(before) && step(before, now, k, p)
      ensures Unchanged(now) && IsTransfer(p, k)
    {
      TransferStep(h, before, now, k, p);
    }
  }

  lemma BundleDoesNotFail(h: Hashes, e: BundleError, after: map<ContractId, WalletContract>)
    ensures !BundleFails(h, Accepting(), map[ID := TheContract()], Transfers(), None, e, after)
  {
    var contracts := map[ID := TheContract()];
    IdsOfTransfers();
    if e.Requested? && BundleFails(h, Accepting(), contracts, Transfers(), None, e, after) {
      var ps :| RefusedAfter(h, Accepting(), contracts, Transfers(), ps, after, e.error);
      TransferSteps(h, ps, after);
      TransferIsNotRefused(h, after[ID], |ps|, e.error);
    }
  }

  lemma IdsOfTransfers()
    ensures Ids(Transfers()) == {ID}
  {
    assert Transfers()[0].contractId == ID;
  }

  /** The wallet builds a bundle two of whose operations close the same output. */
  method BuildShared(h: Hashes) returns (bundle: set<Prefab>)
    ensures exists p, q :: p in bundle && q in bundle && SharesSeal(p, q)
  {
    var contracts := map[ID := TheContract()];
    TokenApiIsLawful();
    IdsOfTransfers();
    var wallet := new RgbWallet(contracts, h, Accepting());
    var r := wallet.Bundle(Transfers(), None);
    if r.Err? {
      BundleDoesNotFail(h, r.error, wallet.contracts);
      assert false;
    }
    bundle := r.value;
    BundledShares(h, bundle, wallet.contracts);
  }

  lemma BundledShares(h: Hashes, bundle: set<Prefab>, after: map<ContractId, WalletContract>)
    requires Bundled(h, Accepting(), map[ID := TheContract()], Transfers(), None, bundle, after)
    ensures exists p, q :: p in bundle && q in bundle && SharesSeal(p, q)
  {
    var ps, mid := BundledParts(h, Accepting(), map[ID := TheContract()], Transfers(), None, bundle, after);
    TransferSteps(h, ps, mid);
    assert ps[0] in ps && ps[1] in ps && SharesSeal(ps[0], ps[1]);
  }

  predicate SharesSeal(p: Prefab, q: Prefab) {
    && p.operation.contractId == q.operation.contractId == ID
    && p.operation.opid != q.operation.opid
    && OUT in p.closes && OUT in q.closes
  }

  /** Such a bundle cannot be included: their anchors do not merge. */
  lemma SharedCannotBeIncluded(prevouts: seq<Outpoint>, proofs: Inclusions.Proofs, bundle: seq<Prefab>,
                               published: PubWitness, start: map<ContractId, PileView>,
                               r: Result<(), Inclusions.IncludeError>, calls: seq<Inclusions.Inclusion>,
                               now: map<ContractId, PileView>, p: Prefab, q: Prefab)
    requires p in bundle && q in bundle && SharesSeal(p, q)
    requires |prevouts| <= 0x1_0000_0000 && Inclusions.KnownIn(start, bundle)
    requires forall c :: c in start ==> published.id !in start[c].hoard
    requires Inclusions.Outcome(prevouts, proofs, bundle, published, start, r, calls, now)
    ensures r.Err?
  {
    Inclusions.IncludeSucceedsIff(prevouts, proofs, bundle, published, start, r, calls, now);
    assert !Inclusions.NoSharedSeal(bundle, ID);
  }
}
