/** A request that passes the check and has 65536 outputs to one transaction output: building its operation runs
    into the failing `expect` of `prefab` (src/popls/bp.rs:619). */
module Overflowing {
  import opened Wrappers
  import opened Seals
  import opened Piles
  import opened History
  import opened StateCalcs
  import opened Requests
  import opened Payments
  import opened Prefabs
  import opened Wallets
  import Conservation

  const NAME := StateName(0)
  const ID := ContractId(0)

  /** An interface in which data is worth nothing, such as an amount of zero. */
  function ZeroApi(): Api {
    Api({NAME}, (n, d) => Some(multiset{}), (n, v) => true, (n, v) => if v == multiset{} then Some([]) else None)
  }

  function Zero(): Assigned<PrefabSeal> { Assigned(NAME, Alt(PrefabSeal(0, None)), 0) }

  function Zeros(): seq<Assigned<PrefabSeal>> { seq(0x1_0000, i => Zero()) }

  function ManyOutputs(): OpRequest<PrefabSeal> { OpRequest(ID, MethodName("split"), [], [], [], Zeros()) }

  lemma ZeroApiIsLawful()
    ensures ZeroApi().Lawful()
  {
    assert forall n :: Label(n, []) == [];
  }

  lemma NothingBalancesZeros(outs: seq<Named>)
    requires forall i :: 0 <= i < |outs| ==> outs[i].name == NAME
    ensures Acceptable(ZeroApi(), map[], [], outs)
  {
    var api := ZeroApi();
    Conservation.FreeSum(api, outs);
    assert InputsOf(map[], []) == [];
    forall n ensures SumOf(api, [], n) == SumOf(api, outs, n) {
      assert SumOf(api, outs, n) == multiset{};
    }
  }

  /** The check accepts it, and whatever the ledger would do, the seal map overflows first. */
  method BuildManyOutputs(h: Hashes, ledgerCall: LedgerCall) returns (r: Result<Prefab, PrefabError>)
    ensures Acceptable(ZeroApi(), map[], ManyOutputs().using, OutputsOf(ManyOutputs().owned))
    ensures r == Err(SealOverflow)
  {
    ZeroApiIsLawful();
    NothingBalancesZeros(OutputsOf(ManyOutputs().owned));
    OneVoutOverflows(Zeros(), 0);
    ZerosDoNotFit();
    NothingClosed();
    var wallet := new RgbWallet(map[ID := WalletContract(ZeroApi(), map[], EMPTY)], h, ledgerCall);
    r := wallet.BuildPrefab(ManyOutputs());
    ExplicitOutputs(Zeros(), TooManyOutputs);
    ExplicitOutputs(Zeros(), SealOverflow);
  }

  lemma NothingClosed()
    ensures |ClosedBy(ManyOutputs().using)| == 0
  {
    assert ClosedBy([]) == {};
  }

  lemma ZerosDoNotFit()
    ensures !Fit(Zeros(), |Zeros()|)
  {
    OneVoutOverflows(Zeros(), 0);
  }
}
