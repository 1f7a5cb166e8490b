/** Turning the beneficiaries of a payment into seals over the outputs of a transaction
    (src/popls/bp.rs, `resolve_seals`, `resolve_seal` and the seals built by `prefab`). */
module Payments {
  import opened Wrappers
  import opened Seals
  import opened StateCalcs
  import opened Requests
  import opened Fulfilment
  import opened Invoices

  /** A seal over an output of the future transaction; without noise the wallet's own is used. */
  datatype PrefabSeal = PrefabSeal(vout: Vout, noise: Option<Noise>)

  datatype UnresolvedSeal = Spk(script: Script) | Change

  /** The hash-based functions, uninterpreted: the script of an address, the noise of a salt and script,
      the wallet's noise for an output of an operation of a contract, and the token of a seal. */
  datatype Hashes = Hashes(
    script: Address -> Script,
    saltNoise: (U64, Script) -> Noise,
    walletNoise: (ContractId, Vout, nat) -> Noise,
    authToken: WTxoSeal -> AuthToken)
  {
    function ScriptOf(wout: WitnessOut): Script { script(wout.address) }

    function NoiseOf(wout: WitnessOut): Noise { saltNoise(wout.salt, ScriptOf(wout)) }
  }

  type Resolver = Script -> Option<Vout>

  predicate PaysOut(seal: EitherSeal<PaymentSeal>) { seal.Alt? && seal.seal.Some? }

  function ScriptFor(h: Hashes, seal: EitherSeal<PaymentSeal>): Script
    requires PaysOut(seal)
  {
    h.script(seal.seal.value.wout.address)
  }

  /** A change output needs a change output of the transaction, a witness output one that pays to its script. */
  predicate Resolves(h: Hashes, seal: EitherSeal<PaymentSeal>, resolver: Resolver, change: Option<Vout>) {
    (seal == Alt(None) ==> change.Some?) && (PaysOut(seal) ==> resolver(ScriptFor(h, seal)).Some?)
  }

  /** A token stays as it is; change goes to the change output, under the wallet's noise; a witness output to
      the output found for its script, under the noise of its salt. */
  ghost predicate Becomes(h: Hashes, seal: EitherSeal<PaymentSeal>, resolver: Resolver, change: Option<Vout>,
                          after: EitherSeal<PrefabSeal>) {
    && Resolves(h, seal, resolver, change)
    && (seal.Token? ==> after == Token(seal.auth))
    && (seal == Alt(None) ==> after == Alt(PrefabSeal(change.value, None)))
    && (PaysOut(seal) ==>
          var script := ScriptFor(h, seal);
          after == Alt(PrefabSeal(resolver(script).value, Some(h.saltNoise(seal.seal.value.wout.salt, script)))))
  }

  /** A change output fails as such, and a witness output with its script. */
  ghost predicate Fails(h: Hashes, seal: EitherSeal<PaymentSeal>, resolver: Resolver, change: Option<Vout>,
                        e: UnresolvedSeal) {
    && !Resolves(h, seal, resolver, change)
    && (seal == Alt(None) ==> e == Change)
    && (PaysOut(seal) ==> e == Spk(ScriptFor(h, seal)))
  }

  /** The seal one assignment resolves to. */
  function ResolveOne(h: Hashes, seal: EitherSeal<PaymentSeal>, resolver: Resolver, change: Option<Vout>):
    (r: Result<EitherSeal<PrefabSeal>, UnresolvedSeal>)
    ensures r.Ok? <==> Resolves(h, seal, resolver, change)
    ensures r.Ok? ==> Becomes(h, seal, resolver, change, r.value)
    ensures r.Err? ==> Fails(h, seal, resolver, change, r.error)
  {
    match seal
    case Token(auth) => Ok(Token(auth))
    case Alt(None) => if change.Some? then Ok(Alt(PrefabSeal(change.value, None))) else Err(Change)
    case Alt(Some(assignment)) =>
      var spk := h.ScriptOf(assignment.wout);
      match resolver(spk)
      case Some(vout) => Ok(Alt(PrefabSeal(vout, Some(h.NoiseOf(assignment.wout)))))
      case None => Err(Spk(spk))
  }

  /** The outputs resolve one by one, keeping names and data. */
  ghost predicate OutputsResolved(h: Hashes, before: seq<Assigned<PaymentSeal>>, after: seq<Assigned<PrefabSeal>>,
                                  resolver: Resolver, change: Option<Vout>) {
    && |after| == |before|
    && forall i :: 0 <= i < |before| ==>
         && after[i].name == before[i].name && after[i].data == before[i].data
         && Becomes(h, before[i].seal, resolver, change, after[i].seal)
  }

  /** The first output, in order, that does not resolve fails with `e`. */
  ghost predicate FirstUnresolved(h: Hashes, outs: seq<Assigned<PaymentSeal>>, resolver: Resolver, change: Option<Vout>,
                                  e: UnresolvedSeal) {
    exists i :: 0 <= i < |outs| && Fails(h, outs[i].seal, resolver, change, e)
      && forall j :: 0 <= j < i ==> Resolves(h, outs[j].seal, resolver, change)
  }

  ghost predicate AllResolve(h: Hashes, outs: seq<Assigned<PaymentSeal>>, resolver: Resolver, change: Option<Vout>) {
    forall i :: 0 <= i < |outs| ==> Resolves(h, outs[i].seal, resolver, change)
  }

  method ResolveOutputs(h: Hashes, outs: seq<Assigned<PaymentSeal>>, resolver: Resolver, change: Option<Vout>)
    returns (r: Result<seq<Assigned<PrefabSeal>>, UnresolvedSeal>)
    ensures r.Ok? <==> AllResolve(h, outs, resolver, change)
    ensures r.Ok? ==> OutputsResolved(h, outs, r.value, resolver, change)
    ensures r.Err? ==> FirstUnresolved(h, outs, resolver, change, r.error)
  {
    var owned: seq<Assigned<PrefabSeal>> := [];
    for i := 0 to |outs|
      invariant OutputsResolved(h, outs[..i], owned, resolver, change)
      invariant AllResolve(h, outs[..i], resolver, change)
    {
      assert outs[..i + 1] == outs[..i] + [outs[i]];
      match ResolveOne(h, outs[i].seal, resolver, change)
      case Err(e) =>
        assert forall j :: 0 <= j < i ==> outs[..i][j] == outs[j];
        return Err(e);
      case Ok(seal) =>
        owned := owned + [Assigned(outs[i].name, seal, outs[i].data)];
    }
    assert outs[..|outs|] == outs;
    return Ok(owned);
  }

  ghost predicate RequestResolved(h: Hashes, before: OpRequest<PaymentSeal>, after: OpRequest<PrefabSeal>,
                                  resolver: Resolver, change: Option<Vout>) {
    && after.contractId == before.contractId && after.methodName == before.methodName
    && after.reading == before.reading && after.using == before.using && after.global == before.global
    && OutputsResolved(h, before.owned, after.owned, resolver, change)
  }

  /** Request `k` is the first with a seal that does not resolve, and that seal fails with `e`. */
  ghost predicate FirstFailing(h: Hashes, requests: seq<OpRequest<PaymentSeal>>, k: nat, resolver: Resolver,
                               change: Option<Vout>, e: UnresolvedSeal)
    requires k < |requests|
  {
    && FirstUnresolved(h, requests[k].owned, resolver, change, e)
    && forall j :: 0 <= j < k ==> AllResolve(h, requests[j].owned, resolver, change)
  }

  /** Resolves the seals of a whole payment, or fails on the first seal that does not resolve. */
  method ResolveSeals(h: Hashes, requests: seq<OpRequest<PaymentSeal>>, resolver: Resolver, change: Option<Vout>)
    returns (r: Result<seq<OpRequest<PrefabSeal>>, UnresolvedSeal>)
    ensures r.Ok? <==> forall k :: 0 <= k < |requests| ==> AllResolve(h, requests[k].owned, resolver, change)
    ensures r.Ok? ==> |r.value| == |requests|
    ensures r.Ok? ==> forall k :: 0 <= k < |requests| ==> RequestResolved(h, requests[k], r.value[k], resolver, change)
    ensures r.Err? ==> exists k :: 0 <= k < |requests| && FirstFailing(h, requests, k, resolver, change, r.error)
  {
    var items: seq<OpRequest<PrefabSeal>> := [];
    for k := 0 to |requests|
      invariant |items| == k
      invariant forall j :: 0 <= j < k ==> AllResolve(h, requests[j].owned, resolver, change)
      invariant forall j :: 0 <= j < k ==> RequestResolved(h, requests[j], items[j], resolver, change)
    {
      var request := requests[k];
      var owned := ResolveOutputs(h, request.owned, resolver, change);
      if owned.Err? {
        assert FirstFailing(h, requests, k, resolver, change, owned.error);
        return Err(owned.error);
      }
      items := items + [OpRequest(request.contractId, request.methodName, request.reading, request.using,
                                  request.global, owned.value)];
    }
    return Ok(items);
  }

  /** Resolving seals changes nothing the check looks at. */
  lemma ResolutionKeepsBalance(h: Hashes, before: OpRequest<PaymentSeal>, after: OpRequest<PrefabSeal>,
                               resolver: Resolver, change: Option<Vout>, api: Api, owned: OwnedMap)
    requires RequestResolved(h, before, after, resolver, change)
    ensures Acceptable(api, owned, after.using, OutputsOf(after.owned)) <==>
            Acceptable(api, owned, before.using, OutputsOf(before.owned))
  {
    assert OutputsOf(after.owned) == OutputsOf(before.owned);
  }

  /** The payee's own computation of the seal it will own, from its witness output alone. */
  function ResolveSeal(h: Hashes, owned: seq<Assigned<PaymentSeal>>, wout: WitnessOut, resolver: Resolver):
    Option<WTxoSeal>
  {
    if owned == [] then None
    else match owned[0].seal
      case Alt(Some(assignment)) =>
        if assignment.wout == wout then
          match resolver(h.ScriptOf(wout))
          case Some(vout) => Some(WTxoSeal(Wout(vout), h.NoiseOf(wout)))
          case None => None
        else ResolveSeal(h, owned[1..], wout, resolver)
      case _ => ResolveSeal(h, owned[1..], wout, resolver)
  }

  predicate PaysTo(a: Assigned<PaymentSeal>, wout: WitnessOut) {
    a.seal.Alt? && a.seal.seal.Some? && a.seal.seal.value.wout == wout
  }

  /** The seal `prefab` stores at output `i`. */
  function SealAt(h: Hashes, contractId: ContractId, i: nat, seal: PrefabSeal): WTxoSeal {
    WTxoSeal(Wout(seal.vout), seal.noise.GetOr(h.walletNoise(contractId, seal.vout, i)))
  }

  lemma {:induction false} ResolveSealFinds(h: Hashes, owned: seq<Assigned<PaymentSeal>>, wout: WitnessOut,
                                            resolver: Resolver)
    ensures ResolveSeal(h, owned, wout, resolver) ==
      if (exists a :: a in owned && PaysTo(a, wout)) && resolver(h.ScriptOf(wout)).Some?
      then Some(WTxoSeal(Wout(resolver(h.ScriptOf(wout)).value), h.NoiseOf(wout))) else None
  {
    if owned != [] {
      ResolveSealFinds(h, owned[1..], wout, resolver);
      assert forall a :: a in owned <==> a == owned[0] || a in owned[1..];
      if PaysTo(owned[0], wout) {
        assert owned[0] in owned;
      }
    }
  }

  /** Payer and payee derive the same seal: for every output that pays to a witness output, the seal
      stored by the payer is the one the payee resolves, and so their tokens agree. */
  lemma PayerAndPayeeAgree(h: Hashes, before: OpRequest<PaymentSeal>, after: OpRequest<PrefabSeal>,
                           resolver: Resolver, change: Option<Vout>, wout: WitnessOut, i: nat)
    requires RequestResolved(h, before, after, resolver, change)
    requires i < |before.owned| && PaysTo(before.owned[i], wout)
    ensures after.owned[i].seal.Alt?
    ensures ResolveSeal(h, before.owned, wout, resolver)
         == Some(SealAt(h, after.contractId, i, after.owned[i].seal.seal))
  {
    ResolveSealFinds(h, before.owned, wout, resolver);
    assert before.owned[i] in before.owned;
  }
}
