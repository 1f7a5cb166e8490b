/** What a payment conserves: `fulfill`, then the resolution of its seals, then the operation built
    (src/popls/bp.rs). */
module PaymentValue {
  import opened Wrappers
  import opened Seals
  import opened History
  import opened StateCalcs
  import opened Requests
  import opened Fulfilment
  import opened Invoices
  import opened Payments
  import opened Prefabs
  import Conservation

  // ---------------------------------------------------------------- addresses in a payment

  predicate ListsOnce(selected: seq<(CellAddr, Outpoint)>) {
    forall i, j :: 0 <= i < j < |selected| ==> selected[i].0 != selected[j].0
  }

  /** No two of the first `n` allocations on the selected outputs are of one cell. */
  predicate OneAllocationEach(cells: seq<OwnCell>, n: nat, selected: seq<(CellAddr, Outpoint)>)
    requires n <= |cells|
  {
    forall i, j :: 0 <= i < j < n && OnOutput(selected, cells[i].outpoint) && OnOutput(selected, cells[j].outpoint) ==>
      cells[i].addr != cells[j].addr
  }

  /** What was added stands for one of the first `n` allocations, of a cell that was not selected. */
  predicate AddedFrom(cells: seq<OwnCell>, n: nat, selected: seq<(CellAddr, Outpoint)>, x: (CellAddr, Outpoint))
    requires n <= |cells|
  {
    && !OnAddr(selected, x.0)
    && exists i :: 0 <= i < n && OnOutput(selected, cells[i].outpoint) && cells[i].addr == x.0
  }

  lemma {:induction false} ExtraListsOnce(api: Api, cells: seq<OwnCell>, n: nat, selected: seq<(CellAddr, Outpoint)>,
                                          counter: StateCalc)
    requires n <= |cells| && OneAllocationEach(cells, n, selected)
    ensures ListsOnce(Extra(api, cells, n, selected, counter).0)
    ensures forall x :: x in Extra(api, cells, n, selected, counter).0 ==> AddedFrom(cells, n, selected, x)
  {
    if n > 0 {
      ExtraListsOnce(api, cells, n - 1, selected, counter);
      var before := Extra(api, cells, n - 1, selected, counter).0;
      forall x | x in before ensures x.0 != cells[n - 1].addr || !OnOutput(selected, cells[n - 1].outpoint) {
        assert AddedFrom(cells, n - 1, selected, x);
      }
      forall x | x in before ensures AddedFrom(cells, n, selected, x) {
        assert AddedFrom(cells, n - 1, selected, x);
      }
      assert forall i :: 0 <= i < |before| ==> before[i] in before;
    }
  }

  /** The request lists no address twice, when the selection does not and no cell has two allocations on the
      selected outputs. */
  lemma SpendingListsOnce(api: Api, cells: seq<OwnCell>, picked: (seq<(CellAddr, Outpoint)>, StateCalc))
    requires ListsOnce(picked.0) && OneAllocationEach(cells, |cells|, picked.0)
    ensures DistinctAddrs(Spending(api, cells, picked))
  {
    var extra := Extra(api, cells, |cells|, picked.0, picked.1).0;
    ExtraListsOnce(api, cells, |cells|, picked.0, picked.1);
    forall i, j | 0 <= i < |picked.0| && 0 <= j < |extra| ensures picked.0[i].0 != extra[j].0 {
      assert extra[j] in extra && picked.0[i] in picked.0;
    }
  }

  // ---------------------------------------------------------------- seals

  /** The seals stored for a payment: a change output has the change output of the transaction and the wallet's
      noise for its position, a witness output the output that pays to its script and the noise of its salt; an
      output known by its token has none, and keeps the token. */
  lemma StoredForPayment(h: Hashes, before: OpRequest<PaymentSeal>, after: OpRequest<PrefabSeal>, resolver: Resolver,
                         change: Option<Vout>, cells: seq<DataCell>, seals: map<U16, WTxoSeal>, i: U16)
    requires RequestResolved(h, before, after, resolver, change) && i < |before.owned|
    requires CellsMatch(h, after.contractId, after.owned, cells) && SealsMatch(h, after.contractId, after.owned, seals)
    ensures match before.owned[i].seal
      case Token(auth) => i !in seals && cells[i].auth == auth
      case Alt(None) =>
        && change.Some? && i in seals && cells[i].auth == h.authToken(seals[i])
        && seals[i] == WTxoSeal(Wout(change.value), h.walletNoise(before.contractId, change.value, i))
      case Alt(Some(assignment)) =>
        var script := h.script(assignment.wout.address);
        && resolver(script).Some? && i in seals && cells[i].auth == h.authToken(seals[i])
        && seals[i] == WTxoSeal(Wout(resolver(script).value), h.saltNoise(assignment.wout.salt, script))
  {
  }

  /** The payee of an invoice finds its seal in the request built for it, and it is the seal the payer stores for
      the first output. */
  lemma PayeeFindsSeal(h: Hashes, invoice: Invoice, defaultCall: Option<CallSpec>, giveaway: Option<nat>,
                       wout: WitnessOut, before: OpRequest<PaymentSeal>, after: OpRequest<PrefabSeal>,
                       resolver: Resolver, change: Option<Vout>, seals: map<U16, WTxoSeal>)
    requires invoice.auth == ByWitnessOut(wout) && AsInvoiced(invoice, defaultCall, giveaway, before)
    requires RequestResolved(h, before, after, resolver, change)
    requires SealsMatch(h, after.contractId, after.owned, seals)
    ensures resolver(h.script(wout.address)).Some? && 0 in seals
    ensures ResolveSeal(h, before.owned, wout, resolver) == Some(seals[0])
    ensures seals[0].primary == Wout(resolver(h.script(wout.address)).value)
  {
    PayerAndPayeeAgree(h, before, after, resolver, change, wout, 0);
  }

  // ---------------------------------------------------------------- value

  /** The operation of a payment conserves value exactly when no cell worth something is listed twice, and so
      whenever no address is. */
  lemma PaymentConservesIff(h: Hashes, api: Api, owned: OwnedMap, n: StateName, value: Data,
                            seal: EitherSeal<PaymentSeal>, before: OpRequest<PaymentSeal>,
                            after: OpRequest<PrefabSeal>, resolver: Resolver, change: Option<Vout>, params: CallParams)
    requires Pays(api, owned, n, value, seal, before) && RequestResolved(h, before, after, resolver, change)
    requires ParamsMatch(h, after, params)
    ensures Conservation.Conserves(api, owned, params) <==>
            Conservation.FreeRepeats(api, Conservation.CellsOf(owned), Conservation.Addrs(before.using))
    ensures DistinctAddrs(before.using) ==> Conservation.Conserves(api, owned, params)
  {
    ResolutionKeepsBalance(h, before, after, resolver, change, api, owned);
    Conservation.ConservesIff(h, api, owned, after, params);
    if DistinctAddrs(before.using) {
      Conservation.DistinctConserves(h, api, owned, after, params);
    }
  }
}
