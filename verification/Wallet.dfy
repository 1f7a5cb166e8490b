/** The operation builder of a wallet over many contracts (src/popls/bp.rs, `prefab` and `bundle`). */
module Wallets {
  import opened Wrappers
  import opened Seals
  import opened Piles
  import opened Requests
  import opened Payments
  import opened Prefabs
  import opened Blanks
  import Conservation

  /** The contracts a set of requests is made under. */
  function Ids(requests: seq<OpRequest<PrefabSeal>>): set<ContractId> {
    set i | 0 <= i < |requests| :: requests[i].contractId
  }

  /** The outputs the first `i` requests close, and those all of them close. */
  function Closing(requests: seq<OpRequest<PrefabSeal>>, i: nat): set<Outpoint>
    requires i <= |requests|
  {
    set k, o | 0 <= k < i && o in ClosedBy(requests[k].using) :: o
  }

  function AllClosed(requests: seq<OpRequest<PrefabSeal>>): set<Outpoint> { Closing(requests, |requests|) }

  /** `p` is the only operation of its contract. */
  ghost predicate Single(prefabs: set<Prefab>, p: Prefab) {
    p in prefabs && forall q :: q in prefabs && q.operation.contractId == p.operation.contractId ==> q == p
  }

  /** `p` is the blank operation of contract `c`, and the only one. */
  ghost predicate BlankFor(h: Hashes, c: ContractId, contract: WalletContract, outpoints: set<Outpoint>,
                           change: Option<Vout>, prefabs: set<Prefab>, p: Prefab) {
    && Single(prefabs, p) && p.operation.contractId == c
    && exists req :: IsBlank(h, c, contract, outpoints, change, req) && Builds(h, req, p)
  }

  /** Contract `c` has a single blank operation if it holds state on a spent output, and none otherwise. */
  ghost predicate TreatedRight(h: Hashes, c: ContractId, contract: WalletContract, outpoints: set<Outpoint>,
                               change: Option<Vout>, prefabs: set<Prefab>) {
    if Affected(contract.owned, outpoints) == [] then forall p :: p in prefabs ==> p.operation.contractId != c
    else exists p :: BlankFor(h, c, contract, outpoints, change, prefabs, p)
  }

  /** Such a contract has no two operations. */
  lemma TreatedHasOne(h: Hashes, c: ContractId, contract: WalletContract, outpoints: set<Outpoint>,
                      change: Option<Vout>, prefabs: set<Prefab>, p: Prefab, q: Prefab)
    requires TreatedRight(h, c, contract, outpoints, change, prefabs) && p in prefabs && q in prefabs
    requires p.operation.contractId == q.operation.contractId == c
    ensures p == q
  {
  }

  ghost predicate LawfulAll(contracts: map<ContractId, WalletContract>) {
    forall c :: c in contracts ==> contracts[c].api.Lawful()
  }

  /** No contract appears or disappears, interfaces stay, and contracts outside `ids` stay as they are. */
  ghost predicate OnlyTouches(before: map<ContractId, WalletContract>, after: map<ContractId, WalletContract>,
                              ids: set<ContractId>) {
    && after.Keys == before.Keys
    && (forall c :: c in before ==> after[c].api == before[c].api)
    && (forall c :: c in before && c !in ids ==> after[c] == before[c])
  }

  /** The seals of a new operation read back as they were built. */
  ghost predicate StoresSeals(h: Hashes, request: OpRequest<PrefabSeal>, before: PileView, after: PileView, opid: Opid)
    requires |request.owned| <= U16_MAX
  {
    (forall a :: a in before.keep ==> a.opid != opid) ==>
      SealsMatch(h, request.contractId, request.owned, after.SealsOf(opid, |request.owned|))
  }

  /** One request was built, its contract called and its seals stored; no other contract changed. */
  ghost predicate Stepped(h: Hashes, ledgerCall: LedgerCall, before: map<ContractId, WalletContract>,
                          after: map<ContractId, WalletContract>, request: OpRequest<PrefabSeal>, p: Prefab) {
    && request.contractId in before && OnlyTouches(before, after, {request.contractId})
    && Builds(h, request, p)
    && Called(ledgerCall, before[request.contractId], after[request.contractId], p.operation)
    && (|request.owned| <= U16_MAX ==>
          StoresSeals(h, request, before[request.contractId].pile, after[request.contractId].pile, p.operation.opid))
  }

  type StepRelation = (map<ContractId, WalletContract>, map<ContractId, WalletContract>, nat, Prefab) -> bool

  ghost function Building(h: Hashes, ledgerCall: LedgerCall, requests: seq<OpRequest<PrefabSeal>>): StepRelation {
    (before, after, k: nat, p) => k < |requests| && Stepped(h, ledgerCall, before, after, requests[k], p)
  }

  /** The operations were built one after the other. */
  ghost predicate Steps(step: StepRelation, start: map<ContractId, WalletContract>, ps: seq<Prefab>,
                        now: map<ContractId, WalletContract>) {
    if ps == [] then now == start
    else
      var n := |ps| - 1;
      exists mid :: Steps(step, start, ps[..n], mid) && step(mid, now, n, ps[n])
  }

  /** Operation `k` is built from request `k`. */
  ghost predicate BuiltFrom(h: Hashes, requests: seq<OpRequest<PrefabSeal>>, ps: seq<Prefab>) {
    |ps| == |requests| && forall k :: 0 <= k < |ps| ==> Builds(h, requests[k], ps[k])
  }

  /** The bundle holds the operations built from the requests, no other operation of their contracts, and for
      every other contract what its state on the closed outputs demands. */
  ghost predicate Complete(h: Hashes, contracts: map<ContractId, WalletContract>, requests: seq<OpRequest<PrefabSeal>>,
                           change: Option<Vout>, ps: seq<Prefab>, prefabs: set<Prefab>) {
    && BuiltFrom(h, requests, ps) && (forall p :: p in ps ==> p in prefabs)
    && (forall p :: p in prefabs ==> p.operation.contractId in contracts)
    && (forall p :: p in prefabs && p.operation.contractId in Ids(requests) ==> p in ps)
    && AllTreated(h, contracts, Ids(requests), AllClosed(requests), change, prefabs)
  }

  ghost predicate AllTreated(h: Hashes, contracts: map<ContractId, WalletContract>, ids: set<ContractId>,
                             outpoints: set<Outpoint>, change: Option<Vout>, prefabs: set<Prefab>) {
    forall c :: c in contracts && c !in ids ==> TreatedRight(h, c, contracts[c], outpoints, change, prefabs)
  }

  /** All requests were built, in turn, and then some of the blank requests, which left the contracts as `now`. */
  ghost predicate Midway(h: Hashes, ledgerCall: LedgerCall, contracts: map<ContractId, WalletContract>,
                         requests: seq<OpRequest<PrefabSeal>>, change: Option<Vout>, ps: seq<Prefab>,
                         mid: map<ContractId, WalletContract>, blanks: seq<OpRequest<PrefabSeal>>, qs: seq<Prefab>,
                         now: map<ContractId, WalletContract>) {
    && AllRequested(h, ledgerCall, contracts, requests, ps, mid)
    && BlanksFor(h, contracts, contracts.Keys - Ids(requests), AllClosed(requests), change, blanks)
    && |qs| <= |blanks| && Steps(Building(h, ledgerCall, blanks), mid, qs, now)
  }

  ghost predicate AllRequested(h: Hashes, ledgerCall: LedgerCall, contracts: map<ContractId, WalletContract>,
                               requests: seq<OpRequest<PrefabSeal>>, ps: seq<Prefab>,
                               now: map<ContractId, WalletContract>) {
    |ps| == |requests| && Steps(Building(h, ledgerCall, requests), contracts, ps, now)
  }

  /** What a bundle is, and what it leaves the contracts as: the requests and then the blank requests were built
      in turn, and together they are complete. */
  ghost predicate Bundled(h: Hashes, ledgerCall: LedgerCall, contracts: map<ContractId, WalletContract>,
                          requests: seq<OpRequest<PrefabSeal>>, change: Option<Vout>, prefabs: set<Prefab>,
                          after: map<ContractId, WalletContract>) {
    exists ps, mid, blanks, qs :: Midway(h, ledgerCall, contracts, requests, change, ps, mid, blanks, qs, after)
      && |qs| == |blanks| && prefabs == Elems(ps) + Elems(qs)
      && Complete(h, contracts, requests, change, ps, prefabs)
  }

  lemma BundledParts(h: Hashes, ledgerCall: LedgerCall, contracts: map<ContractId, WalletContract>,
                     requests: seq<OpRequest<PrefabSeal>>, change: Option<Vout>, prefabs: set<Prefab>,
                     after: map<ContractId, WalletContract>)
    returns (ps: seq<Prefab>, mid: map<ContractId, WalletContract>)
    requires Bundled(h, ledgerCall, contracts, requests, change, prefabs, after)
    ensures AllRequested(h, ledgerCall, contracts, requests, ps, mid)
    ensures Complete(h, contracts, requests, change, ps, prefabs)
  {
    var blanks, qs;
    ps, mid, blanks, qs :| Midway(h, ledgerCall, contracts, requests, change, ps, mid, blanks, qs, after)
                        && |qs| == |blanks| && prefabs == Elems(ps) + Elems(qs)
                        && Complete(h, contracts, requests, change, ps, prefabs);
  }

  class RgbWallet {
    var contracts: map<ContractId, WalletContract>
    const hashes: Hashes
    const ledgerCall: LedgerCall

    constructor (contracts: map<ContractId, WalletContract>, hashes: Hashes, ledgerCall: LedgerCall)
      ensures this.contracts == contracts && this.hashes == hashes && this.ledgerCall == ledgerCall
    {
      this.contracts, this.hashes, this.ledgerCall := contracts, hashes, ledgerCall;
    }

    /** Builds one operation and calls the contract with it. Other contracts are not touched, and a
        failure touches none. The seals stored for the new operation read back as they were built. */
    method BuildPrefab(request: OpRequest<PrefabSeal>) returns (r: Result<Prefab, PrefabError>)
      requires LawfulAll(contracts) && request.contractId in contracts
      modifies this
      ensures OnlyTouches(old(contracts), contracts, {request.contractId})
      ensures r.Err? ==> contracts == old(contracts)
      ensures r.Err? ==> Refused(hashes, ledgerCall, old(contracts)[request.contractId], request, r.error)
      ensures (r.Err? && r.error.Unmatched?) <==>
        old(!Acceptable(contracts[request.contractId].api, contracts[request.contractId].owned,
                         request.using, OutputsOf(request.owned)))
      ensures r.Ok? ==> Builds(hashes, request, r.value) && |r.value.closes| <= U16_MAX
      ensures r.Ok? ==> Fit(request.owned, |request.owned|)
      ensures r.Ok? ==> Called(ledgerCall, old(contracts)[request.contractId],
                               contracts[request.contractId], r.value.operation)
      ensures r.Ok? && |request.owned| <= U16_MAX ==>
        StoresSeals(hashes, request, old(contracts)[request.contractId].pile, contracts[request.contractId].pile,
                    r.value.operation.opid)
    {
      var c := contracts[request.contractId];
      var checked := CheckRequest(c.api, c.owned, request);
      if checked.Err? { return Err(Unmatched(checked.error)); }
      var closes := ClosedBy(request.using);
      if |closes| > U16_MAX { return Err(TooManyInputs); }
      var built := BuildOutputs(hashes, request.contractId, request.owned);
      if built.Err? { return Err(built.error); }
      r := CallWith(request, closes, built.value);
    }

    /** Calls the contract with the outputs built. */
    method CallWith(request: OpRequest<PrefabSeal>, closes: set<Outpoint>, built: Outputs)
      returns (r: Result<Prefab, PrefabError>)
      requires request.contractId in contracts && closes == ClosedBy(request.using)
      requires OutputsMatch(hashes, request.contractId, request.owned, built)
      modifies this
      ensures OnlyTouches(old(contracts), contracts, {request.contractId})
      ensures r.Err? ==> contracts == old(contracts) && r.error == Accept
      ensures r.Err? ==> LedgerRefuses(hashes, ledgerCall, old(contracts)[request.contractId], request)
      ensures r.Ok? ==> Builds(hashes, request, r.value)
      ensures r.Ok? ==> Called(ledgerCall, old(contracts)[request.contractId],
                               contracts[request.contractId], r.value.operation)
      ensures r.Ok? && |request.owned| <= U16_MAX ==>
        StoresSeals(hashes, request, old(contracts)[request.contractId].pile, contracts[request.contractId].pile,
                    r.value.operation.opid)
    {
      var c := contracts[request.contractId];
      var Outputs(defines, seals, cells) := built;
      var params := CallParams(request.methodName, request.global, cells, UsingMap(request.using), request.reading);
      match ledgerCall(request.contractId, c, params) {
        case None => return Err(Accept);
        case Some(answer) =>
          var (opid, owned) := answer;
          var operation := Operation(request.contractId, opid, params);
          var after := WalletContract(c.api, owned, c.pile.AddSeals(opid, seals));
          CalledNow(ledgerCall, c, operation, owned, seals);
          StoredSeals(hashes, request, c.pile, opid, seals);
          contracts := contracts[request.contractId := after];
          return Ok(Prefab(closes, defines, operation));
      }
    }

    /** Builds the next request. */
    method BuildNext(requests: seq<OpRequest<PrefabSeal>>, i: nat, ghost start: map<ContractId, WalletContract>,
                     ghost ps: seq<Prefab>)
      returns (r: Result<Prefab, PrefabError>)
      requires i == |ps| < |requests| && Progress(hashes, ledgerCall, start, requests, ps, contracts)
      modifies this
      ensures r.Ok? ==> Progress(hashes, ledgerCall, start, requests, ps + [r.value], contracts)
      ensures r.Ok? ==> r.value.closes == ClosedBy(requests[i].using)
      ensures r.Err? ==> contracts == old(contracts)
      ensures r.Err? ==> RefusedAfter(hashes, ledgerCall, start, requests, ps, contracts, r.error)
    {
      ghost var before := contracts;
      RequestIsKnown(requests, i);
      r := BuildPrefab(requests[i]);
      if r.Ok? {
        StepsAppend(Building(hashes, ledgerCall, requests), start, ps, before, contracts, r.value);
        BuiltNext(hashes, requests, ps, r.value);
        TouchesNext(requests, i, start, before, contracts);
      }
    }

    /** First pass: the requested operations, with the outputs they close. */
    method BuildRequested(requests: seq<OpRequest<PrefabSeal>>)
      returns (r: Result<(set<Prefab>, set<Outpoint>), BundleError>, ghost ps: seq<Prefab>)
      requires LawfulAll(contracts) && Ids(requests) <= contracts.Keys
      modifies this
      ensures r.Err? ==> r.error.Requested?
      ensures r.Err? ==> RefusedAfter(hashes, ledgerCall, old(contracts), requests, ps, contracts, r.error.error)
      ensures r.Ok? ==> |ps| == |requests| && Progress(hashes, ledgerCall, old(contracts), requests, ps, contracts)
      ensures r.Ok? ==> r.value == (Elems(ps), AllClosed(requests))
    {
      var prefabs: set<Prefab>, outpoints: set<Outpoint> := {}, {};
      ps := [];
      for i := 0 to |requests|
        invariant |ps| == i && Progress(hashes, ledgerCall, old(contracts), requests, ps, contracts)
        invariant prefabs == Elems(ps) && outpoints == Closing(requests, i)
      {
        var prefab := BuildNext(requests, i, old(contracts), ps);
        if prefab.Err? {
          return Err(Requested(prefab.error)), ps;
        }
        NextClosing(requests, i, ps, prefab.value);
        outpoints := outpoints + prefab.value.closes;
        prefabs := prefabs + {prefab.value};
        ps := ps + [prefab.value];
      }
      r := Ok((prefabs, outpoints));
    }

    /** Second pass: a blank request for each other contract with state on a spent output. */
    method CollectBlanks(ids: set<ContractId>, outpoints: set<Outpoint>, change: Option<Vout>)
      returns (r: Result<seq<OpRequest<PrefabSeal>>, BundleError>)
      requires LawfulAll(contracts)
      requires forall c :: c in contracts && c !in ids ==> ConsistentCells(contracts[c].owned)
      ensures r.Ok? ==> BlanksFor(hashes, contracts, contracts.Keys - ids, outpoints, change, r.value)
      ensures r.Ok? <==> forall c :: c in contracts && c !in ids ==> Blankable(contracts[c], outpoints, change)
      ensures r.Err? ==> r.error.StateError? || (r.error == ChangeRequired && change.None?)
    {
      var blanks: seq<OpRequest<PrefabSeal>> := [];
      var todo := contracts.Keys - ids;
      ghost var done := {};
      while todo != {}
        invariant done !! todo && done + todo == contracts.Keys - ids
        invariant BlanksFor(hashes, contracts, done, outpoints, change, blanks)
        invariant AllBlankable(contracts, done, outpoints, change)
      {
        var c :| c in todo;
        var blank := BlankRequest(hashes, c, contracts[c], outpoints, change);
        if blank.Err? {
          return Err(blank.error);
        }
        blanks := WithBlank(hashes, contracts, done, outpoints, change, blanks, c, blank.value);
        todo, done := todo - {c}, done + {c};
      }
      return Ok(blanks);
    }

    /** Builds the next blank operation; the requests after it still pass the check. */
    method BuildBlank(blanks: seq<OpRequest<PrefabSeal>>, i: nat, ghost start: map<ContractId, WalletContract>,
                      ghost qs: seq<Prefab>)
      returns (r: Result<Prefab, PrefabError>)
      requires i == |qs| < |blanks| && BlankProgress(hashes, ledgerCall, start, blanks, qs, contracts)
      modifies this
      ensures r.Ok? ==> BlankProgress(hashes, ledgerCall, start, blanks, qs + [r.value], contracts)
      ensures r.Err? ==> !r.error.Unmatched? && RefusesAny(hashes, ledgerCall, start, blanks, r.error)
      ensures r.Err? ==> RefusedAfter(hashes, ledgerCall, start, blanks, qs, contracts, r.error)
    {
      ghost var before := contracts;
      assert Passes(contracts, blanks[i]) && KeptAt(start, contracts, blanks[i].contractId);
      r := BuildPrefab(blanks[i]);
      if r.Ok? {
        NextUnderway(start, before, contracts, blanks, i);
        StepsAppend(Building(hashes, ledgerCall, blanks), start, qs, before, contracts, r.value);
        BuiltNext(hashes, blanks, qs, r.value);
      }
    }

    /** Third pass: the blank operations. Their requests always pass the check. */
    method BuildBlanks(blanks: seq<OpRequest<PrefabSeal>>)
      returns (r: Result<seq<Prefab>, BundleError>, ghost qs: seq<Prefab>)
      requires LawfulAll(contracts) && Distinct(blanks) && RestPass(contracts, blanks, 0)
      modifies this
      ensures r.Ok? ==> qs == r.value && BuiltFrom(hashes, blanks, qs)
      ensures r.Ok? ==> Steps(Building(hashes, ledgerCall, blanks), old(contracts), qs, contracts)
      ensures r.Err? ==> r.error.Blank? && !r.error.error.Unmatched?
      ensures r.Err? ==> RefusesAny(hashes, ledgerCall, old(contracts), blanks, r.error.error)
      ensures r.Err? ==> RefusedAfter(hashes, ledgerCall, old(contracts), blanks, qs, contracts, r.error.error)
    {
      var built: seq<Prefab> := [];
      AllUnderway(contracts, blanks);
      for i := 0 to |blanks|
        invariant |built| == i && BlankProgress(hashes, ledgerCall, old(contracts), blanks, built, contracts)
      {
        var prefab := BuildBlank(blanks, i, old(contracts), built);
        if prefab.Err? {
          return Err(Blank(prefab.error)), built;
        }
        built := built + [prefab.value];
      }
      assert blanks[..|built|] == blanks;
      return Ok(built), built;
    }

    /** Builds all operations of a payment. One pass over the contracts is enough: the result is
        complete, and the check never rejects a blank operation. */
    method Bundle(requests: seq<OpRequest<PrefabSeal>>, change: Option<Vout>)
      returns (r: Result<set<Prefab>, BundleError>)
      requires LawfulAll(contracts) && Ids(requests) <= contracts.Keys
      requires forall c :: c in contracts && c !in Ids(requests) ==> ConsistentCells(contracts[c].owned)
      modifies this
      ensures r.Ok? ==> Bundled(hashes, ledgerCall, old(contracts), requests, change, r.value, contracts)
      ensures r.Ok? ==> |r.value| <= U16_MAX
      ensures r.Err? ==> BundleFails(hashes, ledgerCall, old(contracts), requests, change, r.error, contracts)
    {
      var ids := Ids(requests);
      ghost var before := contracts;
      var requested;
      ghost var ps;
      requested, ps := BuildRequested(requests);
      if requested.Err? {
        assert BundleFails(hashes, ledgerCall, before, requests, change, requested.error, contracts);
        return Err(requested.error);
      }
      ghost var mid := contracts;
      assert requests[..|ps|] == requests;
      var (prefabs, outpoints) := requested.value;
      var blanks := CollectBlanks(ids, outpoints, change);
      if blanks.Err? {
        CannotPay(hashes, ledgerCall, before, mid, requests, change, ps, blanks.error);
        return Err(blanks.error);
      }
      BlanksAgree(hashes, before, contracts, contracts.Keys - ids, outpoints, change, blanks.value);
      BlanksPass(hashes, contracts, contracts.Keys - ids, outpoints, change, blanks.value);
      var built;
      ghost var qs;
      built, qs := BuildBlanks(blanks.value);
      if built.Err? {
        BlankIsRefused(hashes, ledgerCall, before, mid, requests, change, blanks.value, built.error.error);
        StopsThere(hashes, ledgerCall, before, mid, requests, change, ps, blanks.value, qs, contracts,
                   built.error.error);
        BlankRefused(hashes, ledgerCall, before, requests, change, contracts, built.error.error);
        return Err(built.error);
      }
      var all := prefabs + Elems(built.value);
      BundleIsComplete(hashes, before, requests, change, ps, blanks.value, built.value);
      assert Midway(hashes, ledgerCall, before, requests, change, ps, mid, blanks.value, qs, contracts);
      if |all| > U16_MAX {
        FewOperations(requests, before, ps, built.value, blanks.value);
        assert BundleFails(hashes, ledgerCall, before, requests, change, TooManyBlanks, contracts);
        return Err(TooManyBlanks);
      }
      return Ok(all);
    }
  }

  // ---------------------------------------------------------------- one call

  lemma CalledNow(ledgerCall: LedgerCall, c: WalletContract, o: Operation, owned: OwnedMap, seals: map<U16, WTxoSeal>)
    requires ledgerCall(o.contractId, c, o.params) == Some((o.opid, owned))
    ensures Called(ledgerCall, c, WalletContract(c.api, owned, c.pile.AddSeals(o.opid, seals)), o)
  {
  }

  lemma StoredSeals(h: Hashes, request: OpRequest<PrefabSeal>, pile: PileView, opid: Opid, seals: map<U16, WTxoSeal>)
    requires |request.owned| <= U16_MAX ==> SealsMatch(h, request.contractId, request.owned, seals)
    ensures |request.owned| <= U16_MAX ==> StoresSeals(h, request, pile, pile.AddSeals(opid, seals), opid)
  {
    if |request.owned| <= U16_MAX && forall a :: a in pile.keep ==> a.opid != opid {
      SealsReadBack(pile, opid, seals, |request.owned|);
    }
  }

  // ---------------------------------------------------------------- failures

  /** The request after those built was refused by its contract as it then was. */
  ghost predicate RefusedAfter(h: Hashes, ledgerCall: LedgerCall, start: map<ContractId, WalletContract>,
                               requests: seq<OpRequest<PrefabSeal>>, ps: seq<Prefab>,
                               now: map<ContractId, WalletContract>, e: PrefabError) {
    && |ps| < |requests| && Steps(Building(h, ledgerCall, requests), start, ps, now) && requests[|ps|].contractId in now
    && Refused(h, ledgerCall, now[requests[|ps|].contractId], requests[|ps|], e)
  }

  /** What holds when a bundle cannot be built, and what it leaves the contracts as: a request was refused; the
      state of some other contract cannot all be paid to the change output; a blank operation was refused, though
      not for its balance; or there are more operations than a bundle holds. The operations built before stay. */
  ghost predicate BundleFails(h: Hashes, ledgerCall: LedgerCall, contracts: map<ContractId, WalletContract>,
                              requests: seq<OpRequest<PrefabSeal>>, change: Option<Vout>, e: BundleError,
                              after: map<ContractId, WalletContract>) {
    match e
    case Requested(cause) => exists ps :: RefusedAfter(h, ledgerCall, contracts, requests, ps, after, cause)
    case StateError(_) => CannotBePaid(h, ledgerCall, contracts, requests, change, after)
    case ChangeRequired => change.None? && CannotBePaid(h, ledgerCall, contracts, requests, change, after)
    case Blank(cause) =>
      && !cause.Unmatched?
      && RefusesBlank(h, ledgerCall, contracts, Ids(requests), AllClosed(requests), change, cause)
      && StopsAtBlank(h, ledgerCall, contracts, requests, change, cause, after)
    case TooManyBlanks =>
      |requests| + |contracts| > U16_MAX && AllBuilt(h, ledgerCall, contracts, requests, change, after)
  }

  ghost predicate CannotBePaid(h: Hashes, ledgerCall: LedgerCall, contracts: map<ContractId, WalletContract>,
                               requests: seq<OpRequest<PrefabSeal>>, change: Option<Vout>,
                               after: map<ContractId, WalletContract>) {
    && SomeUnpayable(contracts, Ids(requests), AllClosed(requests), change)
    && exists ps :: AllRequested(h, ledgerCall, contracts, requests, ps, after)
  }

  ghost predicate StopsAtBlank(h: Hashes, ledgerCall: LedgerCall, contracts: map<ContractId, WalletContract>,
                               requests: seq<OpRequest<PrefabSeal>>, change: Option<Vout>, cause: PrefabError,
                               after: map<ContractId, WalletContract>) {
    exists ps, mid, blanks, qs :: Midway(h, ledgerCall, contracts, requests, change, ps, mid, blanks, qs, after)
      && RefusedAfter(h, ledgerCall, mid, blanks, qs, after, cause)
  }

  ghost predicate AllBuilt(h: Hashes, ledgerCall: LedgerCall, contracts: map<ContractId, WalletContract>,
                           requests: seq<OpRequest<PrefabSeal>>, change: Option<Vout>,
                           after: map<ContractId, WalletContract>) {
    exists ps, mid, blanks, qs :: Midway(h, ledgerCall, contracts, requests, change, ps, mid, blanks, qs, after)
      && |qs| == |blanks|
  }

  ghost predicate AllBlankable(contracts: map<ContractId, WalletContract>, done: set<ContractId>,
                               outpoints: set<Outpoint>, change: Option<Vout>) {
    forall c :: c in done && c in contracts ==> Blankable(contracts[c], outpoints, change)
  }

  ghost predicate SomeUnpayable(contracts: map<ContractId, WalletContract>, ids: set<ContractId>,
                                outpoints: set<Outpoint>, change: Option<Vout>) {
    exists c :: c in contracts && c !in ids && !Blankable(contracts[c], outpoints, change)
  }

  ghost predicate RefusesBlank(h: Hashes, ledgerCall: LedgerCall, contracts: map<ContractId, WalletContract>,
                               ids: set<ContractId>, outpoints: set<Outpoint>, change: Option<Vout>, e: PrefabError) {
    exists c, blank :: c in contracts && c !in ids && IsBlank(h, c, contracts[c], outpoints, change, blank)
      && Refused(h, ledgerCall, contracts[c], blank, e)
  }

  /** Some request is refused by its contract. */
  ghost predicate RefusesAny(h: Hashes, ledgerCall: LedgerCall, contracts: map<ContractId, WalletContract>,
                             requests: seq<OpRequest<PrefabSeal>>, e: PrefabError) {
    exists k :: 0 <= k < |requests| && requests[k].contractId in contracts &&
                Refused(h, ledgerCall, contracts[requests[k].contractId], requests[k], e)
  }

  lemma CannotPay(h: Hashes, ledgerCall: LedgerCall, before: map<ContractId, WalletContract>,
                  mid: map<ContractId, WalletContract>, requests: seq<OpRequest<PrefabSeal>>, change: Option<Vout>,
                  ps: seq<Prefab>, e: BundleError)
    requires OnlyTouches(before, mid, Ids(requests)) && SomeUnpayable(mid, Ids(requests), AllClosed(requests), change)
    requires AllRequested(h, ledgerCall, before, requests, ps, mid)
    requires e.StateError? || (e == ChangeRequired && change.None?)
    ensures BundleFails(h, ledgerCall, before, requests, change, e, mid)
  {
  }

  lemma BlankRefused(h: Hashes, ledgerCall: LedgerCall, before: map<ContractId, WalletContract>,
                     requests: seq<OpRequest<PrefabSeal>>, change: Option<Vout>,
                     after: map<ContractId, WalletContract>, e: PrefabError)
    requires !e.Unmatched? && StopsAtBlank(h, ledgerCall, before, requests, change, e, after)
    requires RefusesBlank(h, ledgerCall, before, Ids(requests), AllClosed(requests), change, e)
    ensures BundleFails(h, ledgerCall, before, requests, change, Blank(e), after)
  {
  }

  lemma StopsThere(h: Hashes, ledgerCall: LedgerCall, before: map<ContractId, WalletContract>,
                   mid: map<ContractId, WalletContract>, requests: seq<OpRequest<PrefabSeal>>, change: Option<Vout>,
                   ps: seq<Prefab>, blanks: seq<OpRequest<PrefabSeal>>, qs: seq<Prefab>,
                   after: map<ContractId, WalletContract>, e: PrefabError)
    requires BlanksFor(h, before, before.Keys - Ids(requests), AllClosed(requests), change, blanks)
    requires AllRequested(h, ledgerCall, before, requests, ps, mid)
    requires RefusedAfter(h, ledgerCall, mid, blanks, qs, after, e)
    ensures StopsAtBlank(h, ledgerCall, before, requests, change, e, after)
  {
    assert Midway(h, ledgerCall, before, requests, change, ps, mid, blanks, qs, after);
  }

  lemma BlankIsRefused(h: Hashes, ledgerCall: LedgerCall, before: map<ContractId, WalletContract>,
                       mid: map<ContractId, WalletContract>, requests: seq<OpRequest<PrefabSeal>>, change: Option<Vout>,
                       blanks: seq<OpRequest<PrefabSeal>>, e: PrefabError)
    requires OnlyTouches(before, mid, Ids(requests)) && RefusesAny(h, ledgerCall, mid, blanks, e)
    requires BlanksFor(h, before, before.Keys - Ids(requests), AllClosed(requests), change, blanks)
    ensures RefusesBlank(h, ledgerCall, before, Ids(requests), AllClosed(requests), change, e)
  {
    var k :| 0 <= k < |blanks| && blanks[k].contractId in mid
             && Refused(h, ledgerCall, mid[blanks[k].contractId], blanks[k], e);
    assert BlankAt(h, before, before.Keys - Ids(requests), AllClosed(requests), change, blanks[k]);
  }

  /** There is at most one operation for each request, and one for each contract without a request. */
  lemma FewOperations(requests: seq<OpRequest<PrefabSeal>>, contracts: map<ContractId, WalletContract>, ps: seq<Prefab>,
                      built: seq<Prefab>, blanks: seq<OpRequest<PrefabSeal>>)
    requires |ps| <= |requests| && |built| == |blanks| && Distinct(blanks)
    requires forall k :: 0 <= k < |blanks| ==> blanks[k].contractId in contracts
    ensures |Elems(ps) + Elems(built)| <= |requests| + |contracts|
  {
    ElemsBound(ps);
    ElemsBound(built);
    DistinctBound(blanks, contracts.Keys);
  }

  lemma {:induction false} ElemsBound<T>(s: seq<T>)
    ensures |Elems(s)| <= |s|
  {
    if s != [] {
      var n := |s| - 1;
      ElemsBound(s[..n]);
      assert Elems(s) == Elems(s[..n]) + {s[n]};
    }
  }

  lemma {:induction false} DistinctBound(blanks: seq<OpRequest<PrefabSeal>>, ids: set<ContractId>)
    requires Distinct(blanks) && forall k :: 0 <= k < |blanks| ==> blanks[k].contractId in ids
    ensures |blanks| <= |ids|
  {
    if blanks != [] {
      var n := |blanks| - 1;
      DistinctBound(blanks[..n], ids - {blanks[n].contractId});
    }
  }

  ghost predicate KeptAt(before: map<ContractId, WalletContract>, after: map<ContractId, WalletContract>,
                         c: ContractId) {
    c in before && c in after && after[c] == before[c]
  }

  /** The contracts of the requests from the `i`th on are as before. */
  ghost predicate RestKept(before: map<ContractId, WalletContract>, after: map<ContractId, WalletContract>,
                           blanks: seq<OpRequest<PrefabSeal>>, i: nat) {
    forall k :: i <= k < |blanks| ==> KeptAt(before, after, blanks[k].contractId)
  }

  // ---------------------------------------------------------------- the requested operations

  /** Some requests have been built, and only their contracts were touched. */
  ghost predicate Progress(h: Hashes, ledgerCall: LedgerCall, start: map<ContractId, WalletContract>,
                           requests: seq<OpRequest<PrefabSeal>>, ps: seq<Prefab>,
                           now: map<ContractId, WalletContract>) {
    && Steps(Building(h, ledgerCall, requests), start, ps, now)
    && |ps| <= |requests| && BuiltFrom(h, requests[..|ps|], ps)
    && OnlyTouches(start, now, Ids(requests)) && LawfulAll(now) && Ids(requests) <= now.Keys
  }

  lemma RequestIsKnown(requests: seq<OpRequest<PrefabSeal>>, i: nat)
    requires i < |requests|
    ensures requests[i].contractId in Ids(requests)
  {
  }

  lemma StepsAppend(step: StepRelation, start: map<ContractId, WalletContract>, ps: seq<Prefab>,
                    before: map<ContractId, WalletContract>, now: map<ContractId, WalletContract>, p: Prefab)
    requires Steps(step, start, ps, before) && step(before, now, |ps|, p)
    ensures Steps(step, start, ps + [p], now)
  {
    assert (ps + [p])[..|ps|] == ps;
  }

  lemma BuiltNext(h: Hashes, requests: seq<OpRequest<PrefabSeal>>, ps: seq<Prefab>, p: Prefab)
    requires |ps| < |requests| && BuiltFrom(h, requests[..|ps|], ps) && Builds(h, requests[|ps|], p)
    ensures BuiltFrom(h, requests[..|ps| + 1], ps + [p])
  {
  }

  lemma TouchesNext(requests: seq<OpRequest<PrefabSeal>>, i: nat, start: map<ContractId, WalletContract>,
                    before: map<ContractId, WalletContract>, now: map<ContractId, WalletContract>)
    requires i < |requests| && OnlyTouches(start, before, Ids(requests)) && LawfulAll(before)
    requires OnlyTouches(before, now, {requests[i].contractId})
    ensures OnlyTouches(start, now, Ids(requests)) && LawfulAll(now)
  {
    RequestIsKnown(requests, i);
  }

  lemma NextClosing(requests: seq<OpRequest<PrefabSeal>>, i: nat, ps: seq<Prefab>, p: Prefab)
    requires i < |requests|
    ensures Closing(requests, i + 1) == Closing(requests, i) + ClosedBy(requests[i].using)
    ensures Elems(ps + [p]) == Elems(ps) + {p}
  {
  }

  // ---------------------------------------------------------------- the blank requests

  /** `blanks[k]` is the blank request of a contract of `done` with state on a spent output. */
  ghost predicate BlankAt(h: Hashes, contracts: map<ContractId, WalletContract>, done: set<ContractId>,
                          outpoints: set<Outpoint>, change: Option<Vout>, blank: OpRequest<PrefabSeal>) {
    var c := blank.contractId;
    c in done && c in contracts && Affected(contracts[c].owned, outpoints) != []
    && IsBlank(h, c, contracts[c], outpoints, change, blank)
  }

  ghost predicate Distinct(blanks: seq<OpRequest<PrefabSeal>>) {
    forall j, k :: 0 <= j < k < |blanks| ==> blanks[j].contractId != blanks[k].contractId
  }

  ghost predicate NoneMissing(contracts: map<ContractId, WalletContract>, done: set<ContractId>,
                              outpoints: set<Outpoint>, blanks: seq<OpRequest<PrefabSeal>>) {
    forall c :: c in done && c in contracts && Affected(contracts[c].owned, outpoints) != [] ==> HasRequest(blanks, c)
  }

  /** `blanks` holds the blank requests of the contracts of `done`, one for each that needs one. */
  ghost predicate BlanksFor(h: Hashes, contracts: map<ContractId, WalletContract>, done: set<ContractId>,
                            outpoints: set<Outpoint>, change: Option<Vout>, blanks: seq<OpRequest<PrefabSeal>>) {
    && (forall k :: 0 <= k < |blanks| ==> BlankAt(h, contracts, done, outpoints, change, blanks[k]))
    && Distinct(blanks)
    && NoneMissing(contracts, done, outpoints, blanks)
  }

  lemma BlanksAgree(h: Hashes, a: map<ContractId, WalletContract>, b: map<ContractId, WalletContract>,
                    done: set<ContractId>, outpoints: set<Outpoint>, change: Option<Vout>,
                    blanks: seq<OpRequest<PrefabSeal>>)
    requires a.Keys == b.Keys && forall c :: c in done && c in a ==> a[c] == b[c]
    requires BlanksFor(h, b, done, outpoints, change, blanks)
    ensures BlanksFor(h, a, done, outpoints, change, blanks)
  {
  }

  /** The contract of a request is known, and the request passes its check. */
  ghost predicate Passes(contracts: map<ContractId, WalletContract>, request: OpRequest<PrefabSeal>) {
    && request.contractId in contracts
    && var c := contracts[request.contractId];
       Acceptable(c.api, c.owned, request.using, OutputsOf(request.owned))
  }

  /** The requests from the `i`th on pass the check. */
  ghost predicate RestPass(contracts: map<ContractId, WalletContract>, blanks: seq<OpRequest<PrefabSeal>>, i: nat) {
    forall k :: i <= k < |blanks| ==> Passes(contracts, blanks[k])
  }

  lemma BlanksPass(h: Hashes, contracts: map<ContractId, WalletContract>, done: set<ContractId>,
                   outpoints: set<Outpoint>, change: Option<Vout>, blanks: seq<OpRequest<PrefabSeal>>)
    requires BlanksFor(h, contracts, done, outpoints, change, blanks)
    ensures RestPass(contracts, blanks, 0)
  {
  }

  /** The requests from the `i`th on still pass the check, against contracts nobody touched. */
  ghost predicate Underway(start: map<ContractId, WalletContract>, now: map<ContractId, WalletContract>,
                           blanks: seq<OpRequest<PrefabSeal>>, i: nat) {
    LawfulAll(now) && Distinct(blanks) && RestPass(now, blanks, i) && RestKept(start, now, blanks, i)
  }

  /** Some blank operations have been built. */
  ghost predicate BlankProgress(h: Hashes, ledgerCall: LedgerCall, start: map<ContractId, WalletContract>,
                                blanks: seq<OpRequest<PrefabSeal>>, qs: seq<Prefab>,
                                now: map<ContractId, WalletContract>) {
    && |qs| <= |blanks| && Underway(start, now, blanks, |qs|)
    && BuiltFrom(h, blanks[..|qs|], qs) && Steps(Building(h, ledgerCall, blanks), start, qs, now)
  }

  lemma AllUnderway(contracts: map<ContractId, WalletContract>, blanks: seq<OpRequest<PrefabSeal>>)
    requires LawfulAll(contracts) && Distinct(blanks) && RestPass(contracts, blanks, 0)
    ensures Underway(contracts, contracts, blanks, 0)
  {
    forall k | 0 <= k < |blanks| ensures KeptAt(contracts, contracts, blanks[k].contractId) {
      assert Passes(contracts, blanks[k]);
    }
  }

  lemma NextUnderway(start: map<ContractId, WalletContract>, before: map<ContractId, WalletContract>,
                     after: map<ContractId, WalletContract>, blanks: seq<OpRequest<PrefabSeal>>, i: nat)
    requires i < |blanks| && Underway(start, before, blanks, i) && OnlyTouches(before, after, {blanks[i].contractId})
    ensures Underway(start, after, blanks, i + 1)
  {
    OthersStillPass(before, after, blanks, i);
    forall k | i + 1 <= k < |blanks| ensures KeptAt(start, after, blanks[k].contractId) {
      assert KeptAt(start, before, blanks[k].contractId) && blanks[k].contractId != blanks[i].contractId;
    }
  }

  /** Building one blank operation does not affect the requests of other contracts. */
  lemma OthersStillPass(before: map<ContractId, WalletContract>, after: map<ContractId, WalletContract>,
                        blanks: seq<OpRequest<PrefabSeal>>, i: nat)
    requires i < |blanks| && Distinct(blanks) && LawfulAll(before)
    requires OnlyTouches(before, after, {blanks[i].contractId})
    requires RestPass(before, blanks, i)
    ensures LawfulAll(after) && RestPass(after, blanks, i + 1)
  {
  }

  predicate HasRequest(blanks: seq<OpRequest<PrefabSeal>>, c: ContractId) {
    exists k :: 0 <= k < |blanks| && blanks[k].contractId == c
  }

  /** The blank requests with that of one more contract, if it has one. */
  function WithBlank(h: Hashes, contracts: map<ContractId, WalletContract>, ghost done: set<ContractId>,
                     outpoints: set<Outpoint>, change: Option<Vout>, blanks: seq<OpRequest<PrefabSeal>>, c: ContractId,
                     blank: Option<OpRequest<PrefabSeal>>): (r: seq<OpRequest<PrefabSeal>>)
    requires c in contracts && c !in done && BlanksFor(h, contracts, done, outpoints, change, blanks)
    requires blank.None? <==> Affected(contracts[c].owned, outpoints) == []
    requires blank.Some? ==> IsBlank(h, c, contracts[c], outpoints, change, blank.value)
    ensures BlanksFor(h, contracts, done + {c}, outpoints, change, r)
  {
    match blank
    case None => BlanksSkip(h, contracts, done, outpoints, change, blanks, c); blanks
    case Some(b) => BlanksAdd(h, contracts, done, outpoints, change, blanks, b, c); blanks + [b]
  }

  lemma BlanksSkip(h: Hashes, contracts: map<ContractId, WalletContract>, done: set<ContractId>,
                   outpoints: set<Outpoint>, change: Option<Vout>, blanks: seq<OpRequest<PrefabSeal>>, c: ContractId)
    requires BlanksFor(h, contracts, done, outpoints, change, blanks)
    requires c in contracts && c !in done && Affected(contracts[c].owned, outpoints) == []
    ensures BlanksFor(h, contracts, done + {c}, outpoints, change, blanks)
  {
  }

  lemma BlanksAdd(h: Hashes, contracts: map<ContractId, WalletContract>, done: set<ContractId>,
                  outpoints: set<Outpoint>, change: Option<Vout>, blanks: seq<OpRequest<PrefabSeal>>,
                  blank: OpRequest<PrefabSeal>, c: ContractId)
    requires BlanksFor(h, contracts, done, outpoints, change, blanks)
    requires c !in done && blank.contractId == c && BlankAt(h, contracts, done + {c}, outpoints, change, blank)
    ensures BlanksFor(h, contracts, done + {c}, outpoints, change, blanks + [blank])
  {
    forall k | 0 <= k < |blanks|
      ensures BlankAt(h, contracts, done + {c}, outpoints, change, blanks[k]) && blanks[k].contractId != c
    {
      BlankAtMore(h, contracts, done, outpoints, change, blanks[k], c);
    }
    AppendBlank(h, contracts, done + {c}, outpoints, change, blanks, blank);
    HasRequestMore(blanks, blank);
  }

  lemma BlankAtMore(h: Hashes, contracts: map<ContractId, WalletContract>, done: set<ContractId>,
                    outpoints: set<Outpoint>, change: Option<Vout>, blank: OpRequest<PrefabSeal>, c: ContractId)
    requires BlankAt(h, contracts, done, outpoints, change, blank) && c !in done
    ensures BlankAt(h, contracts, done + {c}, outpoints, change, blank) && blank.contractId != c
  {
  }

  lemma AppendBlank(h: Hashes, contracts: map<ContractId, WalletContract>, done: set<ContractId>,
                    outpoints: set<Outpoint>, change: Option<Vout>, blanks: seq<OpRequest<PrefabSeal>>,
                    blank: OpRequest<PrefabSeal>)
    requires forall k :: 0 <= k < |blanks| ==> BlankAt(h, contracts, done, outpoints, change, blanks[k])
    requires BlankAt(h, contracts, done, outpoints, change, blank)
    requires Distinct(blanks) && forall k :: 0 <= k < |blanks| ==> blanks[k].contractId != blank.contractId
    ensures Distinct(blanks + [blank])
    ensures forall k :: 0 <= k < |blanks| + 1 ==> BlankAt(h, contracts, done, outpoints, change, (blanks + [blank])[k])
  {
    var more := blanks + [blank];
    forall k | 0 <= k < |more| ensures BlankAt(h, contracts, done, outpoints, change, more[k]) {
      assert more[k] == if k < |blanks| then blanks[k] else blank;
    }
  }

  lemma HasRequestMore(blanks: seq<OpRequest<PrefabSeal>>, blank: OpRequest<PrefabSeal>)
    ensures forall d :: HasRequest(blanks, d) || d == blank.contractId ==> HasRequest(blanks + [blank], d)
  {
    var more := blanks + [blank];
    assert more[|blanks|] == blank;
    forall d | HasRequest(blanks, d) ensures HasRequest(more, d) {
      var k :| 0 <= k < |blanks| && blanks[k].contractId == d;
      assert more[k].contractId == d;
    }
  }

  // ---------------------------------------------------------------- completeness

  /** The requested and the blank operations together are complete. */
  lemma BundleIsComplete(h: Hashes, before: map<ContractId, WalletContract>, requests: seq<OpRequest<PrefabSeal>>,
                         change: Option<Vout>, ps: seq<Prefab>, blanks: seq<OpRequest<PrefabSeal>>, built: seq<Prefab>)
    requires Ids(requests) <= before.Keys && BuiltFrom(h, requests, ps)
    requires BlanksFor(h, before, before.Keys - Ids(requests), AllClosed(requests), change, blanks)
    requires BuiltFrom(h, blanks, built)
    ensures Complete(h, before, requests, change, ps, Elems(ps) + Elems(built))
  {
    RequestedIds(h, requests, ps);
    BlankIds(h, before, before.Keys - Ids(requests), AllClosed(requests), change, blanks, built);
    forall c | c in before && c !in Ids(requests)
      ensures TreatedRight(h, c, before[c], AllClosed(requests), change, Elems(ps) + Elems(built))
    {
      ContractIsTreatedRight(h, before, Ids(requests), AllClosed(requests), change, Elems(ps), blanks, built, c);
    }
    Assembled(h, before, requests, change, ps, built);
  }

  lemma Assembled(h: Hashes, before: map<ContractId, WalletContract>, requests: seq<OpRequest<PrefabSeal>>,
                  change: Option<Vout>, ps: seq<Prefab>, built: seq<Prefab>)
    requires Ids(requests) <= before.Keys && BuiltFrom(h, requests, ps)
    requires forall p :: p in ps ==> p.operation.contractId in Ids(requests)
    requires forall p :: p in built ==> p.operation.contractId in before.Keys - Ids(requests)
    requires AllTreated(h, before, Ids(requests), AllClosed(requests), change, Elems(ps) + Elems(built))
    ensures Complete(h, before, requests, change, ps, Elems(ps) + Elems(built))
  {
  }

  lemma BlankIds(h: Hashes, contracts: map<ContractId, WalletContract>, done: set<ContractId>, outpoints: set<Outpoint>,
                 change: Option<Vout>, blanks: seq<OpRequest<PrefabSeal>>, built: seq<Prefab>)
    requires BlanksFor(h, contracts, done, outpoints, change, blanks) && BuiltFrom(h, blanks, built)
    ensures forall p :: p in built ==> p.operation.contractId in done
  {
    forall p | p in built ensures p.operation.contractId in done {
      var k :| 0 <= k < |built| && built[k] == p;
      assert BlankAt(h, contracts, done, outpoints, change, blanks[k]);
    }
  }

  lemma RequestedIds(h: Hashes, requests: seq<OpRequest<PrefabSeal>>, ps: seq<Prefab>)
    requires BuiltFrom(h, requests, ps)
    ensures forall p :: p in ps ==> p.operation.contractId in Ids(requests)
  {
    forall p | p in ps ensures p.operation.contractId in Ids(requests) {
      var k :| 0 <= k < |ps| && ps[k] == p;
      RequestIsKnown(requests, k);
    }
  }

  lemma ContractIsTreatedRight(h: Hashes, before: map<ContractId, WalletContract>, ids: set<ContractId>,
                               outpoints: set<Outpoint>, change: Option<Vout>, prefabs: set<Prefab>,
                               blanks: seq<OpRequest<PrefabSeal>>, built: seq<Prefab>, c: ContractId)
    requires c in before && c !in ids
    requires forall p :: p in prefabs ==> p.operation.contractId in ids
    requires BlanksFor(h, before, before.Keys - ids, outpoints, change, blanks) && BuiltFrom(h, blanks, built)
    ensures TreatedRight(h, c, before[c], outpoints, change, prefabs + Elems(built))
  {
    if Affected(before[c].owned, outpoints) != [] {
      assert HasRequest(blanks, c);
      var k :| 0 <= k < |blanks| && blanks[k].contractId == c;
      assert BlankAt(h, before, before.Keys - ids, outpoints, change, blanks[k]);
      BuiltIsSingle(h, prefabs, ids, blanks, built, k);
      assert BlankFor(h, c, before[c], outpoints, change, prefabs + Elems(built), built[k]);
    } else {
      NoBlankFor(h, before, before.Keys - ids, outpoints, change, blanks, built, c);
    }
  }

  lemma NoBlankFor(h: Hashes, contracts: map<ContractId, WalletContract>, done: set<ContractId>,
                   outpoints: set<Outpoint>, change: Option<Vout>, blanks: seq<OpRequest<PrefabSeal>>,
                   built: seq<Prefab>, c: ContractId)
    requires BlanksFor(h, contracts, done, outpoints, change, blanks) && BuiltFrom(h, blanks, built)
    requires c in contracts && Affected(contracts[c].owned, outpoints) == []
    ensures forall p :: p in built ==> p.operation.contractId != c
  {
    forall p | p in built ensures p.operation.contractId != c {
      var k :| 0 <= k < |built| && built[k] == p;
      assert BlankAt(h, contracts, done, outpoints, change, blanks[k]);
    }
  }

  lemma BuiltIsSingle(h: Hashes, prefabs: set<Prefab>, ids: set<ContractId>, blanks: seq<OpRequest<PrefabSeal>>,
                      built: seq<Prefab>, k: nat)
    requires forall p :: p in prefabs ==> p.operation.contractId in ids
    requires BuiltFrom(h, blanks, built) && Distinct(blanks)
    requires k < |blanks| && blanks[k].contractId !in ids
    ensures Single(prefabs + Elems(built), built[k])
  {
  }

  /** Every operation of a bundle is either built from a request or the single blank operation of a contract
      without one, and never both. */
  lemma EveryOperationIsAccountedFor(h: Hashes, contracts: map<ContractId, WalletContract>,
                                     requests: seq<OpRequest<PrefabSeal>>, change: Option<Vout>, ps: seq<Prefab>,
                                     prefabs: set<Prefab>, p: Prefab)
    requires Complete(h, contracts, requests, change, ps, prefabs) && p in prefabs
    ensures p in ps <==> p.operation.contractId in Ids(requests)
    ensures p !in ps ==>
      BlankFor(h, p.operation.contractId, contracts[p.operation.contractId], AllClosed(requests), change, prefabs, p)
  {
    RequestedIds(h, requests, ps);
    var c := p.operation.contractId;
    if p !in ps {
      assert TreatedRight(h, c, contracts[c], AllClosed(requests), change, prefabs);
      TreatedIsBlank(h, c, contracts[c], AllClosed(requests), change, prefabs, p);
    }
  }

  lemma TreatedIsBlank(h: Hashes, c: ContractId, contract: WalletContract, outpoints: set<Outpoint>,
                       change: Option<Vout>, prefabs: set<Prefab>, p: Prefab)
    requires TreatedRight(h, c, contract, outpoints, change, prefabs)
    requires p in prefabs && p.operation.contractId == c
    ensures BlankFor(h, c, contract, outpoints, change, prefabs, p)
  {
  }

  /** The outputs closed by the operations of the requested contracts. */
  function ClosedUnder(prefabs: set<Prefab>, ids: set<ContractId>): set<Outpoint> {
    set p, o | p in prefabs && p.operation.contractId in ids && o in p.closes :: o
  }

  /** They are exactly those the requests close. */
  lemma RequestsCloseExactly(h: Hashes, contracts: map<ContractId, WalletContract>,
                             requests: seq<OpRequest<PrefabSeal>>, change: Option<Vout>, ps: seq<Prefab>,
                             prefabs: set<Prefab>)
    requires Complete(h, contracts, requests, change, ps, prefabs)
    ensures ClosedUnder(prefabs, Ids(requests)) == AllClosed(requests)
  {
    RequestedIds(h, requests, ps);
    ClosedOneByOne(h, requests, ps);
    forall o | o in AllClosed(requests) ensures o in ClosedUnder(prefabs, Ids(requests)) {
      var p :| p in ps && o in p.closes;
    }
  }

  lemma ClosedOneByOne(h: Hashes, requests: seq<OpRequest<PrefabSeal>>, ps: seq<Prefab>)
    requires BuiltFrom(h, requests, ps)
    ensures forall o :: o in AllClosed(requests) <==> exists p :: p in ps && o in p.closes
  {
    forall o | o in AllClosed(requests) ensures exists p :: p in ps && o in p.closes {
      var k :| 0 <= k < |requests| && o in ClosedBy(requests[k].using);
      assert ps[k] in ps && o in ps[k].closes;
    }
    forall o, p | p in ps && o in p.closes ensures o in AllClosed(requests) {
      var k :| 0 <= k < |ps| && ps[k] == p;
      assert o in ClosedBy(requests[k].using);
    }
  }

  /** Closure over spent outputs: every allocation, of a contract without a request, that lies on an
      output closed by a request is taken up by that contract's only operation, and that operation closes
      no other output. */
  lemma NothingIsLeftBehind(h: Hashes, contracts: map<ContractId, WalletContract>, requests: seq<OpRequest<PrefabSeal>>,
                            change: Option<Vout>, ps: seq<Prefab>, prefabs: set<Prefab>, c: ContractId, a: Allocation)
    requires Complete(h, contracts, requests, change, ps, prefabs)
    requires c in contracts && c !in Ids(requests) && ConsistentCells(contracts[c].owned)
    requires Owns(contracts[c].owned, a) && a.outpoint in AllClosed(requests)
    ensures exists p :: Single(prefabs, p) && p.operation.contractId == c && TakesUp(p, a)
                        && p.operation.params.methodName == MethodName("_")
                        && p.closes <= AllClosed(requests)
  {
    var outpoints := AllClosed(requests);
    assert a in Affected(contracts[c].owned, outpoints);
    assert TreatedRight(h, c, contracts[c], outpoints, change, prefabs);
    var p :| BlankFor(h, c, contracts[c], outpoints, change, prefabs, p);
    var req :| IsBlank(h, c, contracts[c], outpoints, change, req) && Builds(h, req, p);
    BlankMoves(h, c, contracts[c], outpoints, change, req, p);
  }

  /** The operation of a contract without a request conserves value exactly when no cell worth something has two
      entries on the outputs closed by the requests, and so whenever no cell has. */
  lemma BlankOfBundleConserves(h: Hashes, contracts: map<ContractId, WalletContract>,
                               requests: seq<OpRequest<PrefabSeal>>, change: Option<Vout>, ps: seq<Prefab>,
                               prefabs: set<Prefab>, p: Prefab)
    requires Complete(h, contracts, requests, change, ps, prefabs) && p in prefabs
    requires p.operation.contractId !in Ids(requests)
    ensures var c, outpoints := contracts[p.operation.contractId], AllClosed(requests);
      && (Conservation.Conserves(c.api, c.owned, p.operation.params) <==> FreeTwins(c.api, c.owned, outpoints))
      && (OneEntryEach(c.owned, outpoints) ==> Conservation.Conserves(c.api, c.owned, p.operation.params))
  {
    var c, outpoints := p.operation.contractId, AllClosed(requests);
    assert TreatedRight(h, c, contracts[c], outpoints, change, prefabs);
    TreatedIsBlank(h, c, contracts[c], outpoints, change, prefabs, p);
    var req :| IsBlank(h, c, contracts[c], outpoints, change, req) && Builds(h, req, p);
    BlankConservesIff(h, c, contracts[c], outpoints, change, req, p);
  }
}
