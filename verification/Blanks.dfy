/** Blank operations: moving on the state of contracts that share a spent output
    (src/popls/bp.rs, the second half of `bundle`). */
module Blanks {
  import opened Wrappers
  import opened Seals
  import opened History
  import opened StateCalcs
  import opened Requests
  import opened Payments
  import opened Prefabs
  import Conservation

  /** An allocation of a contract, under its state name. */
  datatype Allocation = Allocation(name: StateName, addr: CellAddr, outpoint: Outpoint, data: Data)

  function AllocationOf(n: StateName, e: OwnedState): Allocation {
    Allocation(n, e.addr, e.seal.primary, e.data)
  }

  predicate Owns(owned: OwnedMap, a: Allocation) {
    a.name in owned && Among(owned[a.name], a)
  }

  predicate Among(cells: seq<OwnedState>, a: Allocation) {
    exists i :: 0 <= i < |cells| && AllocationOf(a.name, cells[i]) == a
  }

  /** The entries of one name whose outputs are among the spent ones. */
  function AffectedOf(n: StateName, cells: seq<OwnedState>, outpoints: set<Outpoint>): (r: seq<Allocation>)
    ensures forall a :: a in r <==> a.outpoint in outpoints && a.name == n && Among(cells, a)
  {
    if cells == [] then []
    else
      var k := |cells| - 1;
      var rest := AffectedOf(n, cells[..k], outpoints);
      var last := AllocationOf(n, cells[k]);
      if last.outpoint in outpoints then rest + [last] else rest
  }

  function AffectedIn(owned: OwnedMap, names: seq<StateName>, outpoints: set<Outpoint>): (r: seq<Allocation>)
    requires forall n :: n in names ==> n in owned
    ensures forall a :: a in r <==> a.outpoint in outpoints && a.name in names && Owns(owned, a)
  {
    if names == [] then []
    else
      var k := |names| - 1;
      var n := names[k];
      assert forall m :: m in names <==> m == n || m in names[..k];
      AffectedIn(owned, names[..k], outpoints) + AffectedOf(n, owned[n], outpoints)
  }

  /** All allocations on the spent outputs, in the order of the contract state. */
  function Affected(owned: OwnedMap, outpoints: set<Outpoint>): (r: seq<Allocation>)
    ensures forall a :: a in r <==> a.outpoint in outpoints && Owns(owned, a)
  {
    AffectedIn(owned, Sorted(owned.Keys), outpoints)
  }

  // ---------------------------------------------------------------- the entries listed, one by one

  /** The place of an entry in the contract state. */
  datatype Spot = Spot(name: StateName, index: nat)

  predicate InState(owned: OwnedMap, s: Spot) { s.name in owned && s.index < |owned[s.name]| }

  function EntryAt(owned: OwnedMap, s: Spot): OwnedState
    requires InState(owned, s)
  {
    owned[s.name][s.index]
  }

  /** There is an entry at this place, and its output is spent. */
  predicate OnSpent(owned: OwnedMap, outpoints: set<Outpoint>, s: Spot) {
    InState(owned, s) && EntryAt(owned, s).seal.primary in outpoints
  }

  predicate Precedes(s: Spot, t: Spot) { s.name.key < t.name.key || (s.name == t.name && s.index < t.index) }

  /** All the places with an entry on a spent output, each once, in the order of the contract state. */
  ghost predicate Enumerates(owned: OwnedMap, outpoints: set<Outpoint>, spots: seq<Spot>) {
    Ordered(spots) && forall s :: s in spots <==> OnSpent(owned, outpoints, s)
  }

  ghost predicate Ordered(spots: seq<Spot>) { forall i, j :: 0 <= i < j < |spots| ==> Precedes(spots[i], spots[j]) }

  /** The allocations are those at the places, one for one. */
  ghost predicate Lists(owned: OwnedMap, spots: seq<Spot>, hit: seq<Allocation>) {
    && |hit| == |spots|
    && forall k :: 0 <= k < |spots| ==>
         InState(owned, spots[k]) && hit[k] == AllocationOf(spots[k].name, EntryAt(owned, spots[k]))
  }

  function SpotsOf(n: StateName, ks: seq<nat>): seq<Spot> { Mapped(ks, (k: nat) => Spot(n, k)) }

  lemma {:induction false} ListsOf(owned: OwnedMap, n: StateName, k: nat, outpoints: set<Outpoint>)
    requires n in owned && k <= |owned[n]|
    ensures Lists(owned, SpotsOf(n, PicksOf(owned[n][..k], outpoints)), AffectedOf(n, owned[n][..k], outpoints))
  {
    if k > 0 {
      ListsOf(owned, n, k - 1, outpoints);
      assert owned[n][..k][..k - 1] == owned[n][..k - 1];
    }
  }

  lemma SpotsOfName(owned: OwnedMap, n: StateName, outpoints: set<Outpoint>)
    requires n in owned
    ensures var spots := SpotsOf(n, PicksOf(owned[n], outpoints));
      && Ordered(spots) && Lists(owned, spots, AffectedOf(n, owned[n], outpoints))
      && forall s :: s in spots <==> s.name == n && OnSpent(owned, outpoints, s)
  {
    var ks := PicksOf(owned[n], outpoints);
    ListsOf(owned, n, |owned[n]|, outpoints);
    assert owned[n][..|owned[n]|] == owned[n];
    forall s: Spot | s.name == n && OnSpent(owned, outpoints, s) ensures s in SpotsOf(n, ks) {
      assert s.index in ks;
      var i :| 0 <= i < |ks| && ks[i] == s.index;
      assert SpotsOf(n, ks)[i] == s;
    }
  }

  /** The places of the given names with an entry on a spent output. */
  ghost predicate Under(owned: OwnedMap, names: seq<StateName>, outpoints: set<Outpoint>, spots: seq<Spot>) {
    Ordered(spots) && forall s :: s in spots <==> s.name in names && OnSpent(owned, outpoints, s)
  }

  lemma {:induction false} ListedIn(owned: OwnedMap, names: seq<StateName>, outpoints: set<Outpoint>)
    returns (spots: seq<Spot>)
    requires Ascending(names) && forall n :: n in names ==> n in owned
    ensures Under(owned, names, outpoints, spots) && Lists(owned, spots, AffectedIn(owned, names, outpoints))
  {
    if names == [] {
      spots := [];
    } else {
      var k := |names| - 1;
      var init, n := names[..k], names[k];
      var before := ListedIn(owned, init, outpoints);
      SpotsOfName(owned, n, outpoints);
      var last := SpotsOf(n, PicksOf(owned[n], outpoints));
      assert names == init + [n];
      UnderConcat(owned, init, n, outpoints, before, last);
      spots := before + last;
      ListsConcat(owned, before, last, AffectedIn(owned, init, outpoints), AffectedOf(n, owned[n], outpoints));
    }
  }

  lemma ListsConcat(owned: OwnedMap, a: seq<Spot>, b: seq<Spot>, x: seq<Allocation>, y: seq<Allocation>)
    requires Lists(owned, a, x) && Lists(owned, b, y)
    ensures Lists(owned, a + b, x + y)
  {
  }

  lemma UnderConcat(owned: OwnedMap, names: seq<StateName>, n: StateName, outpoints: set<Outpoint>, a: seq<Spot>,
                    b: seq<Spot>)
    requires Ascending(names + [n]) && Under(owned, names, outpoints, a) && Ordered(b)
    requires forall s :: s in b <==> s.name == n && OnSpent(owned, outpoints, s)
    ensures Under(owned, names + [n], outpoints, a + b)
  {
    forall m | m in names ensures m.key < n.key {
      var i :| 0 <= i < |names| && names[i] == m;
      assert (names + [n])[i] == m && (names + [n])[|names|] == n;
    }
    OrderedConcat(a, b, n);
    assert forall m :: m in names + [n] <==> m in names || m == n;
  }

  lemma OrderedConcat(a: seq<Spot>, b: seq<Spot>, n: StateName)
    requires Ordered(a) && Ordered(b)
    requires (forall s :: s in a ==> s.name.key < n.key) && forall s :: s in b ==> s.name == n
    ensures Ordered(a + b)
  {
    forall i, j | 0 <= i < |a| && 0 <= j < |b| ensures Precedes(a[i], b[j]) {
      assert a[i] in a && b[j] in b;
    }
  }

  /** The allocations listed are those of the entries on spent outputs: one for each entry, in the order of
      the state names and then of the entries. */
  lemma AffectedInOrder(owned: OwnedMap, outpoints: set<Outpoint>)
    ensures exists spots :: Enumerates(owned, outpoints, spots) && Lists(owned, spots, Affected(owned, outpoints))
  {
    var spots := ListedIn(owned, Sorted(owned.Keys), outpoints);
    assert Enumerates(owned, outpoints, spots);
  }

  // ---------------------------------------------------------------- what the request is

  function NamedOf(hit: seq<Allocation>): seq<Named> { Mapped(hit, (a: Allocation) => Named(a.name, a.data)) }

  function UsingOf(hit: seq<Allocation>): seq<UsedState> {
    Mapped(hit, (a: Allocation) => UsedState(a.addr, a.outpoint, None))
  }

  /** Change assignments for one difference, numbered on from `start`. */
  function BlankAssignments(h: Hashes, contractId: ContractId, vout: Vout, n: StateName, diff: seq<Data>, start: nat):
    (r: seq<Assigned<PrefabSeal>>)
    ensures |r| == |diff|
    ensures forall i :: 0 <= i < |diff| ==>
      r[i] == Assigned(n, Alt(PrefabSeal(vout, Some(h.walletNoise(contractId, vout, start + i)))), diff[i])
  {
    seq(|diff|, i requires 0 <= i < |diff| =>
      Assigned(n, Alt(PrefabSeal(vout, Some(h.walletNoise(contractId, vout, start + i)))), diff[i]))
  }

  /** Every output goes to the change output, under the noise `prefab` would choose by itself. */
  ghost predicate AllToChange(h: Hashes, contractId: ContractId, change: Option<Vout>,
                              owned: seq<Assigned<PrefabSeal>>) {
    forall i :: 0 <= i < |owned| ==>
      change.Some? && owned[i].seal == Alt(PrefabSeal(change.value, Some(h.walletNoise(contractId, change.value, i))))
  }

  /** A request uses exactly the allocations on the spent outputs, passes the check, and gives
      everything to the change output. */
  ghost predicate IsBlank(h: Hashes, contractId: ContractId, c: WalletContract, outpoints: set<Outpoint>,
                          change: Option<Vout>, req: OpRequest<PrefabSeal>) {
    && req.contractId == contractId && req.methodName == BLANK && req.global == [] && req.reading == []
    && req.using == UsingOf(Affected(c.owned, outpoints))
    && Acceptable(c.api, c.owned, req.using, OutputsOf(req.owned))
    && AllToChange(h, contractId, change, req.owned)
  }

  /** The operation has the allocation as an input and closes its output. */
  predicate TakesUp(p: Prefab, a: Allocation) {
    a.addr in p.operation.params.using && a.outpoint in p.closes
  }

  /** What that means for the operation built from it: each allocation on a spent output is an input, no
      other output is closed, and the outputs are worth what the allocations are under every name. */
  lemma BlankMoves(h: Hashes, contractId: ContractId, c: WalletContract, outpoints: set<Outpoint>, change: Option<Vout>,
                   req: OpRequest<PrefabSeal>, p: Prefab)
    requires ConsistentCells(c.owned) && IsBlank(h, contractId, c, outpoints, change, req) && Builds(h, req, p)
    ensures forall a :: Owns(c.owned, a) && a.outpoint in outpoints ==> TakesUp(p, a)
    ensures p.closes <= outpoints && p.defines <= (if change.Some? then {change.value} else {})
    ensures forall n :: SumOf(c.api, NamedOf(Affected(c.owned, outpoints)), n) == SumOf(c.api, OutputsOf(req.owned), n)
  {
    ClosesAffected(Affected(c.owned, outpoints), p);
    InputsOfAffected(c.owned, outpoints);
  }

  /** The entries at the places, as a request lists them. */
  ghost predicate UsesSpots(owned: OwnedMap, spots: seq<Spot>, using: seq<UsedState>) {
    && |using| == |spots|
    && forall k :: 0 <= k < |spots| ==> InState(owned, spots[k]) && using[k] == AsUsed(EntryAt(owned, spots[k]))
  }

  function AsUsed(e: OwnedState): UsedState { UsedState(e.addr, e.seal.primary, None) }

  /** The request uses the entries on the spent outputs: each once, in the order of the contract state. */
  ghost predicate UsesInOrder(owned: OwnedMap, outpoints: set<Outpoint>, using: seq<UsedState>) {
    exists spots :: Enumerates(owned, outpoints, spots) && UsesSpots(owned, spots, using)
  }

  lemma BlankUses(h: Hashes, contractId: ContractId, c: WalletContract, outpoints: set<Outpoint>,
                  change: Option<Vout>, req: OpRequest<PrefabSeal>)
    requires IsBlank(h, contractId, c, outpoints, change, req)
    ensures UsesInOrder(c.owned, outpoints, req.using)
  {
    AffectedUsed(c.owned, outpoints);
  }

  lemma AffectedUsed(owned: OwnedMap, outpoints: set<Outpoint>)
    ensures UsesInOrder(owned, outpoints, UsingOf(Affected(owned, outpoints)))
  {
    AffectedInOrder(owned, outpoints);
    var spots :| Enumerates(owned, outpoints, spots) && Lists(owned, spots, Affected(owned, outpoints));
    assert UsesSpots(owned, spots, UsingOf(Affected(owned, outpoints)));
  }

  /** Two entries of one cell, both on spent outputs. */
  predicate SameCell(owned: OwnedMap, outpoints: set<Outpoint>, s: Spot, t: Spot) {
    OnSpent(owned, outpoints, s) && OnSpent(owned, outpoints, t) && EntryAt(owned, s).addr == EntryAt(owned, t).addr
  }

  /** No cell has two entries on the spent outputs. */
  ghost predicate OneEntryEach(owned: OwnedMap, outpoints: set<Outpoint>) {
    forall s, t :: SameCell(owned, outpoints, s, t) ==> s == t
  }

  /** A cell with two entries on the spent outputs is worth nothing. */
  ghost predicate FreeTwins(api: Api, owned: OwnedMap, outpoints: set<Outpoint>) {
    forall s, t :: SameCell(owned, outpoints, s, t) && s != t ==>
      Conservation.IsFree(api, Conservation.CellsOf(owned)(EntryAt(owned, t).addr))
  }

  lemma TwinsAreRepeats(api: Api, owned: OwnedMap, outpoints: set<Outpoint>, spots: seq<Spot>, using: seq<UsedState>)
    requires Enumerates(owned, outpoints, spots) && UsesSpots(owned, spots, using)
    ensures Conservation.FreeRepeats(api, Conservation.CellsOf(owned), Conservation.Addrs(using)) <==>
            FreeTwins(api, owned, outpoints)
    ensures DistinctAddrs(using) <==> OneEntryEach(owned, outpoints)
  {
    var addrs := Conservation.Addrs(using);
    assert forall k :: 0 <= k < |spots| ==> addrs[k] == EntryAt(owned, spots[k]).addr;
    forall j, k | 0 <= j < k < |spots| && addrs[j] == addrs[k]
      ensures spots[j] != spots[k] && SameCell(owned, outpoints, spots[j], spots[k])
    {
      assert spots[j] in spots && spots[k] in spots;
    }
    forall s, t | SameCell(owned, outpoints, s, t) && s != t
      ensures exists j, k :: 0 <= j < k < |spots| && addrs[j] == addrs[k] == EntryAt(owned, t).addr
    {
      TwinPositions(owned, outpoints, spots, s, t);
    }
  }

  lemma TwinPositions(owned: OwnedMap, outpoints: set<Outpoint>, spots: seq<Spot>, s: Spot, t: Spot)
    requires Enumerates(owned, outpoints, spots) && SameCell(owned, outpoints, s, t) && s != t
    ensures exists j, k :: 0 <= j < k < |spots| && {spots[j], spots[k]} == {s, t}
  {
    var j :| 0 <= j < |spots| && spots[j] == s;
    var k :| 0 <= k < |spots| && spots[k] == t;
    if j < k {
      assert {spots[j], spots[k]} == {s, t};
    } else {
      assert {spots[k], spots[j]} == {s, t};
    }
  }

  /** The operation conserves the value of the cells it spends exactly when no cell worth something has two
      entries on the spent outputs, and so whenever no cell has. */
  lemma BlankConservesIff(h: Hashes, contractId: ContractId, c: WalletContract, outpoints: set<Outpoint>,
                          change: Option<Vout>, req: OpRequest<PrefabSeal>, p: Prefab)
    requires IsBlank(h, contractId, c, outpoints, change, req) && Builds(h, req, p)
    ensures Conservation.Conserves(c.api, c.owned, p.operation.params) <==> FreeTwins(c.api, c.owned, outpoints)
    ensures DistinctAddrs(req.using) <==> OneEntryEach(c.owned, outpoints)
    ensures OneEntryEach(c.owned, outpoints) ==> Conservation.Conserves(c.api, c.owned, p.operation.params)
  {
    BlankUses(h, contractId, c, outpoints, change, req);
    var spots :| Enumerates(c.owned, outpoints, spots) && UsesSpots(c.owned, spots, req.using);
    TwinsAreRepeats(c.api, c.owned, outpoints, spots, req.using);
    Conservation.ConservesIff(h, c.api, c.owned, req, p.operation.params);
  }

  lemma ClosesAffected(hit: seq<Allocation>, p: Prefab)
    requires p.closes == ClosedBy(UsingOf(hit)) && p.operation.params.using == UsingMap(UsingOf(hit))
    ensures forall a :: a in hit ==> TakesUp(p, a)
    ensures forall o :: o in p.closes ==> exists i :: 0 <= i < |hit| && hit[i].outpoint == o
  {
  }

  /** Looking the allocations up again finds their names and data. */
  lemma InputsOfAffected(owned: OwnedMap, outpoints: set<Outpoint>)
    requires ConsistentCells(owned)
    ensures AllLocated(owned, UsingOf(Affected(owned, outpoints)))
    ensures InputsOf(owned, UsingOf(Affected(owned, outpoints))) == NamedOf(Affected(owned, outpoints))
  {
    var hit := Affected(owned, outpoints);
    forall k | 0 <= k < |hit| ensures Locate(owned, hit[k].addr) == Some(Named(hit[k].name, hit[k].data)) {
      assert hit[k] in hit;
      var n := hit[k].name;
      var i :| 0 <= i < |owned[n]| && AllocationOf(n, owned[n][i]) == hit[k];
      LocateEntry(owned, n, i);
    }
  }

  // ---------------------------------------------------------------- building the request

  method TallyAll(api: Api, ps: seq<Named>) returns (r: Result<StateCalcs.Calcs, CalcsError>)
    requires api.Monotone()
    ensures r.Ok? <==> Countable(api, ps) && FitsAll(api, ps)
    ensures r.Ok? ==> Fed(api, r.value, ps)
  {
    var calcs: StateCalcs.Calcs := map[];
    for i := 0 to |ps|
      invariant Fed(api, calcs, ps[..i])
    {
      assert ps[..i + 1] == ps[..i] + [ps[i]];
      FeedStep(api, calcs, ps[..i], ps[i]);
      match Feed(api, calcs, ps[i])
      case Err(e) =>
        PrefixCountable(api, ps, i + 1);
        if FitsAll(api, ps) {
          PrefixFits(api, ps, i + 1);
        }
        return Err(e);
      case Ok(c) => calcs := c;
    }
    assert ps[..|ps|] == ps;
    return Ok(calcs);
  }

  /** What the outputs must be worth under `n` once the names of `done` have been paid out. */
  function Due(calcs: StateCalcs.Calcs, done: seq<StateName>, n: StateName): Value {
    if n in done && n in calcs then calcs[n].held else multiset{}
  }

  /** The outputs add up to what the calculators of the names done so far hold. */
  ghost predicate PaidOut(api: Api, calcs: StateCalcs.Calcs, done: seq<StateName>, outs: seq<Named>) {
    Countable(api, outs) && forall n :: SumOf(api, outs, n) == Due(calcs, done, n)
  }

  lemma PaidOutAt(api: Api, calcs: StateCalcs.Calcs, done: seq<StateName>, outs: seq<Named>, n: StateName,
                  more: seq<Named>, m: StateName)
    requires SumOf(api, outs, m) == Due(calcs, done, m) && n !in done && n in calcs
    requires SumOf(api, more, n) == calcs[n].held && forall i :: 0 <= i < |more| ==> more[i].name == n
    ensures SumOf(api, outs + more, m) == Due(calcs, done + [n], m)
  {
    SumConcat(api, outs, more, m);
    assert m in done + [n] <==> m in done || m == n;
    if m != n {
      SumOfOthers(api, more, m);
    }
  }

  lemma PaidOutStep(api: Api, calcs: StateCalcs.Calcs, done: seq<StateName>, outs: seq<Named>, n: StateName,
                    diff: seq<Data>)
    requires PaidOut(api, calcs, done, outs) && n !in done && n in calcs && n in api.known
    requires SumOf(api, Label(n, diff), n) == calcs[n].held && AllMeasured(api, n, diff)
    ensures PaidOut(api, calcs, done + [n], outs + Label(n, diff))
  {
    forall m ensures SumOf(api, outs + Label(n, diff), m) == Due(calcs, done + [n], m) {
      PaidOutAt(api, calcs, done, outs, n, Label(n, diff), m);
    }
    CountableMore(api, outs, n, diff);
  }

  lemma PaidOutNext(api: Api, calcs: StateCalcs.Calcs, names: seq<StateName>, i: nat, outs: seq<Named>, diff: seq<Data>)
    requires i < |names| && NoDuplicates(names) && names[i] in calcs && names[i] in api.known
    requires PaidOut(api, calcs, names[..i], outs)
    requires SumOf(api, Label(names[i], diff), names[i]) == calcs[names[i]].held && AllMeasured(api, names[i], diff)
    ensures PaidOut(api, calcs, names[..i + 1], outs + Label(names[i], diff))
  {
    assert names[..i + 1] == names[..i] + [names[i]];
    PaidOutStep(api, calcs, names[..i], outs, names[i], diff);
  }

  lemma CountableMore(api: Api, outs: seq<Named>, n: StateName, diff: seq<Data>)
    requires Countable(api, outs) && n in api.known && AllMeasured(api, n, diff)
    ensures Countable(api, outs + Label(n, diff))
  {
  }

  lemma AssignMore(h: Hashes, contractId: ContractId, vout: Vout, owned: seq<Assigned<PrefabSeal>>, n: StateName,
                   diff: seq<Data>)
    requires AllToChange(h, contractId, Some(vout), owned)
    ensures var more := BlankAssignments(h, contractId, vout, n, diff, |owned|);
      && AllToChange(h, contractId, Some(vout), owned + more)
      && OutputsOf(owned + more) == OutputsOf(owned) + Label(n, diff)
  {
  }

  /** A total can be expressed as data, and there is a change output if it is not nothing. */
  predicate Payable(api: Api, n: StateName, held: Value, change: Option<Vout>) {
    api.split(n, held).Some? && (api.split(n, held).value == [] || change.Some?)
  }

  /** The data can all be valued and held, and the total under each name paid to the change output. */
  ghost predicate AllPayable(api: Api, ins: seq<Named>, change: Option<Vout>) {
    && Countable(api, ins) && FitsAll(api, ins)
    && forall n :: n in Names(ins) ==> Payable(api, n, SumOf(api, ins, n), change)
  }

  /** All that a contract holds on the spent outputs can go to the change output. */
  ghost predicate Blankable(c: WalletContract, outpoints: set<Outpoint>, change: Option<Vout>) {
    AllPayable(c.api, NamedOf(Affected(c.owned, outpoints)), change)
  }

  /** Assigns what one calculator holds to the change output. */
  method PayOut(h: Hashes, contractId: ContractId, api: Api, c: StateCalc, change: Option<Vout>,
                owned: seq<Assigned<PrefabSeal>>)
    returns (r: Result<seq<Assigned<PrefabSeal>>, BundleError>, ghost diff: seq<Data>)
    requires api.SplitsExactly() && AllToChange(h, contractId, change, owned)
    ensures r.Ok? ==> AllToChange(h, contractId, change, r.value)
    ensures r.Ok? ==> OutputsOf(r.value) == OutputsOf(owned) + Label(c.name, diff)
    ensures r.Ok? ==> SumOf(api, Label(c.name, diff), c.name) == c.held && AllMeasured(api, c.name, diff)
    ensures r.Ok? <==> Payable(api, c.name, c.held, change)
    ensures r.Err? ==> r.error.StateError? || (r.error == ChangeRequired && change.None?)
  {
    diff := [];
    var data := api.Diff(c);
    if data.Err? {
      return Err(StateError(Calculation(data.error))), diff;
    }
    DiffIsExact(api, c);
    diff := data.value;
    if data.value == [] {
      assert OutputsOf(owned) + Label(c.name, diff) == OutputsOf(owned);
      return Ok(owned), diff;
    }
    if change.None? {
      return Err(ChangeRequired), diff;
    }
    AssignMore(h, contractId, change.value, owned, c.name, diff);
    return Ok(owned + BlankAssignments(h, contractId, change.value, c.name, data.value, |owned|)), diff;
  }

  method BlankOutputs(h: Hashes, contractId: ContractId, api: Api, calcs: StateCalcs.Calcs, change: Option<Vout>)
    returns (r: Result<seq<Assigned<PrefabSeal>>, BundleError>)
    requires api.SplitsExactly() && calcs.Keys <= api.known
    requires forall n :: n in calcs ==> calcs[n].name == n
    ensures r.Ok? ==> AllToChange(h, contractId, change, r.value)
    ensures r.Ok? ==> PaidOut(api, calcs, Sorted(calcs.Keys), OutputsOf(r.value))
    ensures r.Ok? <==> forall n :: n in calcs ==> Payable(api, n, calcs[n].held, change)
    ensures r.Err? ==> r.error.StateError? || (r.error == ChangeRequired && change.None?)
  {
    var names := Sorted(calcs.Keys);
    var owned: seq<Assigned<PrefabSeal>> := [];
    for i := 0 to |names|
      invariant AllToChange(h, contractId, change, owned)
      invariant PaidOut(api, calcs, names[..i], OutputsOf(owned))
      invariant forall k :: 0 <= k < i ==> Payable(api, names[k], calcs[names[k]].held, change)
    {
      var n := names[i];
      assert n in names;
      var more;
      ghost var diff;
      more, diff := PayOut(h, contractId, api, calcs[n], change, owned);
      if more.Err? {
        return more;
      }
      PaidOutNext(api, calcs, names, i, OutputsOf(owned), diff);
      owned := more.value;
    }
    assert names[..|names|] == names;
    return Ok(owned);
  }

  /** The outputs balance the inputs that were tallied. */
  lemma PaidOutBalances(api: Api, calcs: StateCalcs.Calcs, ins: seq<Named>, outs: seq<Named>)
    requires Fed(api, calcs, ins) && PaidOut(api, calcs, Sorted(calcs.Keys), outs)
    ensures Countable(api, outs) && Balanced(api, ins, outs)
  {
    forall n ensures SumOf(api, ins, n) == SumOf(api, outs, n) {
      CounterHolds(api, calcs, ins, [], n);
      assert Counter(calcs, n).held == SumOf(api, ins, n);
    }
  }

  /** The blank request of a contract, if it has an allocation on a spent output. */
  method BlankRequest(h: Hashes, contractId: ContractId, c: WalletContract, outpoints: set<Outpoint>,
                      change: Option<Vout>)
    returns (r: Result<Option<OpRequest<PrefabSeal>>, BundleError>)
    requires c.api.Lawful() && ConsistentCells(c.owned)
    ensures r == Ok(None) <==> forall s :: !OnSpent(c.owned, outpoints, s)
    ensures r == Ok(None) <==> Affected(c.owned, outpoints) == []
    ensures r.Ok? && r.value.Some? ==> IsBlank(h, contractId, c, outpoints, change, r.value.value)
    ensures r.Ok? && r.value.Some? ==> UsesInOrder(c.owned, outpoints, r.value.value.using)
    ensures r.Ok? <==> Blankable(c, outpoints, change)
    ensures r.Err? ==> r.error.StateError? || (r.error == ChangeRequired && change.None?)
  {
    var hit := Affected(c.owned, outpoints);
    AffectedIsEmpty(c.owned, outpoints);
    AffectedUsed(c.owned, outpoints);
    if hit == [] {
      NothingToBlank(c, outpoints, change);
      return Ok(None);
    }
    var tallied := TallyAll(c.api, NamedOf(hit));
    if tallied.Err? {
      return Err(StateError(tallied.error));
    }
    HeldNames(c.api, tallied.value, NamedOf(hit));
    PayableIff(c.api, NamedOf(hit), change, tallied.value);
    var outputs := BlankOutputs(h, contractId, c.api, tallied.value, change);
    if outputs.Err? {
      return Err(outputs.error);
    }
    InputsOfAffected(c.owned, outpoints);
    PaidOutBalances(c.api, tallied.value, NamedOf(hit), OutputsOf(outputs.value));
    return Ok(Some(OpRequest(contractId, BLANK, [], UsingOf(hit), [], outputs.value)));
  }

  lemma AffectedIsEmpty(owned: OwnedMap, outpoints: set<Outpoint>)
    ensures Affected(owned, outpoints) == [] <==> forall s :: !OnSpent(owned, outpoints, s)
  {
    AffectedInOrder(owned, outpoints);
    var spots :| Enumerates(owned, outpoints, spots) && Lists(owned, spots, Affected(owned, outpoints));
    assert spots != [] ==> spots[0] in spots;
  }

  lemma NothingToBlank(c: WalletContract, outpoints: set<Outpoint>, change: Option<Vout>)
    requires Affected(c.owned, outpoints) == []
    ensures Blankable(c, outpoints, change)
  {
  }

  lemma PayableIff(api: Api, ins: seq<Named>, change: Option<Vout>, calcs: StateCalcs.Calcs)
    requires Fed(api, calcs, ins)
    ensures AllPayable(api, ins, change) <==> forall n :: n in calcs ==> Payable(api, n, calcs[n].held, change)
  {
    forall n | n in calcs ensures calcs[n].held == SumOf(api, ins, n) {
      assert HoldsAt(api, calcs[n], ins, [], n);
    }
  }

  lemma HeldNames(api: Api, calcs: StateCalcs.Calcs, ins: seq<Named>)
    requires Fed(api, calcs, ins)
    ensures calcs.Keys <= api.known && forall n :: n in calcs ==> calcs[n].name == n
  {
  }
}
