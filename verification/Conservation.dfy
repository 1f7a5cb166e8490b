/** What an operation conserves: its inputs are cells, each counted once, while a request may list a cell
    more than once (src/popls/bp.rs, `check_request` and `prefab`). */
module Conservation {
  import opened Wrappers
  import opened Seals
  import opened History
  import opened StateCalcs
  import opened Requests
  import opened Payments
  import opened Prefabs

  /** The name and data of each cell. */
  type Lookup = CellAddr -> Named

  // ---------------------------------------------------------------- cells and entries

  /** The total value, under `n`, of the cells at the addresses. */
  ghost function WorthOf(api: Api, at: Lookup, addrs: set<CellAddr>, n: StateName): Value {
    if addrs == {} then multiset{}
    else
      var a :| a in addrs;
      WorthOf(api, at, addrs - {a}, n) + Worth(api, at(a), n)
  }

  lemma {:induction false} WorthWithout(api: Api, at: Lookup, addrs: set<CellAddr>, n: StateName, a: CellAddr)
    requires a in addrs
    ensures WorthOf(api, at, addrs, n) == WorthOf(api, at, addrs - {a}, n) + Worth(api, at(a), n)
    decreases addrs
  {
    var b :| b in addrs && WorthOf(api, at, addrs, n) == WorthOf(api, at, addrs - {b}, n) + Worth(api, at(b), n);
    if a != b {
      WorthWithout(api, at, addrs - {b}, n, a);
      WorthWithout(api, at, addrs - {a}, n, b);
      assert addrs - {b} - {a} == addrs - {a} - {b};
    }
  }

  /** One entry for each address listed. */
  function Entries(at: Lookup, addrs: seq<CellAddr>): seq<Named> { Mapped(addrs, at) }

  lemma EntriesAppend(at: Lookup, addrs: seq<CellAddr>, a: CellAddr)
    ensures Entries(at, addrs + [a]) == Entries(at, addrs) + [at(a)]
  {
  }

  /** The addresses listed before, as often as they are listed again. */
  function Repeated(addrs: seq<CellAddr>): seq<CellAddr> {
    if addrs == [] then []
    else
      var k := |addrs| - 1;
      if addrs[k] in addrs[..k] then Repeated(addrs[..k]) + [addrs[k]] else Repeated(addrs[..k])
  }

  lemma RepeatedAppend(addrs: seq<CellAddr>, a: CellAddr)
    ensures Repeated(addrs + [a]) == if a in addrs then Repeated(addrs) + [a] else Repeated(addrs)
  {
    assert (addrs + [a])[..|addrs|] == addrs;
  }

  predicate ListedTwice(addrs: seq<CellAddr>, a: CellAddr) {
    exists j, k :: 0 <= j < k < |addrs| && addrs[j] == a && addrs[k] == a
  }

  lemma {:induction false} RepeatedTwice(addrs: seq<CellAddr>, a: CellAddr)
    ensures a in Repeated(addrs) <==> ListedTwice(addrs, a)
  {
    if addrs != [] {
      var n := |addrs| - 1;
      var init := addrs[..n];
      RepeatedTwice(init, a);
      if a == addrs[n] && a in init {
        var j :| 0 <= j < n && init[j] == a;
        assert addrs[j] == a && addrs[n] == a;
      }
      if j, k :| 0 <= j < k < n && init[j] == a && init[k] == a {
        assert addrs[j] == a && addrs[k] == a;
      }
      if j, k :| 0 <= j < k < |addrs| && addrs[j] == a && addrs[k] == a {
        assert init[j] == a && (k < n ==> init[k] == a);
      }
    }
  }

  lemma EntriesSum(api: Api, at: Lookup, addrs: seq<CellAddr>, a: CellAddr, n: StateName)
    ensures SumOf(api, Entries(at, addrs + [a]), n) == SumOf(api, Entries(at, addrs), n) + Worth(api, at(a), n)
  {
    EntriesAppend(at, addrs, a);
    SumAppend(api, Entries(at, addrs), at(a), n);
  }

  lemma WorthMore(api: Api, at: Lookup, addrs: seq<CellAddr>, a: CellAddr, n: StateName)
    requires a !in addrs
    ensures WorthOf(api, at, Elems(addrs + [a]), n) == WorthOf(api, at, Elems(addrs), n) + Worth(api, at(a), n)
  {
    WorthWithout(api, at, Elems(addrs + [a]), n, a);
    assert Elems(addrs + [a]) - {a} == Elems(addrs);
  }

  /** What the entries add up to is the worth of the cells, and of the repeated ones again. */
  lemma {:induction false} CellsAndRepeats(api: Api, at: Lookup, addrs: seq<CellAddr>, n: StateName)
    ensures SumOf(api, Entries(at, addrs), n)
         == WorthOf(api, at, Elems(addrs), n) + SumOf(api, Entries(at, Repeated(addrs)), n)
  {
    if addrs != [] {
      var init, a := addrs[..|addrs| - 1], addrs[|addrs| - 1];
      CellsAndRepeats(api, at, init, n);
      assert addrs == init + [a];
      EntriesSum(api, at, init, a, n);
      RepeatedAppend(init, a);
      if a in init {
        EntriesSum(api, at, Repeated(init), a, n);
        assert Elems(init + [a]) == Elems(init);
      } else {
        WorthMore(api, at, init, a, n);
      }
    }
  }

  // ---------------------------------------------------------------- when repeats do no harm

  predicate IsFree(api: Api, p: Named) { Worth(api, p, p.name) == multiset{} }

  ghost predicate Nothing(api: Api, ps: seq<Named>) { forall n :: SumOf(api, ps, n) == multiset{} }

  lemma {:induction false} FreeSum(api: Api, ps: seq<Named>)
    ensures Nothing(api, ps) <==> forall i :: 0 <= i < |ps| ==> IsFree(api, ps[i])
  {
    if ps != [] {
      var init, p := ps[..|ps| - 1], ps[|ps| - 1];
      FreeSum(api, init);
      OneMoreFree(api, init, p);
      assert ps == init + [p];
      assert forall i :: 0 <= i < |init| ==> init[i] == ps[i];
    }
  }

  lemma OneMoreFree(api: Api, ps: seq<Named>, p: Named)
    ensures Nothing(api, ps + [p]) <==> Nothing(api, ps) && IsFree(api, p)
  {
    if Nothing(api, ps + [p]) {
      forall n ensures SumOf(api, ps, n) == multiset{} && Worth(api, p, n) == multiset{} {
        SumAppend(api, ps, p, n);
        EmptySum(SumOf(api, ps, n), Worth(api, p, n));
        assert SumOf(api, ps + [p], n) == multiset{};
      }
    }
    if Nothing(api, ps) && IsFree(api, p) {
      forall n ensures SumOf(api, ps + [p], n) == multiset{} {
        SumAppend(api, ps, p, n);
        assert SumOf(api, ps, n) == multiset{};
      }
    }
  }

  lemma EmptySum(a: Value, b: Value)
    ensures a + b == multiset{} <==> a == multiset{} && b == multiset{}
  {
    if a + b == multiset{} {
      forall x ensures a[x] == 0 && b[x] == 0 {
        assert (a + b)[x] == a[x] + b[x];
      }
    }
  }

  lemma NothingMore(a: Value, b: Value)
    ensures a + b == a <==> b == multiset{}
  {
    if a + b == a {
      forall x ensures b[x] == 0 {
        assert (a + b)[x] == a[x] + b[x];
      }
    }
  }

  /** Every cell listed twice is worth nothing. */
  predicate FreeRepeats(api: Api, at: Lookup, addrs: seq<CellAddr>) {
    forall j, k :: 0 <= j < k < |addrs| && addrs[j] == addrs[k] ==> IsFree(api, at(addrs[k]))
  }

  /** The entries are worth, under every name, what the cells are. */
  ghost predicate WorthTheCells(api: Api, at: Lookup, addrs: seq<CellAddr>) {
    forall n :: SumOf(api, Entries(at, addrs), n) == WorthOf(api, at, Elems(addrs), n)
  }

  lemma WorthTheCellsAt(api: Api, at: Lookup, addrs: seq<CellAddr>, n: StateName)
    ensures SumOf(api, Entries(at, addrs), n) == WorthOf(api, at, Elems(addrs), n)
       <==> SumOf(api, Entries(at, Repeated(addrs)), n) == multiset{}
  {
    CellsAndRepeats(api, at, addrs, n);
    NothingMore(WorthOf(api, at, Elems(addrs), n), SumOf(api, Entries(at, Repeated(addrs)), n));
  }

  lemma WorthTheCellsIf(api: Api, at: Lookup, addrs: seq<CellAddr>)
    ensures WorthTheCells(api, at, addrs) <==> Nothing(api, Entries(at, Repeated(addrs)))
  {
    if WorthTheCells(api, at, addrs) {
      forall n ensures SumOf(api, Entries(at, Repeated(addrs)), n) == multiset{} {
        WorthTheCellsAt(api, at, addrs, n);
      }
    }
    if Nothing(api, Entries(at, Repeated(addrs))) {
      forall n ensures SumOf(api, Entries(at, addrs), n) == WorthOf(api, at, Elems(addrs), n) {
        WorthTheCellsAt(api, at, addrs, n);
        assert SumOf(api, Entries(at, Repeated(addrs)), n) == multiset{};
      }
    }
  }

  /** That is so exactly when no cell worth something is listed twice. */
  lemma WorthTheCellsIff(api: Api, at: Lookup, addrs: seq<CellAddr>)
    ensures WorthTheCells(api, at, addrs) <==> FreeRepeats(api, at, addrs)
  {
    var again := Repeated(addrs);
    WorthTheCellsIf(api, at, addrs);
    FreeSum(api, Entries(at, again));
    if FreeRepeats(api, at, addrs) {
      forall i | 0 <= i < |again| ensures IsFree(api, Entries(at, again)[i]) {
        RepeatedTwice(addrs, again[i]);
      }
    }
    if forall i :: 0 <= i < |again| ==> IsFree(api, Entries(at, again)[i]) {
      forall j, k | 0 <= j < k < |addrs| && addrs[j] == addrs[k] ensures IsFree(api, at(addrs[k])) {
        RepeatedIsFree(api, at, addrs, addrs[k]);
      }
    }
  }

  lemma RepeatedIsFree(api: Api, at: Lookup, addrs: seq<CellAddr>, a: CellAddr)
    requires ListedTwice(addrs, a)
    requires forall i :: 0 <= i < |Entries(at, Repeated(addrs))| ==> IsFree(api, Entries(at, Repeated(addrs))[i])
    ensures IsFree(api, at(a))
  {
    RepeatedTwice(addrs, a);
    var i :| 0 <= i < |Repeated(addrs)| && Repeated(addrs)[i] == a;
    assert Entries(at, Repeated(addrs))[i] == at(a);
  }

  // ---------------------------------------------------------------- the operation

  /** The cells of a contract state; an address that is not in it has none. */
  function CellsOf(owned: OwnedMap): Lookup {
    addr => match Locate(owned, addr)
            case Some(named) => named
            case None => Named(StateName(0), 0)
  }

  function Addrs(using: seq<UsedState>): seq<CellAddr> { Mapped(using, (u: UsedState) => u.addr) }

  lemma InputsAreEntries(owned: OwnedMap, using: seq<UsedState>)
    requires AllLocated(owned, using)
    ensures InputsOf(owned, using) == Entries(CellsOf(owned), Addrs(using))
  {
  }

  lemma InputsAreCells(using: seq<UsedState>)
    ensures UsingMap(using).Keys == Elems(Addrs(using))
  {
    forall a ensures a in UsingMap(using) <==> a in Addrs(using) {
      if a in UsingMap(using) {
        var i :| 0 <= i < |using| && using[i].addr == a;
        assert Addrs(using)[i] == a;
      }
    }
  }

  function DataOf(cells: seq<DataCell>): seq<Named> {
    Mapped(cells, (cell: DataCell) => Named(cell.name, cell.data))
  }

  /** What an operation pays out under a name, and what the cells it spends are worth. */
  ghost function PaidOutBy(api: Api, params: CallParams, n: StateName): Value {
    SumOf(api, DataOf(params.owned), n)
  }

  ghost function SpentBy(api: Api, owned: OwnedMap, params: CallParams, n: StateName): Value {
    WorthOf(api, CellsOf(owned), params.using.Keys, n)
  }

  /** The outputs of an operation are worth, under every name, what the cells it spends are. */
  ghost predicate Conserves(api: Api, owned: OwnedMap, params: CallParams) {
    forall n :: PaidOutBy(api, params, n) == SpentBy(api, owned, params, n)
  }

  /** The check sums the entries of a request; the operation spends its cells. */
  lemma PaidAndSpent(h: Hashes, api: Api, owned: OwnedMap, request: OpRequest<PrefabSeal>, params: CallParams,
                     n: StateName)
    requires Acceptable(api, owned, request.using, OutputsOf(request.owned)) && ParamsMatch(h, request, params)
    ensures PaidOutBy(api, params, n) == SumOf(api, Entries(CellsOf(owned), Addrs(request.using)), n)
    ensures SpentBy(api, owned, params, n) == WorthOf(api, CellsOf(owned), Elems(Addrs(request.using)), n)
  {
    InputsAreCells(request.using);
    InputsAreEntries(owned, request.using);
    assert DataOf(params.owned) == OutputsOf(request.owned);
  }

  /** The operation built for an accepted request pays out what the cells it spends are worth, and what the
      repeatedly listed ones are worth once more for each repetition. */
  lemma PaysOutRepeats(h: Hashes, api: Api, owned: OwnedMap, request: OpRequest<PrefabSeal>, params: CallParams,
                       n: StateName)
    requires Acceptable(api, owned, request.using, OutputsOf(request.owned)) && ParamsMatch(h, request, params)
    ensures PaidOutBy(api, params, n)
         == SpentBy(api, owned, params, n) + SumOf(api, Entries(CellsOf(owned), Repeated(Addrs(request.using))), n)
  {
    PaidAndSpent(h, api, owned, request, params, n);
    CellsAndRepeats(api, CellsOf(owned), Addrs(request.using), n);
  }

  /** So it conserves value exactly when no cell worth something is listed twice. */
  lemma ConservesIff(h: Hashes, api: Api, owned: OwnedMap, request: OpRequest<PrefabSeal>, params: CallParams)
    requires Acceptable(api, owned, request.using, OutputsOf(request.owned)) && ParamsMatch(h, request, params)
    ensures Conserves(api, owned, params) <==> FreeRepeats(api, CellsOf(owned), Addrs(request.using))
  {
    var at, addrs := CellsOf(owned), Addrs(request.using);
    WorthTheCellsIff(api, at, addrs);
    if Conserves(api, owned, params) {
      forall n ensures SumOf(api, Entries(at, addrs), n) == WorthOf(api, at, Elems(addrs), n) {
        PaidAndSpent(h, api, owned, request, params, n);
        assert PaidOutBy(api, params, n) == SpentBy(api, owned, params, n);
      }
    }
    if WorthTheCells(api, at, addrs) {
      forall n ensures PaidOutBy(api, params, n) == SpentBy(api, owned, params, n) {
        PaidAndSpent(h, api, owned, request, params, n);
      }
    }
  }

  /** A caller can rule the rest out: a request that lists no address twice conserves value. */
  lemma DistinctConserves(h: Hashes, api: Api, owned: OwnedMap, request: OpRequest<PrefabSeal>, params: CallParams)
    requires Acceptable(api, owned, request.using, OutputsOf(request.owned)) && ParamsMatch(h, request, params)
    requires DistinctAddrs(request.using)
    ensures Conserves(api, owned, params)
  {
    ConservesIff(h, api, owned, request, params);
    assert forall i :: 0 <= i < |request.using| ==> Addrs(request.using)[i] == request.using[i].addr;
  }
}
