/** Operation requests, and the check that a request redistributes all the state it uses
    (src/popls/bp.rs, `OpRequest`, `check_request`). */
module Requests {
  import opened Wrappers
  import opened Seals
  import opened History
  import opened StateCalcs

  datatype ContractId = ContractId(hash: int)
  datatype MethodName = MethodName(name: string)

  /** A seal given in full or known by its token only. */
  datatype EitherSeal<+S> = Alt(seal: S) | Token(auth: AuthToken)

  datatype Assigned<+S> = Assigned(name: StateName, seal: EitherSeal<S>, data: Data)

  datatype UsedState = UsedState(addr: CellAddr, outpoint: Outpoint, satisfaction: Option<int>)

  datatype OpRequest<+S> = OpRequest(
    contractId: ContractId,
    methodName: MethodName,
    reading: seq<CellAddr>,
    using: seq<UsedState>,
    global: seq<Named>,
    owned: seq<Assigned<S>>)

  type OwnedMap = map<StateName, seq<OwnedState>>

  /** `UnknownCell` stands for the panic on an input that is not in the contract state. */
  datatype UnmatchedState = Calcs(error: CalcsError) | NotEnoughChange(name: StateName) | UnknownCell

  // ---------------------------------------------------------------- looking cells up

  /** The data of the first entry with the given address. */
  function FindCell(cells: seq<OwnedState>, addr: CellAddr): (r: Option<Data>)
    ensures r.None? <==> forall i :: 0 <= i < |cells| ==> cells[i].addr != addr
    ensures r.Some? ==> exists i :: 0 <= i < |cells| && cells[i].addr == addr && cells[i].data == r.value
  {
    if cells == [] then None
    else if cells[0].addr == addr then Some(cells[0].data)
    else FindCell(cells[1..], addr)
  }

  /** The first state name, in order, with an entry at the address. */
  function LocateIn(owned: OwnedMap, names: seq<StateName>, addr: CellAddr): (r: Option<Named>)
    requires forall n :: n in names ==> n in owned
    ensures r.None? <==> forall n :: n in names ==> FindCell(owned[n], addr).None?
    ensures r.Some? ==> r.value.name in names && FindCell(owned[r.value.name], addr) == Some(r.value.data)
  {
    if names == [] then None
    else match FindCell(owned[names[0]], addr)
      case Some(data) => Some(Named(names[0], data))
      case None =>
        assert forall n :: n in names ==> n == names[0] || n in names[1..];
        LocateIn(owned, names[1..], addr)
  }

  function Locate(owned: OwnedMap, addr: CellAddr): Option<Named> {
    LocateIn(owned, Sorted(owned.Keys), addr)
  }

  /** Entries at one address have one name and one data, as a cell has in the ledger. */
  ghost predicate ConsistentCells(owned: OwnedMap) {
    forall n, m, i, j ::
      && n in owned && m in owned && 0 <= i < |owned[n]| && 0 <= j < |owned[m]|
      && owned[n][i].addr == owned[m][j].addr
      ==> n == m && owned[n][i].data == owned[m][j].data
  }

  lemma LocateEntry(owned: OwnedMap, n: StateName, i: int)
    requires ConsistentCells(owned) && n in owned && 0 <= i < |owned[n]|
    ensures Locate(owned, owned[n][i].addr) == Some(Named(n, owned[n][i].data))
  {
  }

  /** Entry `i` is the first at the address. */
  predicate IsFirst(cells: seq<OwnedState>, addr: CellAddr, i: nat) {
    i < |cells| && cells[i].addr == addr && forall j :: 0 <= j < i ==> cells[j].addr != addr
  }

  /** The data is that of the first entry at the address. */
  ghost predicate IsFirstData(cells: seq<OwnedState>, addr: CellAddr, data: Data) {
    exists i: nat :: IsFirst(cells, addr, i) && cells[i].data == data
  }

  lemma {:induction false} FindsFirst(cells: seq<OwnedState>, addr: CellAddr)
    ensures FindCell(cells, addr).Some? ==> IsFirstData(cells, addr, FindCell(cells, addr).value)
  {
    if cells != [] {
      if cells[0].addr == addr {
        assert IsFirst(cells, addr, 0);
      } else if FindCell(cells, addr).Some? {
        FindsFirst(cells[1..], addr);
        var i: nat :| IsFirst(cells[1..], addr, i) && cells[1..][i].data == FindCell(cells, addr).value;
        assert forall j :: 0 <= j < i ==> cells[j + 1] == cells[1..][j];
        assert forall j :: 1 <= j < i + 1 ==> cells[j] == cells[1..][j - 1];
        assert IsFirst(cells, addr, i + 1);
      }
    }
  }

  predicate HasAddr(cells: seq<OwnedState>, addr: CellAddr) { exists i :: 0 <= i < |cells| && cells[i].addr == addr }

  lemma {:induction false} LocatesIn(owned: OwnedMap, names: seq<StateName>, addr: CellAddr)
    requires Ascending(names) && forall n :: n in names ==> n in owned
    ensures LocateIn(owned, names, addr).Some? ==>
      forall m :: m in names && m.key < LocateIn(owned, names, addr).value.name.key ==> !HasAddr(owned[m], addr)
  {
    if names != [] && FindCell(owned[names[0]], addr).None? {
      LocatesIn(owned, names[1..], addr);
    }
  }

  /** An address is looked up under the first name that has it, and there the first entry counts. */
  lemma LocatesFirst(owned: OwnedMap, addr: CellAddr)
    ensures Locate(owned, addr).None? <==> forall n :: n in owned ==> !HasAddr(owned[n], addr)
    ensures Locate(owned, addr).Some? ==>
      var Named(n, data) := Locate(owned, addr).value;
      && n in owned && IsFirstData(owned[n], addr, data)
      && forall m :: m in owned && m.key < n.key ==> !HasAddr(owned[m], addr)
  {
    LocatesIn(owned, Sorted(owned.Keys), addr);
    if Locate(owned, addr).Some? {
      FindsFirst(owned[Locate(owned, addr).value.name], addr);
    }
  }

  // ---------------------------------------------------------------- entries on some outputs

  /** The positions, in order, of the entries on the given outputs. */
  ghost predicate Picks(cells: seq<OwnedState>, outpoints: set<Outpoint>, ks: seq<nat>) {
    && (forall i, j :: 0 <= i < j < |ks| ==> ks[i] < ks[j])
    && (forall k: nat :: k in ks <==> k < |cells| && cells[k].seal.primary in outpoints)
  }

  ghost function PicksOf(cells: seq<OwnedState>, outpoints: set<Outpoint>): (ks: seq<nat>)
    ensures Picks(cells, outpoints, ks)
  {
    if cells == [] then []
    else
      var n := |cells| - 1;
      var ks := PicksOf(cells[..n], outpoints);
      assert forall k :: k in ks ==> k < n;
      assert forall i :: 0 <= i < |ks| ==> ks[i] in ks;
      if cells[n].seal.primary in outpoints then ks + [n] else ks
  }

  // ---------------------------------------------------------------- what a request moves

  function OutputsOf<S>(owned: seq<Assigned<S>>): (r: seq<Named>)
    ensures |r| == |owned|
    ensures forall i :: 0 <= i < |owned| ==> r[i] == Named(owned[i].name, owned[i].data)
  {
    seq(|owned|, i requires 0 <= i < |owned| => Named(owned[i].name, owned[i].data))
  }

  predicate AllLocated(owned: OwnedMap, using: seq<UsedState>) {
    forall i :: 0 <= i < |using| ==> Locate(owned, using[i].addr).Some?
  }

  function InputsOf(owned: OwnedMap, using: seq<UsedState>): (r: seq<Named>)
    requires AllLocated(owned, using)
    ensures |r| == |using|
    ensures forall i :: 0 <= i < |using| ==> Locate(owned, using[i].addr) == Some(r[i])
  {
    seq(|using|, i requires 0 <= i < |using| => Locate(owned, using[i].addr).value)
  }

  lemma InputsAre(owned: OwnedMap, using: seq<UsedState>, ins: seq<Named>)
    requires |ins| == |using| && forall i :: 0 <= i < |using| ==> Locate(owned, using[i].addr) == Some(ins[i])
    ensures AllLocated(owned, using) && InputsOf(owned, using) == ins
  {
    assert AllLocated(owned, using);
    forall i | 0 <= i < |using| ensures InputsOf(owned, using)[i] == ins[i] {
      assert Locate(owned, using[i].addr) == Some(InputsOf(owned, using)[i]);
    }
  }

  ghost predicate Balanced(api: Api, ins: seq<Named>, outs: seq<Named>) {
    forall n :: SumOf(api, ins, n) == SumOf(api, outs, n)
  }

  ghost predicate Covered(api: Api, ins: seq<Named>, outs: seq<Named>) {
    forall n :: SumOf(api, outs, n) <= SumOf(api, ins, n)
  }

  /** The outputs are covered, yet differ from the inputs under `n`, and under no name before it. */
  ghost predicate FirstUnspent(api: Api, owned: OwnedMap, using: seq<UsedState>, outs: seq<Named>, n: StateName) {
    && AllLocated(owned, using) && Covered(api, InputsOf(owned, using), outs)
    && SumOf(api, InputsOf(owned, using), n) != SumOf(api, outs, n)
    && forall m: StateName :: m.key < n.key ==> SumOf(api, InputsOf(owned, using), m) == SumOf(api, outs, m)
  }

  /** Every input exists and can be valued and held, every output can be valued, and for every state
      name the inputs are worth as much as the outputs. */
  ghost predicate Acceptable(api: Api, owned: OwnedMap, using: seq<UsedState>, outs: seq<Named>) {
    Usable(api, owned, using) && Countable(api, outs) && Balanced(api, InputsOf(owned, using), outs)
  }

  // ---------------------------------------------------------------- why it is refused

  /** The first inputs can be used, but not together with input `k`: it does not exist, or cannot be valued, or
      cannot be held. */
  ghost predicate InputFails(api: Api, owned: OwnedMap, using: seq<UsedState>, k: nat, e: UnmatchedState) {
    && k < |using| && Usable(api, owned, using[..k]) && !Usable(api, owned, using[..k + 1])
    && match Locate(owned, using[k].addr)
       case None => e == UnknownCell
       case Some(p) => e == UnmatchedState.Calcs(Fault(api, p, CalcError.Overflow))
  }

  /** The outputs can be valued and are covered by the inputs. */
  ghost predicate Drawable(api: Api, ins: seq<Named>, outs: seq<Named>) {
    Countable(api, outs) && Covered(api, ins, outs)
  }

  /** The inputs cover the first outputs, but not output `k`, or it cannot be valued. */
  ghost predicate DrawFails(api: Api, ins: seq<Named>, outs: seq<Named>, k: nat, e: UnmatchedState) {
    && k < |outs| && Drawable(api, ins, outs[..k]) && !Drawable(api, ins, outs[..k + 1])
    && e == UnmatchedState.Calcs(Fault(api, outs[k], Insufficient))
  }

  ghost predicate OutputFails(api: Api, owned: OwnedMap, using: seq<UsedState>, outs: seq<Named>, k: nat,
                              e: UnmatchedState) {
    Usable(api, owned, using) && DrawFails(api, InputsOf(owned, using), outs, k, e)
  }

  /** The outputs are covered, but under `n` something remains: it is missing from the outputs, or cannot even be
      expressed as data. */
  ghost predicate RemainderFails(api: Api, owned: OwnedMap, using: seq<UsedState>, outs: seq<Named>, n: StateName,
                                 e: UnmatchedState) {
    && Usable(api, owned, using) && Countable(api, outs) && FirstUnspent(api, owned, using, outs, n)
    && e == Unspent(api, n, SumOf(api, InputsOf(owned, using), n) - SumOf(api, outs, n))
  }

  function Unspent(api: Api, n: StateName, rest: Value): UnmatchedState {
    if api.split(n, rest).Some? then NotEnoughChange(n) else UnmatchedState.Calcs(Calculation(Indivisible))
  }

  /** What goes wrong first: an input, else an output, else a remainder. */
  ghost predicate FirstFault(api: Api, owned: OwnedMap, using: seq<UsedState>, outs: seq<Named>, e: UnmatchedState) {
    || (exists k :: InputFails(api, owned, using, k, e))
    || (exists k :: OutputFails(api, owned, using, outs, k, e))
    || (exists n :: RemainderFails(api, owned, using, outs, n, e))
  }

  /** The two answers that callers tell apart: change is missing under the first name with a remainder, if that can
      be expressed; a cell is unknown if those before it can be used. */
  lemma FaultMeans(api: Api, owned: OwnedMap, using: seq<UsedState>, outs: seq<Named>, n: StateName)
    ensures FirstFault(api, owned, using, outs, NotEnoughChange(n)) <==>
            && Usable(api, owned, using) && Countable(api, outs) && FirstUnspent(api, owned, using, outs, n)
            && api.split(n, SumOf(api, InputsOf(owned, using), n) - SumOf(api, outs, n)).Some?
    ensures FirstFault(api, owned, using, outs, UnknownCell) <==>
            exists k: nat :: k < |using| && Usable(api, owned, using[..k]) && Locate(owned, using[k].addr).None?
  {
    forall k: nat | k < |using| && Usable(api, owned, using[..k]) && Locate(owned, using[k].addr).None?
      ensures InputFails(api, owned, using, k, UnknownCell)
    {
      NextInput(owned, using, k);
    }
    assert RemainderFails(api, owned, using, outs, n, NotEnoughChange(n)) <==>
      FirstFault(api, owned, using, outs, NotEnoughChange(n));
  }

  /** Only one thing goes wrong first, and nothing does with an acceptable request. */
  lemma FaultIsUnique(api: Api, owned: OwnedMap, using: seq<UsedState>, outs: seq<Named>, e: UnmatchedState,
                      f: UnmatchedState)
    requires api.Monotone() && FirstFault(api, owned, using, outs, e) && FirstFault(api, owned, using, outs, f)
    ensures e == f && !Acceptable(api, owned, using, outs)
  {
    if k :| InputFails(api, owned, using, k, e) {
      InputFailsFirst(api, owned, using, outs, k, e, f);
    } else if k :| InputFails(api, owned, using, k, f) {
      InputFailsFirst(api, owned, using, outs, k, f, e);
    } else if k :| OutputFails(api, owned, using, outs, k, e) {
      OutputFailsNext(api, owned, using, outs, k, e, f);
    } else if k :| OutputFails(api, owned, using, outs, k, f) {
      OutputFailsNext(api, owned, using, outs, k, f, e);
    } else {
      var n :| RemainderFails(api, owned, using, outs, n, e);
      var m :| RemainderFails(api, owned, using, outs, m, f);
      FirstIsUnique(api, owned, using, outs, n, m);
    }
  }

  lemma InputFailsFirst(api: Api, owned: OwnedMap, using: seq<UsedState>, outs: seq<Named>, k: nat, e: UnmatchedState,
                        f: UnmatchedState)
    requires api.Monotone() && InputFails(api, owned, using, k, e) && FirstFault(api, owned, using, outs, f)
    ensures e == f && !Usable(api, owned, using)
  {
    InputIsNeeded(api, owned, using, k, e);
    var j :| InputFails(api, owned, using, j, f);
    OneInputFails(api, owned, using, j, k, f, e);
  }

  lemma InputIsNeeded(api: Api, owned: OwnedMap, using: seq<UsedState>, k: nat, e: UnmatchedState)
    requires api.Monotone() && InputFails(api, owned, using, k, e)
    ensures !Usable(api, owned, using)
  {
    if Usable(api, owned, using) {
      UsablePrefix(api, owned, using, k + 1);
    }
  }

  lemma OneInputFails(api: Api, owned: OwnedMap, using: seq<UsedState>, j: nat, k: nat, e: UnmatchedState,
                      f: UnmatchedState)
    requires api.Monotone() && InputFails(api, owned, using, j, e) && InputFails(api, owned, using, k, f)
    ensures e == f
  {
    if j < k {
      UsablePart(api, owned, using, j + 1, k);
    }
    if k < j {
      UsablePart(api, owned, using, k + 1, j);
    }
  }

  lemma UsablePart(api: Api, owned: OwnedMap, using: seq<UsedState>, j: nat, k: nat)
    requires api.Monotone() && j <= k <= |using| && Usable(api, owned, using[..k])
    ensures Usable(api, owned, using[..j])
  {
    UsablePrefix(api, owned, using[..k], j);
    assert using[..k][..j] == using[..j];
  }

  lemma OutputFailsNext(api: Api, owned: OwnedMap, using: seq<UsedState>, outs: seq<Named>, k: nat, e: UnmatchedState,
                        f: UnmatchedState)
    requires OutputFails(api, owned, using, outs, k, e) && FirstFault(api, owned, using, outs, f)
    requires !exists j :: InputFails(api, owned, using, j, f)
    ensures e == f && !Drawable(api, InputsOf(owned, using), outs)
  {
    var ins := InputsOf(owned, using);
    OutputIsNeeded(api, ins, outs, k, e);
    var j :| OutputFails(api, owned, using, outs, j, f);
    OneDrawFails(api, ins, outs, j, k, f, e);
  }

  lemma OutputIsNeeded(api: Api, ins: seq<Named>, outs: seq<Named>, k: nat, e: UnmatchedState)
    requires DrawFails(api, ins, outs, k, e)
    ensures !Drawable(api, ins, outs)
  {
    if Drawable(api, ins, outs) {
      assert outs[..|outs|] == outs;
      DrawablePart(api, ins, outs, k + 1, |outs|);
    }
  }

  lemma OneDrawFails(api: Api, ins: seq<Named>, outs: seq<Named>, j: nat, k: nat, e: UnmatchedState, f: UnmatchedState)
    requires DrawFails(api, ins, outs, j, e) && DrawFails(api, ins, outs, k, f)
    ensures e == f
  {
    if j < k {
      DrawablePart(api, ins, outs, j + 1, k);
    }
    if k < j {
      DrawablePart(api, ins, outs, k + 1, j);
    }
  }

  lemma DrawablePart(api: Api, ins: seq<Named>, outs: seq<Named>, j: nat, k: nat)
    requires j <= k <= |outs| && Drawable(api, ins, outs[..k])
    ensures Drawable(api, ins, outs[..j])
  {
    assert outs[..k][..j] == outs[..j];
    PrefixCountable(api, outs[..k], j);
    forall n ensures SumOf(api, outs[..j], n) <= SumOf(api, ins, n) {
      SumPrefix(api, outs[..k], j, n);
      assert SumOf(api, outs[..k], n) <= SumOf(api, ins, n);
    }
  }

  lemma FirstIsUnique(api: Api, owned: OwnedMap, using: seq<UsedState>, outs: seq<Named>, n: StateName, m: StateName)
    requires FirstUnspent(api, owned, using, outs, n) && FirstUnspent(api, owned, using, outs, m)
    ensures n == m
  {
    DistinctKeys(n, m);
  }

  // ---------------------------------------------------------------- the check

  /** Every input exists, can be valued, and all of them can be held. */
  predicate Usable(api: Api, owned: OwnedMap, using: seq<UsedState>) {
    && AllLocated(owned, using)
    && Countable(api, InputsOf(owned, using)) && FitsAll(api, InputsOf(owned, using))
  }

  /** Some input does not exist, or the inputs up to it cannot be valued or held. */
  ghost predicate FailsEarly(api: Api, owned: OwnedMap, using: seq<UsedState>) {
    exists k :: 0 <= k <= |using| && !Usable(api, owned, using[..k])
  }

  method FeedInputs(api: Api, owned: OwnedMap, using: seq<UsedState>)
    returns (r: Result<StateCalcs.Calcs, UnmatchedState>)
    ensures r.Ok? ==> Usable(api, owned, using) && Fed(api, r.value, InputsOf(owned, using))
    ensures r.Err? ==> FailsEarly(api, owned, using) && !r.error.NotEnoughChange?
    ensures r == Err(UnknownCell) ==> !AllLocated(owned, using)
    ensures r.Err? ==> exists k :: InputFails(api, owned, using, k, r.error)
  {
    var calcs: StateCalcs.Calcs := map[];
    for i := 0 to |using|
      invariant AllLocated(owned, using[..i])
      invariant Fed(api, calcs, InputsOf(owned, using[..i]))
    {
      ghost var ins := InputsOf(owned, using[..i]);
      NextInput(owned, using, i);
      match Locate(owned, using[i].addr)
      case None =>
        assert InputFails(api, owned, using, i, UnknownCell);
        return Err(UnknownCell);
      case Some(named) =>
        FeedStep(api, calcs, ins, named);
        match Feed(api, calcs, named)
        case Err(e) =>
          FaultOf(api, calcs, ins, [], named);
          assert InputFails(api, owned, using, i, UnmatchedState.Calcs(e));
          return Err(UnmatchedState.Calcs(e));
        case Ok(c) =>
          calcs := c;
    }
    assert using[..|using|] == using;
    return Ok(calcs);
  }

  lemma NextInput(owned: OwnedMap, using: seq<UsedState>, i: nat)
    requires i < |using| && AllLocated(owned, using[..i])
    ensures AllLocated(owned, using[..i + 1]) <==> Locate(owned, using[i].addr).Some?
    ensures AllLocated(owned, using[..i + 1]) ==>
      InputsOf(owned, using[..i + 1]) == InputsOf(owned, using[..i]) + [Locate(owned, using[i].addr).value]
  {
    assert using[..i + 1] == using[..i] + [using[i]];
    OneMoreInput(owned, using[..i], using[i]);
  }

  lemma OneMoreInput(owned: OwnedMap, done: seq<UsedState>, u: UsedState)
    requires AllLocated(owned, done)
    ensures AllLocated(owned, done + [u]) <==> Locate(owned, u.addr).Some?
    ensures AllLocated(owned, done + [u]) ==>
      InputsOf(owned, done + [u]) == InputsOf(owned, done) + [Locate(owned, u.addr).value]
  {
    var using := done + [u];
    assert using[|done|] == u;
    if Locate(owned, u.addr).Some? {
      var ins := InputsOf(owned, done);
      var more := ins + [Locate(owned, u.addr).value];
      forall i | 0 <= i < |using| ensures Locate(owned, using[i].addr) == Some(more[i]) {
        if i < |done| {
          assert using[i] == done[i] && more[i] == ins[i];
        }
      }
      InputsAre(owned, using, more);
    }
  }

  lemma UsablePrefix(api: Api, owned: OwnedMap, using: seq<UsedState>, k: nat)
    requires api.Monotone() && Usable(api, owned, using) && k <= |using|
    ensures Usable(api, owned, using[..k])
  {
    var ins := InputsOf(owned, using);
    assert AllLocated(owned, using[..k]);
    assert InputsOf(owned, using[..k]) == ins[..k];
    PrefixFits(api, ins, k);
    PrefixCountable(api, ins, k);
  }

  /** When the first inputs cannot be used, neither can all of them. */
  lemma EarlyFailureIsFinal(api: Api, owned: OwnedMap, using: seq<UsedState>)
    requires api.Monotone() && Usable(api, owned, using)
    ensures !FailsEarly(api, owned, using)
  {
    forall k | 0 <= k <= |using| ensures Usable(api, owned, using[..k]) {
      UsablePrefix(api, owned, using, k);
    }
  }

  lemma PrefixCountable(api: Api, ps: seq<Named>, k: nat)
    requires k <= |ps|
    ensures Countable(api, ps) ==> Countable(api, ps[..k])
  {
  }

  method DrawOutputs(api: Api, fed: StateCalcs.Calcs, ghost ins: seq<Named>, outs: seq<Named>)
    returns (r: Result<StateCalcs.Calcs, UnmatchedState>)
    requires Holds(api, fed, ins, [])
    ensures r.Ok? <==> Countable(api, outs) && Covered(api, ins, outs)
    ensures r.Ok? ==> Holds(api, r.value, ins, outs)
    ensures r.Err? ==> exists k: nat :: DrawFails(api, ins, outs, k, r.error)
  {
    var calcs := fed;
    for i := 0 to |outs|
      invariant Countable(api, outs[..i]) && Holds(api, calcs, ins, outs[..i])
    {
      assert outs[..i + 1] == outs[..i] + [outs[i]];
      DrawStep(api, calcs, ins, outs[..i], outs[i]);
      match Draw(api, calcs, outs[i])
      case Err(e) =>
        DrawStops(api, calcs, ins, outs, i);
        OutputIsNeeded(api, ins, outs, i, UnmatchedState.Calcs(e));
        return Err(UnmatchedState.Calcs(e));
      case Ok(c) => calcs := c;
    }
    assert outs[..|outs|] == outs;
    forall n ensures SumOf(api, outs, n) <= SumOf(api, ins, n) {
      CounterHolds(api, calcs, ins, outs, n);
    }
    return Ok(calcs);
  }

  lemma DrawStops(api: Api, calcs: StateCalcs.Calcs, ins: seq<Named>, outs: seq<Named>, i: nat)
    requires i < |outs| && Countable(api, outs[..i]) && Holds(api, calcs, ins, outs[..i])
    requires Draw(api, calcs, outs[i]).Err?
    ensures DrawFails(api, ins, outs, i, UnmatchedState.Calcs(Draw(api, calcs, outs[i]).error))
  {
    assert outs[..i + 1] == outs[..i] + [outs[i]];
    DrawStep(api, calcs, ins, outs[..i], outs[i]);
    FaultOf(api, calcs, ins, outs[..i], outs[i]);
    forall n ensures SumOf(api, outs[..i], n) <= SumOf(api, ins, n) {
      CounterHolds(api, calcs, ins, outs[..i], n);
    }
  }

  method NothingLeft(api: Api, calcs: StateCalcs.Calcs) returns (r: Result<(), UnmatchedState>)
    requires EmptyDiffs(api) && forall n :: n in calcs ==> calcs[n].name == n
    ensures r.Ok? <==> NoneHeld(calcs, Sorted(calcs.Keys))
    ensures r.Err? ==> exists n :: FirstHeld(calcs, n) && r.error == Unspent(api, n, Counter(calcs, n).held)
  {
    var names := Sorted(calcs.Keys);
    for i := 0 to |names|
      invariant NoneHeld(calcs, names[..i])
    {
      var n := names[i];
      assert n in names;
      LeftUnder(api, calcs, names, i);
      match api.Diff(calcs[n])
      case Err(e) => return Err(UnmatchedState.Calcs(Calculation(e)));
      case Ok(diff) =>
        if diff != [] {
          return Err(NotEnoughChange(n));
        }
    }
    assert names[..|names|] == names;
    return Ok(());
  }

  /** A calculator with a remainder is the first one met; one without leaves the loop going. */
  lemma LeftUnder(api: Api, calcs: StateCalcs.Calcs, names: seq<StateName>, i: nat)
    requires EmptyDiffs(api) && names == Sorted(calcs.Keys) && i < |names|
    requires names[i] in calcs && NoneHeld(calcs, names[..i])
    ensures api.Diff(calcs[names[i]]) == Ok([]) ==> NoneHeld(calcs, names[..i + 1])
    ensures api.Diff(calcs[names[i]]) != Ok([]) ==> FirstHeld(calcs, names[i]) && !NoneHeld(calcs, names)
  {
    var n := names[i];
    assert api.Diff(calcs[n]) == Ok([]) <==> Counter(calcs, n).held == multiset{};
    OneMoreName(calcs, names, i);
    if Counter(calcs, n).held != multiset{} {
      FirstInOrder(calcs, names, i);
    }
  }

  lemma OneMoreName(calcs: StateCalcs.Calcs, names: seq<StateName>, i: nat)
    requires i < |names| && NoneHeld(calcs, names[..i])
    ensures Counter(calcs, names[i]).held == multiset{} ==> NoneHeld(calcs, names[..i + 1])
    ensures Counter(calcs, names[i]).held != multiset{} ==> !NoneHeld(calcs, names)
  {
    assert names[..i + 1] == names[..i] + [names[i]];
    assert names[i] in names;
  }

  ghost predicate NoneHeld(calcs: StateCalcs.Calcs, names: seq<StateName>) {
    forall n :: n in names ==> Counter(calcs, n).held == multiset{}
  }

  /** Something is left under `n`, and under no name before it. */
  ghost predicate FirstHeld(calcs: StateCalcs.Calcs, n: StateName) {
    Counter(calcs, n).held != multiset{}
    && forall m: StateName :: m.key < n.key ==> Counter(calcs, m).held == multiset{}
  }

  lemma FirstInOrder(calcs: StateCalcs.Calcs, names: seq<StateName>, i: nat)
    requires Ascending(names) && (forall n :: n in calcs ==> n in names) && i < |names|
    requires Counter(calcs, names[i]).held != multiset{} && NoneHeld(calcs, names[..i])
    ensures FirstHeld(calcs, names[i])
  {
    forall m: StateName | m in names && m.key < names[i].key ensures m in names[..i] {
      var k :| 0 <= k < |names| && names[k] == m;
      assert k < i && names[..i][k] == m;
    }
  }

  /** Accepts a request exactly when it is acceptable, whatever the interleaving of names. A request
      is said to lack change only for a name whose inputs are worth more than its outputs. */
  method CheckRequest<S>(api: Api, owned: OwnedMap, request: OpRequest<S>) returns (r: Result<(), UnmatchedState>)
    requires api.Lawful()
    ensures r.Ok? <==> Acceptable(api, owned, request.using, OutputsOf(request.owned))
    ensures r == Err(UnknownCell) ==> !AllLocated(owned, request.using)
    ensures r.Err? && r.error.NotEnoughChange? ==>
      FirstUnspent(api, owned, request.using, OutputsOf(request.owned), r.error.name)
    ensures forall e :: r == Err(e) <==> FirstFault(api, owned, request.using, OutputsOf(request.owned), e)
  {
    var fed := FeedInputs(api, owned, request.using);
    if fed.Err? {
      if Usable(api, owned, request.using) {
        EarlyFailureIsFinal(api, owned, request.using);
      }
      OnlyFault(api, owned, request.using, OutputsOf(request.owned), fed.error);
      return Err(fed.error);
    }
    ghost var ins := InputsOf(owned, request.using);
    var outs := OutputsOf(request.owned);
    var drawn := DrawOutputs(api, fed.value, ins, outs);
    if drawn.Err? {
      if Balanced(api, ins, outs) {
        assert Covered(api, ins, outs);
      }
      ghost var k: nat :| DrawFails(api, ins, outs, k, drawn.error);
      assert OutputFails(api, owned, request.using, outs, k, drawn.error);
      OnlyFault(api, owned, request.using, outs, drawn.error);
      return Err(drawn.error);
    }
    EmptyDiff(api);
    r := NothingLeft(api, drawn.value);
    NoRemainder(api, drawn.value, ins, outs);
    if r.Err? {
      ghost var n :| FirstHeld(drawn.value, n) && r.error == Unspent(api, n, Counter(drawn.value, n).held);
      RemainderIsLeft(api, owned, request.using, outs, drawn.value, n);
      OnlyFault(api, owned, request.using, outs, r.error);
    } else {
      NoFault(api, owned, request.using, outs);
    }
  }

  lemma OnlyFault(api: Api, owned: OwnedMap, using: seq<UsedState>, outs: seq<Named>, e: UnmatchedState)
    requires api.Monotone() && FirstFault(api, owned, using, outs, e)
    ensures forall f :: FirstFault(api, owned, using, outs, f) <==> f == e
    ensures !Acceptable(api, owned, using, outs)
  {
    forall f | FirstFault(api, owned, using, outs, f) ensures f == e && !Acceptable(api, owned, using, outs) {
      FaultIsUnique(api, owned, using, outs, e, f);
    }
  }

  lemma NoFault(api: Api, owned: OwnedMap, using: seq<UsedState>, outs: seq<Named>)
    requires api.Monotone() && Acceptable(api, owned, using, outs)
    ensures forall e :: !FirstFault(api, owned, using, outs, e)
  {
    forall e | FirstFault(api, owned, using, outs, e) ensures false {
      FaultIsUnique(api, owned, using, outs, e, e);
    }
  }

  lemma RemainderIsLeft(api: Api, owned: OwnedMap, using: seq<UsedState>, outs: seq<Named>, calcs: StateCalcs.Calcs,
                        n: StateName)
    requires Usable(api, owned, using) && Drawable(api, InputsOf(owned, using), outs)
    requires Holds(api, calcs, InputsOf(owned, using), outs) && FirstHeld(calcs, n)
    ensures RemainderFails(api, owned, using, outs, n, Unspent(api, n, Counter(calcs, n).held))
  {
    NoRemainder(api, calcs, InputsOf(owned, using), outs);
    CounterHolds(api, calcs, InputsOf(owned, using), outs, n);
  }

  /** The calculators are all empty exactly when inputs and outputs balance. */
  lemma NoRemainder(api: Api, calcs: StateCalcs.Calcs, ins: seq<Named>, outs: seq<Named>)
    requires Holds(api, calcs, ins, outs)
    ensures NoneHeld(calcs, Sorted(calcs.Keys)) <==> Balanced(api, ins, outs)
    ensures forall n :: Counter(calcs, n).held == multiset{} <==> SumOf(api, ins, n) == SumOf(api, outs, n)
  {
    forall n ensures Counter(calcs, n).held == multiset{} <==> SumOf(api, ins, n) == SumOf(api, outs, n) {
      CounterHolds(api, calcs, ins, outs, n);
      EmptyRest(SumOf(api, ins, n), SumOf(api, outs, n));
    }
  }

  lemma EmptyRest(a: Value, b: Value)
    requires b <= a
    ensures a - b == multiset{} <==> a == b
  {
    if a - b == multiset{} {
      forall x ensures a[x] == b[x] { assert (a - b)[x] == 0; }
    }
  }
}
