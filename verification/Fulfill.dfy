/** Building an operation request that fulfils an invoice (src/popls/bp.rs, `fulfill`). */
module Fulfilment {
  import opened Wrappers
  import opened Seals
  import opened History
  import opened StateCalcs
  import opened Requests
  import opened Invoices

  datatype WoutAssignment = WoutAssignment(wout: WitnessOut, sats: nat)
  datatype Beneficiary = ByToken(auth: AuthToken) | ByWitnessOut(wout: WitnessOut)

  datatype CallSpec = CallSpec(methodName: MethodName, owned: Option<StateName>)
  datatype Invoice = Invoice(contractId: ContractId, call: Option<CallSpec>, data: Option<Data>, auth: Beneficiary)

  /** A change output is an explicit seal without a witness output. */
  type PaymentSeal = Option<WoutAssignment>

  datatype FulfillError =
    | CallStateUnknown | StateNameUnknown | StateUnavailable | StateInsufficient
    | Calc(error: CalcError) | WoutRequiresGiveaway | ValueMissed

  /** An allocation the wallet can spend. */
  datatype OwnCell = OwnCell(addr: CellAddr, outpoint: Outpoint, data: Data)

  predicate IsEntry(cells: seq<OwnedState>, c: OwnCell) {
    exists i :: 0 <= i < |cells| && OwnCell(cells[i].addr, cells[i].seal.primary, cells[i].data) == c
  }

  /** The outpoint is that of a selected allocation. */
  predicate OnOutput(selected: seq<(CellAddr, Outpoint)>, outpoint: Outpoint) {
    exists s :: s in selected && s.1 == outpoint
  }

  predicate OnAddr(selected: seq<(CellAddr, Outpoint)>, addr: CellAddr) {
    exists s :: s in selected && s.0 == addr
  }

  /** Entries of a state name whose output is among the wallet's unspent ones. */
  function OwnCells(utxos: set<Outpoint>, cells: seq<OwnedState>): (r: seq<OwnCell>)
    ensures forall c :: c in r ==> c.outpoint in utxos && IsEntry(cells, c)
    ensures forall i :: 0 <= i < |cells| && cells[i].seal.primary in utxos ==>
      OwnCell(cells[i].addr, cells[i].seal.primary, cells[i].data) in r
  {
    if cells == [] then []
    else
      var n := |cells| - 1;
      var rest := OwnCells(utxos, cells[..n]);
      var last := cells[n];
      if last.seal.primary in utxos then rest + [OwnCell(last.addr, last.seal.primary, last.data)] else rest
  }

  /** The allocations are those of the entries at the positions, one for one. */
  ghost predicate AllocatesAt(cells: seq<OwnedState>, ks: seq<nat>, r: seq<OwnCell>) {
    && |r| == |ks|
    && forall i :: 0 <= i < |ks| ==>
         ks[i] < |cells| && r[i] == OwnCell(cells[ks[i]].addr, cells[ks[i]].seal.primary, cells[ks[i]].data)
  }

  lemma {:induction false} OwnCellsAt(utxos: set<Outpoint>, cells: seq<OwnedState>, n: nat)
    requires n <= |cells|
    ensures AllocatesAt(cells, PicksOf(cells[..n], utxos), OwnCells(utxos, cells[..n]))
  {
    if n > 0 {
      OwnCellsAt(utxos, cells, n - 1);
      assert cells[..n][..n - 1] == cells[..n - 1];
    }
  }

  /** The coin selection is offered the entries on the wallet's outputs: each once, in their order. */
  lemma OwnCellsInOrder(utxos: set<Outpoint>, cells: seq<OwnedState>)
    ensures exists ks :: Picks(cells, utxos, ks) && AllocatesAt(cells, ks, OwnCells(utxos, cells))
  {
    OwnCellsAt(utxos, cells, |cells|);
    assert cells[..|cells|] == cells;
  }

  function NamedCells(n: StateName, cells: seq<OwnCell>): (r: seq<Named>)
    ensures |r| == |cells|
    ensures forall i :: 0 <= i < |cells| ==> r[i] == Named(n, cells[i].data)
  {
    seq(|cells|, i requires 0 <= i < |cells| => Named(n, cells[i].data))
  }

  /** A coin selection: from the value sought, an empty calculator and the allocations, the addresses
      and outputs selected together with the calculator that accumulated them. */
  type Selector = (Data, StateCalc, seq<OwnCell>) -> Option<(seq<(CellAddr, Outpoint)>, StateCalc)>

  /** `used` are allocations among `cells`, listed as `using`, and `c` holds exactly their total. */
  ghost predicate Accumulated(api: Api, n: StateName, cells: seq<OwnCell>, used: seq<OwnCell>,
                              using: seq<(CellAddr, Outpoint)>, c: StateCalc) {
    && |used| == |using|
    && (forall k :: 0 <= k < |used| ==> used[k] in cells && using[k] == (used[k].addr, used[k].outpoint))
    && Countable(api, NamedCells(n, used)) && FitsAll(api, NamedCells(n, used))
    && c == StateCalc(n, SumOf(api, NamedCells(n, used), n))
  }

  /** What is assumed of a coin selection: it accumulates exactly what it returns. */
  ghost predicate ExactSelection(api: Api, select: Selector) {
    forall value, n, cells :: select(value, StateCalc(n, multiset{}), cells).Some? ==>
      var s := select(value, StateCalc(n, multiset{}), cells).value;
      exists used :: Accumulated(api, n, cells, used, s.0, s.1)
  }

  /** The calculator cannot take this data on top of what it holds. */
  predicate Rejects(api: Api, c: StateCalc, d: Data) { api.Accumulate(c, d).Err? }

  lemma AccumulateOne(api: Api, n: StateName, cells: seq<OwnCell>, used: seq<OwnCell>,
                      using: seq<(CellAddr, Outpoint)>, c: StateCalc, cell: OwnCell)
    requires Accumulated(api, n, cells, used, using, c) && n in api.known
    requires cell in cells && api.Accumulate(c, cell.data).Ok?
    ensures Accumulated(api, n, cells, used + [cell], using + [(cell.addr, cell.outpoint)],
                        api.Accumulate(c, cell.data).value)
    ensures c.held <= api.Accumulate(c, cell.data).value.held
  {
    var ps, p := NamedCells(n, used), Named(n, cell.data);
    assert NamedCells(n, used + [cell]) == ps + [p];
    SumAppend(api, ps, p, n);
    CountableAppend(api, ps, p);
    FitsAppend(api, ps, p);
  }

  /** An allocation is used, or its address was selected, or it could not be added. */
  ghost predicate TakenCareOf(api: Api, cell: OwnCell, used: seq<OwnCell>, selected: seq<(CellAddr, Outpoint)>,
                              c: StateCalc) {
    cell in used || OnAddr(selected, cell.addr) || Rejects(api, c, cell.data)
  }

  /** The first `i` allocations that lie on selected outputs are taken care of. */
  ghost predicate Closed(api: Api, cells: seq<OwnCell>, i: nat, used: seq<OwnCell>,
                         selected: seq<(CellAddr, Outpoint)>, c: StateCalc)
    requires i <= |cells|
  {
    forall j :: 0 <= j < i && OnOutput(selected, cells[j].outpoint) ==> TakenCareOf(api, cells[j], used, selected, c)
  }

  lemma ClosedStep(api: Api, cells: seq<OwnCell>, i: nat, used: seq<OwnCell>, selected: seq<(CellAddr, Outpoint)>,
                   c: StateCalc, c': StateCalc)
    requires i < |cells| && Closed(api, cells, i, used, selected, c)
    requires api.Monotone() && c.name == c'.name && c.held <= c'.held
    ensures Closed(api, cells, i + 1, used + [cells[i]], selected, c')
  {
  }

  /** The outputs spent are those selected, and the selection comes first. */
  ghost predicate Extends(selected: seq<(CellAddr, Outpoint)>, using: seq<(CellAddr, Outpoint)>) {
    selected <= using && forall u :: u in using ==> OnOutput(selected, u.1)
  }

  /** What goes with a selection among the first `i` allocations, and the calculator after it. The addresses
      compared with are those of the selection alone. */
  function Extra(api: Api, cells: seq<OwnCell>, i: nat, selected: seq<(CellAddr, Outpoint)>, counter: StateCalc):
    (seq<(CellAddr, Outpoint)>, StateCalc)
    requires i <= |cells|
  {
    if i == 0 then ([], counter)
    else
      var before := Extra(api, cells, i - 1, selected, counter);
      var s := cells[i - 1];
      var taken := api.Accumulate(before.1, s.data);
      if OnOutput(selected, s.outpoint) && !OnAddr(selected, s.addr) && taken.Ok?
      then (before.0 + [(s.addr, s.outpoint)], taken.value) else before
  }

  /** The first `i` allocations have been looked at. */
  ghost predicate Extended(api: Api, n: StateName, cells: seq<OwnCell>, i: nat, selected: seq<(CellAddr, Outpoint)>,
                           counter: StateCalc, using: seq<(CellAddr, Outpoint)>, c: StateCalc, used: seq<OwnCell>) {
    && i <= |cells| && Accumulated(api, n, cells, used, using, c) && Extends(selected, using)
    && Closed(api, cells, i, used, selected, c)
    && using == selected + Extra(api, cells, i, selected, counter).0
    && c == Extra(api, cells, i, selected, counter).1
  }

  lemma TakeOne(api: Api, n: StateName, cells: seq<OwnCell>, i: nat, selected: seq<(CellAddr, Outpoint)>,
                counter: StateCalc, using: seq<(CellAddr, Outpoint)>, c: StateCalc, used: seq<OwnCell>)
    requires i < |cells| && Extended(api, n, cells, i, selected, counter, using, c, used)
    requires api.Monotone() && n in api.known
    requires OnOutput(selected, cells[i].outpoint) && !OnAddr(selected, cells[i].addr)
    requires api.Accumulate(c, cells[i].data).Ok?
    ensures Extended(api, n, cells, i + 1, selected, counter, using + [(cells[i].addr, cells[i].outpoint)],
                     api.Accumulate(c, cells[i].data).value, used + [cells[i]])
  {
    AccumulateOne(api, n, cells, used, using, c, cells[i]);
    ClosedStep(api, cells, i, used, selected, c, api.Accumulate(c, cells[i].data).value);
    OneMoreExtra(api, cells, i, selected, counter, using);
  }

  lemma OneMoreExtra(api: Api, cells: seq<OwnCell>, i: nat, selected: seq<(CellAddr, Outpoint)>, counter: StateCalc,
                     using: seq<(CellAddr, Outpoint)>)
    requires i < |cells| && using == selected + Extra(api, cells, i, selected, counter).0
    requires OnOutput(selected, cells[i].outpoint) && !OnAddr(selected, cells[i].addr)
    requires api.Accumulate(Extra(api, cells, i, selected, counter).1, cells[i].data).Ok?
    ensures using + [(cells[i].addr, cells[i].outpoint)] == selected + Extra(api, cells, i + 1, selected, counter).0
  {
  }

  lemma SkipOne(api: Api, n: StateName, cells: seq<OwnCell>, i: nat, selected: seq<(CellAddr, Outpoint)>,
                counter: StateCalc, using: seq<(CellAddr, Outpoint)>, c: StateCalc, used: seq<OwnCell>)
    requires i < |cells| && Extended(api, n, cells, i, selected, counter, using, c, used)
    requires !OnOutput(selected, cells[i].outpoint) || OnAddr(selected, cells[i].addr)
             || api.Accumulate(c, cells[i].data).Err?
    ensures Extended(api, n, cells, i + 1, selected, counter, using, c, used)
  {
  }

  /** Adds all the other allocations on the selected outputs that can be accumulated. */
  method ExtendSelection(api: Api, n: StateName, cells: seq<OwnCell>, ghost picked: seq<OwnCell>,
                         selected: seq<(CellAddr, Outpoint)>, counter: StateCalc)
    returns (using: seq<(CellAddr, Outpoint)>, counter': StateCalc, ghost used: seq<OwnCell>)
    requires api.Monotone() && n in api.known
    requires Accumulated(api, n, cells, picked, selected, counter)
    ensures Accumulated(api, n, cells, used, using, counter')
    ensures Extends(selected, using)
    ensures Closed(api, cells, |cells|, used, selected, counter')
    ensures using == selected + Extra(api, cells, |cells|, selected, counter).0
  {
    using, counter', used := selected, counter, picked;
    ExtendedNone(api, n, cells, selected, counter, picked);
    for i := 0 to |cells|
      invariant Extended(api, n, cells, i, selected, counter, using, counter', used)
    {
      var s := cells[i];
      var taken := api.Accumulate(counter', s.data);
      if OnOutput(selected, s.outpoint) && !OnAddr(selected, s.addr) && taken.Ok? {
        TakeOne(api, n, cells, i, selected, counter, using, counter', used);
        using, counter', used := using + [(s.addr, s.outpoint)], taken.value, used + [s];
      } else {
        SkipOne(api, n, cells, i, selected, counter, using, counter', used);
      }
    }
  }

  lemma ExtendedNone(api: Api, n: StateName, cells: seq<OwnCell>, selected: seq<(CellAddr, Outpoint)>,
                     counter: StateCalc, used: seq<OwnCell>)
    requires Accumulated(api, n, cells, used, selected, counter)
    ensures Extended(api, n, cells, 0, selected, counter, selected, counter, used)
  {
    assert selected + [] == selected;
    forall u | u in selected ensures OnOutput(selected, u.1) {
    }
  }

  function ToUsed(using: seq<(CellAddr, Outpoint)>): (r: seq<UsedState>)
    ensures |r| == |using|
    ensures forall i :: 0 <= i < |using| ==> r[i] == UsedState(using[i].0, using[i].1, None)
  {
    seq(|using|, i requires 0 <= i < |using| => UsedState(using[i].0, using[i].1, None))
  }

  function ChangeOf(n: StateName, diff: seq<Data>): (r: seq<Assigned<PaymentSeal>>)
    ensures |r| == |diff|
    ensures forall i :: 0 <= i < |diff| ==> r[i] == Assigned(n, Alt(None), diff[i])
  {
    seq(|diff|, i requires 0 <= i < |diff| => Assigned(n, Alt(None), diff[i]))
  }

  predicate UsesAddr(using: seq<UsedState>, addr: CellAddr) {
    exists u :: u in using && u.addr == addr
  }

  /** The request passes the check; the first output is the invoiced one and the others are change;
      the inputs are worth the invoiced value plus the change. */
  ghost predicate Pays(api: Api, owned: OwnedMap, n: StateName, value: Data, seal: EitherSeal<PaymentSeal>,
                       req: OpRequest<PaymentSeal>) {
    && Acceptable(api, owned, req.using, OutputsOf(req.owned))
    && |req.owned| > 0 && req.owned[0] == Assigned(n, seal, value)
    && (forall i :: 1 <= i < |req.owned| ==> req.owned[i].name == n && req.owned[i].seal == Alt(None))
    && api.measure(n, value).Some?
    && SumOf(api, InputsOf(owned, req.using), n)
       == api.measure(n, value).value + SumOf(api, OutputsOf(req.owned[1..]), n)
  }

  /** Only outputs of the wallet that the coin selection chose are spent, all of the selection first. */
  ghost predicate SpendsSelected(utxos: set<Outpoint>, selected: seq<(CellAddr, Outpoint)>, using: seq<UsedState>) {
    && ToUsed(selected) <= using
    && forall u :: u in using ==> u.outpoint in utxos && OnOutput(selected, u.outpoint)
  }

  /** Every allocation on the spent outputs is used, or cannot be held together with those used. */
  ghost predicate LeavesNothing(api: Api, cells: seq<OwnedState>, utxos: set<Outpoint>,
                                selected: seq<(CellAddr, Outpoint)>, using: seq<UsedState>, held: StateCalc) {
    forall e :: e in cells && e.seal.primary in utxos && OnOutput(selected, e.seal.primary) ==>
      UsesAddr(using, e.addr) || Rejects(api, held, e.data)
  }

  /** The cells used are found in the contract state under their name, with their data. */
  lemma InputsOfUsed(owned: OwnedMap, utxos: set<Outpoint>, n: StateName, used: seq<OwnCell>, using: seq<UsedState>)
    requires ConsistentCells(owned) && n in owned && |used| == |using|
    requires forall k :: 0 <= k < |used| ==> used[k] in OwnCells(utxos, owned[n]) && using[k].addr == used[k].addr
    ensures AllLocated(owned, using) && InputsOf(owned, using) == NamedCells(n, used)
  {
    forall k | 0 <= k < |used| ensures Locate(owned, using[k].addr) == Some(Named(n, used[k].data)) {
      assert IsEntry(owned[n], used[k]);
      var i :| 0 <= i < |owned[n]| && OwnCell(owned[n][i].addr, owned[n][i].seal.primary, owned[n][i].data) == used[k];
      LocateEntry(owned, n, i);
    }
  }

  lemma SumOfPayment(api: Api, n: StateName, value: Data, v: Value, diff: seq<Data>)
    requires api.measure(n, value) == Some(v)
    ensures SumOf(api, [Named(n, value)] + Label(n, diff), n) == v + SumOf(api, Label(n, diff), n)
  {
    SumConcat(api, [Named(n, value)], Label(n, diff), n);
    SumAppend(api, [], Named(n, value), n);
    assert [] + [Named(n, value)] == [Named(n, value)];
  }

  lemma OneNameOnly(api: Api, ps: seq<Named>, n: StateName, m: StateName)
    requires m != n && forall i :: 0 <= i < |ps| ==> ps[i].name == n
    ensures SumOf(api, ps, m) == multiset{}
  {
    SumOfOthers(api, ps, m);
  }

  /** The outputs of a payment balance its inputs: the invoiced value, then what is left of them. */
  lemma PaidPlusChange(api: Api, n: StateName, ins: seq<Named>, value: Data, v: Value, diff: seq<Data>)
    requires n in api.known && forall i :: 0 <= i < |ins| ==> ins[i].name == n
    requires api.measure(n, value) == Some(v) && v <= SumOf(api, ins, n)
    requires SumOf(api, Label(n, diff), n) == SumOf(api, ins, n) - v && AllMeasured(api, n, diff)
    ensures var outs := [Named(n, value)] + Label(n, diff);
      Countable(api, outs) && Balanced(api, ins, outs)
    ensures SumOf(api, ins, n) == v + SumOf(api, Label(n, diff), n)
  {
    SumOfPayment(api, n, value, v, diff);
    PutBack(SumOf(api, ins, n), v);
    BalancedInOneName(api, ins, [Named(n, value)] + Label(n, diff), n);
    CountablePayment(api, n, value, diff);
  }

  lemma BalancedInOneName(api: Api, ins: seq<Named>, outs: seq<Named>, n: StateName)
    requires forall i :: 0 <= i < |ins| ==> ins[i].name == n
    requires forall i :: 0 <= i < |outs| ==> outs[i].name == n
    requires SumOf(api, ins, n) == SumOf(api, outs, n)
    ensures Balanced(api, ins, outs)
  {
    forall m ensures SumOf(api, ins, m) == SumOf(api, outs, m) {
      if m != n {
        OneNameOnly(api, ins, n, m);
        OneNameOnly(api, outs, n, m);
      }
    }
  }

  lemma CountablePayment(api: Api, n: StateName, value: Data, diff: seq<Data>)
    requires n in api.known && api.measure(n, value).Some? && AllMeasured(api, n, diff)
    ensures Countable(api, [Named(n, value)] + Label(n, diff))
  {
  }

  lemma PutBack(total: Value, v: Value)
    requires v <= total
    ensures v + (total - v) == total
  {
  }

  /** The call an invoice asks for, and else the default one. */
  function CallOf(invoice: Invoice, defaultCall: Option<CallSpec>): Option<CallSpec> {
    if invoice.call.Some? then invoice.call else defaultCall
  }

  /** What makes a request impossible before any amounts are compared, in the order it is noticed. */
  function Obstacle(api: Api, owned: OwnedMap, utxos: set<Outpoint>, call: Option<CallSpec>, invoice: Invoice,
                    select: Selector, giveaway: Option<nat>): Option<FulfillError> {
    if call.None? then Some(CallStateUnknown)
    else if call.value.owned.None? || call.value.owned.value !in api.known then Some(FulfillError.StateNameUnknown)
    else if invoice.data.None? then Some(ValueMissed)
    else if call.value.owned.value !in owned then Some(StateUnavailable)
    else if Picked(owned, utxos, call.value.owned.value, invoice.data.value, select).None? then Some(StateInsufficient)
    else if invoice.auth.ByWitnessOut? && giveaway.None? then Some(WoutRequiresGiveaway)
    else None
  }

  function Picked(owned: OwnedMap, utxos: set<Outpoint>, n: StateName, value: Data, select: Selector):
    Option<(seq<(CellAddr, Outpoint)>, StateCalc)>
    requires n in owned
  {
    select(value, StateCalc(n, multiset{}), OwnCells(utxos, owned[n]))
  }

  /** What is spent: the selection, and then what goes with it. */
  function Spending(api: Api, cells: seq<OwnCell>, picked: (seq<(CellAddr, Outpoint)>, StateCalc)): seq<UsedState> {
    ToUsed(picked.0 + Extra(api, cells, |cells|, picked.0, picked.1).0)
  }

  /** It can be used, lies on the selected outputs, and leaves nothing on them that could be added. */
  ghost predicate Spends(api: Api, owned: OwnedMap, utxos: set<Outpoint>, n: StateName,
                         selected: seq<(CellAddr, Outpoint)>, using: seq<UsedState>)
    requires n in owned
  {
    && Usable(api, owned, using)
    && SpendsSelected(utxos, selected, using)
    && LeavesNothing(api, owned[n], utxos, selected, using, StateCalc(n, SumOf(api, InputsOf(owned, using), n)))
  }

  /** Why amounts make a request impossible: the invoiced value cannot be counted, is more than what is
      spent, or leaves a remainder that cannot be expressed as data. */
  function Shortage(api: Api, total: StateCalc, value: Data): Option<CalcError> {
    match api.measure(total.name, value)
    case None => Some(Uncountable)
    case Some(v) =>
      if !(v <= total.held) then Some(Insufficient)
      else if api.split(total.name, total.held - v).None? then Some(Indivisible)
      else None
  }

  /** The request spends what is spent and pays the invoice, or fails exactly when the amounts do. */
  ghost predicate Fulfils(api: Api, owned: OwnedMap, invoice: Invoice, methodName: MethodName, n: StateName,
                          value: Data, sats: nat, spent: seq<UsedState>,
                          r: Result<OpRequest<PaymentSeal>, FulfillError>)
    requires AllLocated(owned, spent)
  {
    match Shortage(api, StateCalc(n, SumOf(api, InputsOf(owned, spent), n)), value)
    case Some(e) => r == Err(Calc(e))
    case None =>
      && r.Ok? && r.value.using == spent
      && r.value.contractId == invoice.contractId && r.value.methodName == methodName
      && r.value.reading == [] && r.value.global == []
      && Pays(api, owned, n, value, Payee(invoice.auth, sats), r.value)
  }

  /** The remainder after a value is taken away, as data. */
  function Remainder(api: Api, held: StateCalc, value: Data): Result<seq<Data>, CalcError> {
    match api.Lessen(held, value)
    case Err(e) => Err(e)
    case Ok(rest) => api.Diff(rest)
  }

  /** The request: what is invoiced first, then the remainder as change. */
  function Charged(invoice: Invoice, methodName: MethodName, n: StateName, value: Data, sats: nat,
                   using: seq<UsedState>, remainder: Result<seq<Data>, CalcError>):
    Result<OpRequest<PaymentSeal>, FulfillError>
  {
    match remainder
    case Err(e) => Err(Calc(e))
    case Ok(diff) =>
      var paid := Assigned(n, Payee(invoice.auth, sats), value);
      Ok(OpRequest(invoice.contractId, methodName, [], using, [], [paid] + ChangeOf(n, diff)))
  }

  /** What `fulfill` answers: the obstacle, if there is one, and else what the amounts decide. */
  ghost predicate Answers(api: Api, owned: OwnedMap, utxos: set<Outpoint>, call: Option<CallSpec>, invoice: Invoice,
                          select: Selector, giveaway: Option<nat>, r: Result<OpRequest<PaymentSeal>, FulfillError>) {
    match Obstacle(api, owned, utxos, call, invoice, select, giveaway)
    case Some(e) => r == Err(e)
    case None =>
      var n, value := call.value.owned.value, invoice.data.value;
      var picked := Picked(owned, utxos, n, value, select).value;
      var spent := Spending(api, OwnCells(utxos, owned[n]), picked);
      && Spends(api, owned, utxos, n, picked.0, spent)
      && Fulfils(api, owned, invoice, call.value.methodName, n, value, giveaway.GetOr(0), spent, r)
  }

  /** Without an obstacle or a shortage, the invoice is paid. */
  lemma AnswerPays(api: Api, owned: OwnedMap, utxos: set<Outpoint>, call: Option<CallSpec>, invoice: Invoice,
                   select: Selector, giveaway: Option<nat>, r: Result<OpRequest<PaymentSeal>, FulfillError>,
                   n: StateName, value: Data, spent: seq<UsedState>)
    requires Answers(api, owned, utxos, call, invoice, select, giveaway, r)
    requires Obstacle(api, owned, utxos, call, invoice, select, giveaway).None?
    requires n == call.value.owned.value && value == invoice.data.value
    requires spent == Spending(api, OwnCells(utxos, owned[n]), Picked(owned, utxos, n, value, select).value)
    requires AllLocated(owned, spent)
    requires Shortage(api, StateCalc(n, SumOf(api, InputsOf(owned, spent), n)), value).None?
    ensures r.Ok? && r.value.using == spent
    ensures Pays(api, owned, n, value, Payee(invoice.auth, giveaway.GetOr(0)), r.value)
  {
  }

  /** The call made is the one the invoice names, if it names one, and the first output is owned as the invoice
      says: under its token, or by its witness output with the giveaway. No input carries a satisfaction. */
  predicate AsInvoiced(invoice: Invoice, defaultCall: Option<CallSpec>, giveaway: Option<nat>,
                       req: OpRequest<PaymentSeal>) {
    && (invoice.call.Some? ==> req.methodName == invoice.call.value.methodName)
    && (invoice.call.None? ==> defaultCall.Some? && req.methodName == defaultCall.value.methodName)
    && req.owned != []
    && (invoice.auth.ByToken? ==> req.owned[0].seal == Token(invoice.auth.auth))
    && (invoice.auth.ByWitnessOut? ==>
          giveaway.Some? && req.owned[0].seal == Alt(Some(WoutAssignment(invoice.auth.wout, giveaway.value))))
    && forall u :: u in req.using ==> u.satisfaction == None
  }

  /** The state paid is that of the call made, and the value that of the invoice. */
  predicate ValueInvoiced(invoice: Invoice, defaultCall: Option<CallSpec>, req: OpRequest<PaymentSeal>) {
    && req.owned != [] && invoice.data == Some(req.owned[0].data)
    && (invoice.call.Some? ==> invoice.call.value.owned == Some(req.owned[0].name))
    && (invoice.call.None? ==> defaultCall.Some? && defaultCall.value.owned == Some(req.owned[0].name))
  }

  /** Builds the request, or fails exactly when something is missing or the amounts do not allow it. */
  method Fulfill(api: Api, owned: OwnedMap, utxos: set<Outpoint>, defaultCall: Option<CallSpec>,
                 invoice: Invoice, select: Selector, giveaway: Option<nat>)
    returns (r: Result<OpRequest<PaymentSeal>, FulfillError>)
    requires api.Lawful() && ExactSelection(api, select) && ConsistentCells(owned)
    ensures Answers(api, owned, utxos, CallOf(invoice, defaultCall), invoice, select, giveaway, r)
    ensures r.Ok? ==> AsInvoiced(invoice, defaultCall, giveaway, r.value)
    ensures r.Ok? ==> ValueInvoiced(invoice, defaultCall, r.value)
  {
    var call := CallOf(invoice, defaultCall);
    if call.None? { return Err(CallStateUnknown); }
    if call.value.owned.None? { return Err(FulfillError.StateNameUnknown); }
    var n := call.value.owned.value;
    var counter := api.Calculate(n);
    if counter.None? { return Err(FulfillError.StateNameUnknown); }
    if invoice.data.None? { return Err(ValueMissed); }
    var value := invoice.data.value;
    if n !in owned { return Err(StateUnavailable); }
    var state := OwnCells(utxos, owned[n]);
    var picked := select(value, counter.value, state);
    if picked.None? { return Err(StateInsufficient); }
    var (selected, accumulated) := picked.value;
    ghost var cells :| Accumulated(api, n, state, cells, selected, accumulated);
    var using, held;
    ghost var used;
    using, held, used := ExtendSelection(api, n, state, cells, selected, accumulated);
    if invoice.auth.ByWitnessOut? && giveaway.None? { return Err(WoutRequiresGiveaway); }
    ghost var spent := Spending(api, state, picked.value);
    assert spent == ToUsed(using);
    SpendsWhatItHolds(api, owned, utxos, n, selected, using, used, held);
    r := Charged(invoice, call.value.methodName, n, value, giveaway.GetOr(0), ToUsed(using),
                 Remainder(api, held, value));
    RemainderFulfils(api, owned, invoice, call.value.methodName, n, value, giveaway.GetOr(0), spent, held, r);
  }

  lemma RemainderFulfils(api: Api, owned: OwnedMap, invoice: Invoice, methodName: MethodName, n: StateName,
                         value: Data, sats: nat, spent: seq<UsedState>, held: StateCalc,
                         r: Result<OpRequest<PaymentSeal>, FulfillError>)
    requires api.SplitsExactly() && n in api.known && Usable(api, owned, spent)
    requires forall p :: p in InputsOf(owned, spent) ==> p.name == n
    requires held == StateCalc(n, SumOf(api, InputsOf(owned, spent), n))
    requires r == Charged(invoice, methodName, n, value, sats, spent, Remainder(api, held, value))
    ensures Fulfils(api, owned, invoice, methodName, n, value, sats, spent, r)
  {
    ShortageLeavesNoRemainder(api, held, value);
    if r.Ok? {
      RequestPays(api, owned, n, value, Payee(invoice.auth, sats), held, Remainder(api, held, value).value, r.value);
    }
  }

  lemma ShortageLeavesNoRemainder(api: Api, held: StateCalc, value: Data)
    ensures Shortage(api, held, value) ==
      (if Remainder(api, held, value).Err? then Some(Remainder(api, held, value).error) else None)
  {
  }

  lemma SpendsWhatItHolds(api: Api, owned: OwnedMap, utxos: set<Outpoint>, n: StateName,
                          selected: seq<(CellAddr, Outpoint)>, using: seq<(CellAddr, Outpoint)>, used: seq<OwnCell>,
                          held: StateCalc)
    requires ConsistentCells(owned) && n in owned && Extends(selected, using)
    requires Accumulated(api, n, OwnCells(utxos, owned[n]), used, using, held)
    requires Closed(api, OwnCells(utxos, owned[n]), |OwnCells(utxos, owned[n])|, used, selected, held)
    ensures Spends(api, owned, utxos, n, selected, ToUsed(using))
    ensures held == StateCalc(n, SumOf(api, InputsOf(owned, ToUsed(using)), n))
    ensures forall p :: p in InputsOf(owned, ToUsed(using)) ==> p.name == n
  {
    InputsOfUsed(owned, utxos, n, used, ToUsed(using));
    UsingSpendsSelected(utxos, owned[n], selected, using, used);
    UsingLeavesNothing(api, owned[n], utxos, selected, using, used, held);
  }

  function Payee(auth: Beneficiary, sats: nat): EitherSeal<PaymentSeal> {
    match auth
    case ByToken(t) => Token(t)
    case ByWitnessOut(wout) => Alt(Some(WoutAssignment(wout, sats)))
  }

  lemma RequestPays(api: Api, owned: OwnedMap, n: StateName, value: Data, seal: EitherSeal<PaymentSeal>,
                    held: StateCalc, diff: seq<Data>, req: OpRequest<PaymentSeal>)
    requires api.SplitsExactly() && n in api.known && Usable(api, owned, req.using)
    requires forall i :: 0 <= i < |req.using| ==> InputsOf(owned, req.using)[i].name == n
    requires held == StateCalc(n, SumOf(api, InputsOf(owned, req.using), n))
    requires Remainder(api, held, value) == Ok(diff)
    requires req.owned == [Assigned(n, seal, value)] + ChangeOf(n, diff)
    ensures Pays(api, owned, n, value, seal, req)
  {
    DiffIsExact(api, api.Lessen(held, value).value);
    PaidPlusChange(api, n, InputsOf(owned, req.using), value, api.measure(n, value).value, diff);
    PaymentOutputs(n, value, seal, diff);
  }

  lemma PaymentOutputs(n: StateName, value: Data, seal: EitherSeal<PaymentSeal>, diff: seq<Data>)
    ensures var owned := [Assigned(n, seal, value)] + ChangeOf(n, diff);
      && OutputsOf(owned) == [Named(n, value)] + Label(n, diff)
      && OutputsOf(owned[1..]) == Label(n, diff)
      && forall i :: 1 <= i < |owned| ==> owned[i].name == n && owned[i].seal == Alt(None)
  {
    var owned := [Assigned(n, seal, value)] + ChangeOf(n, diff);
    assert owned[1..] == ChangeOf(n, diff);
    assert forall i :: 1 <= i < |owned| ==> owned[i] == ChangeOf(n, diff)[i - 1];
  }

  lemma UsingSpendsSelected(utxos: set<Outpoint>, cells: seq<OwnedState>, selected: seq<(CellAddr, Outpoint)>,
                            using: seq<(CellAddr, Outpoint)>, used: seq<OwnCell>)
    requires Extends(selected, using) && |used| == |using|
    requires forall k :: 0 <= k < |used| ==>
      used[k] in OwnCells(utxos, cells) && using[k] == (used[k].addr, used[k].outpoint)
    ensures SpendsSelected(utxos, selected, ToUsed(using))
  {
  }

  lemma UsingLeavesNothing(api: Api, cells: seq<OwnedState>, utxos: set<Outpoint>, selected: seq<(CellAddr, Outpoint)>,
                           using: seq<(CellAddr, Outpoint)>, used: seq<OwnCell>, held: StateCalc)
    requires Extends(selected, using) && |used| == |using|
    requires forall k :: 0 <= k < |used| ==> using[k] == (used[k].addr, used[k].outpoint)
    requires Closed(api, OwnCells(utxos, cells), |OwnCells(utxos, cells)|, used, selected, held)
    ensures LeavesNothing(api, cells, utxos, selected, ToUsed(using), held)
  {
  }
}
