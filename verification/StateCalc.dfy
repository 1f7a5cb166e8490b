/** The state calculators of a contract interface, as `fulfill`, `check_request` and `bundle` of
    src/popls/bp.rs use them. Their bodies are not part of this model: `Lawful` is what is assumed. */
module StateCalcs {
  import opened Wrappers
  import opened History

  datatype Atom = Atom(id: int)

  /** What a piece of data is worth: a sum is a multiset over one atom, a set of tokens one over many. */
  type Value = multiset<Atom>

  datatype Named = Named(name: StateName, data: Data)

  datatype CalcError = Uncountable | Overflow | Insufficient | Indivisible

  datatype StateCalc = StateCalc(name: StateName, held: Value)

  /** `measure` values data or rejects it, `fits` bounds what a calculator can hold, and `split`
      expresses a value as data again. */
  datatype Api = Api(
    known: set<StateName>,
    measure: (StateName, Data) -> Option<Value>,
    fits: (StateName, Value) -> bool,
    split: (StateName, Value) -> Option<seq<Data>>)
  {
    /** What fits still fits when part of it is taken away. */
    ghost predicate Monotone() {
      forall n, v, w {:trigger fits(n, v), fits(n, w)} :: fits(n, w) && v <= w ==> fits(n, v)
    }

    /** Nothing splits into no data; the data a value splits into add up to it. */
    ghost predicate SplitsExactly() {
      && (forall n :: split(n, multiset{}) == Some([]))
      && (forall n, v :: split(n, v).Some? ==>
            SumOf(this, Label(n, split(n, v).value), n) == v && AllMeasured(this, n, split(n, v).value))
    }

    ghost predicate Lawful() { Monotone() && SplitsExactly() }

    function Calculate(n: StateName): Option<StateCalc> {
      if n in known then Some(StateCalc(n, multiset{})) else None
    }

    function Accumulate(c: StateCalc, d: Data): Result<StateCalc, CalcError> {
      match measure(c.name, d)
      case None => Err(Uncountable)
      case Some(v) => if fits(c.name, c.held + v) then Ok(c.(held := c.held + v)) else Err(Overflow)
    }

    function Lessen(c: StateCalc, d: Data): Result<StateCalc, CalcError> {
      match measure(c.name, d)
      case None => Err(Uncountable)
      case Some(v) => if v <= c.held then Ok(c.(held := c.held - v)) else Err(Insufficient)
    }

    function Diff(c: StateCalc): Result<seq<Data>, CalcError> {
      match split(c.name, c.held)
      case None => Err(Indivisible)
      case Some(ds) => Ok(ds)
    }
  }

  predicate AllMeasured(api: Api, n: StateName, ds: seq<Data>) {
    forall i :: 0 <= i < |ds| ==> api.measure(n, ds[i]).Some?
  }

  /** The same name on every piece of data. */
  function Label(n: StateName, ds: seq<Data>): (r: seq<Named>)
    ensures |r| == |ds|
    ensures forall i :: 0 <= i < |ds| ==> r[i] == Named(n, ds[i])
  {
    seq(|ds|, i requires 0 <= i < |ds| => Named(n, ds[i]))
  }

  function Worth(api: Api, p: Named, n: StateName): Value {
    if p.name == n then api.measure(n, p.data).GetOr(multiset{}) else multiset{}
  }

  /** The total value of the data named `n`. */
  function SumOf(api: Api, ps: seq<Named>, n: StateName): Value {
    if ps == [] then multiset{}
    else SumOf(api, ps[..|ps| - 1], n) + Worth(api, ps[|ps| - 1], n)
  }

  /** The interface knows every name and can value every piece of data. */
  predicate Countable(api: Api, ps: seq<Named>) {
    forall i :: 0 <= i < |ps| ==> ps[i].name in api.known && api.measure(ps[i].name, ps[i].data).Some?
  }

  predicate FitsAll(api: Api, ps: seq<Named>) {
    forall i :: 0 <= i < |ps| ==> api.fits(ps[i].name, SumOf(api, ps, ps[i].name))
  }

  function Names(ps: seq<Named>): set<StateName> {
    set i | 0 <= i < |ps| :: ps[i].name
  }

  lemma SumAppend(api: Api, ps: seq<Named>, p: Named, n: StateName)
    ensures SumOf(api, ps + [p], n) == SumOf(api, ps, n) + Worth(api, p, n)
  {
    assert (ps + [p])[..|ps|] == ps;
  }

  lemma SumConcatOne(api: Api, ps: seq<Named>, qs: seq<Named>, q: Named, n: StateName)
    requires SumOf(api, ps + qs, n) == SumOf(api, ps, n) + SumOf(api, qs, n)
    ensures SumOf(api, ps + (qs + [q]), n) == SumOf(api, ps, n) + SumOf(api, qs + [q], n)
  {
    assert ps + (qs + [q]) == (ps + qs) + [q];
    SumAppend(api, ps + qs, q, n);
    SumAppend(api, qs, q, n);
  }

  lemma {:induction false} SumConcat(api: Api, ps: seq<Named>, qs: seq<Named>, n: StateName)
    ensures SumOf(api, ps + qs, n) == SumOf(api, ps, n) + SumOf(api, qs, n)
  {
    if qs == [] {
      assert ps + qs == ps;
    } else {
      var init, last := qs[..|qs| - 1], qs[|qs| - 1];
      assert qs == init + [last];
      SumConcat(api, ps, init, n);
      SumConcatOne(api, ps, init, last, n);
    }
  }

  lemma {:induction false} SumOfOthers(api: Api, ps: seq<Named>, n: StateName)
    requires n !in Names(ps)
    ensures SumOf(api, ps, n) == multiset{}
  {
    if ps != [] {
      var k := |ps| - 1;
      assert ps[k].name in Names(ps);
      assert forall i :: 0 <= i < k ==> ps[..k][i].name in Names(ps);
      SumOfOthers(api, ps[..k], n);
    }
  }

  lemma SumPrefix(api: Api, ps: seq<Named>, k: nat, n: StateName)
    requires k <= |ps|
    ensures SumOf(api, ps[..k], n) <= SumOf(api, ps, n)
  {
    assert ps[..k] + ps[k..] == ps;
    SumConcat(api, ps[..k], ps[k..], n);
  }

  lemma NamesAppend(ps: seq<Named>, p: Named)
    ensures Names(ps + [p]) == Names(ps) + {p.name}
  {
    var qs := ps + [p];
    assert qs[|ps|] == p;
    forall n ensures n in Names(qs) <==> n in Names(ps) + {p.name} {
      if i :| 0 <= i < |ps| && ps[i].name == n {
        assert qs[i].name == n;
      }
    }
  }

  // ---------------------------------------------------------------- tables of calculators

  type Calcs = map<StateName, StateCalc>

  datatype CalcsError = StateNameUnknown | Calculation(error: CalcError)

  /** The calculator of a name, created when first needed. */
  function Counter(calcs: Calcs, n: StateName): StateCalc {
    if n in calcs then calcs[n] else StateCalc(n, multiset{})
  }

  /** One step of an accumulating loop. */
  function Feed(api: Api, calcs: Calcs, p: Named): Result<Calcs, CalcsError> {
    if p.name !in calcs && api.Calculate(p.name).None? then Err(StateNameUnknown)
    else match api.Accumulate(Counter(calcs, p.name), p.data)
      case Err(e) => Err(Calculation(e))
      case Ok(c) => Ok(calcs[p.name := c])
  }

  /** One step of a lessening loop. */
  function Draw(api: Api, calcs: Calcs, p: Named): Result<Calcs, CalcsError> {
    if p.name !in calcs && api.Calculate(p.name).None? then Err(StateNameUnknown)
    else match api.Lessen(Counter(calcs, p.name), p.data)
      case Err(e) => Err(Calculation(e))
      case Ok(c) => Ok(calcs[p.name := c])
  }

  /** The calculator of `n` holds the total of `ins` less that of `outs`. */
  ghost predicate HoldsAt(api: Api, c: StateCalc, ins: seq<Named>, outs: seq<Named>, n: StateName) {
    && c.name == n
    && SumOf(api, outs, n) <= SumOf(api, ins, n)
    && c.held == SumOf(api, ins, n) - SumOf(api, outs, n)
  }

  /** There is a calculator for each name met, holding what was fed less what was drawn. */
  ghost predicate Holds(api: Api, calcs: Calcs, ins: seq<Named>, outs: seq<Named>) {
    && calcs.Keys == Names(ins) + Names(outs)
    && calcs.Keys <= api.known
    && forall n :: n in calcs ==> HoldsAt(api, calcs[n], ins, outs, n)
  }

  lemma CounterHolds(api: Api, calcs: Calcs, ins: seq<Named>, outs: seq<Named>, n: StateName)
    requires Holds(api, calcs, ins, outs)
    ensures HoldsAt(api, Counter(calcs, n), ins, outs, n)
  {
    if n !in calcs {
      SumOfOthers(api, ins, n);
      SumOfOthers(api, outs, n);
    }
  }

  lemma HoldsAfterFeed(api: Api, calcs: Calcs, ps: seq<Named>, p: Named, c: StateCalc)
    requires Holds(api, calcs, ps, []) && p.name in api.known
    requires HoldsAt(api, c, ps + [p], [], p.name)
    ensures Holds(api, calcs[p.name := c], ps + [p], [])
  {
    var calcs' := calcs[p.name := c];
    NamesAppend(ps, p);
    forall n | n in calcs' ensures HoldsAt(api, calcs'[n], ps + [p], [], n) {
      if n != p.name {
        assert HoldsAt(api, calcs[n], ps, [], n);
        SumAppendOther(api, ps, p, n);
      }
    }
  }

  lemma HoldsAfterDraw(api: Api, calcs: Calcs, ins: seq<Named>, outs: seq<Named>, p: Named, c: StateCalc)
    requires Holds(api, calcs, ins, outs) && p.name in api.known
    requires HoldsAt(api, c, ins, outs + [p], p.name)
    ensures Holds(api, calcs[p.name := c], ins, outs + [p])
  {
    var calcs' := calcs[p.name := c];
    NamesAppend(outs, p);
    forall n | n in calcs' ensures HoldsAt(api, calcs'[n], ins, outs + [p], n) {
      if n != p.name {
        assert HoldsAt(api, calcs[n], ins, outs, n);
        SumAppendOther(api, outs, p, n);
      }
    }
  }

  lemma SumAppendOther(api: Api, ps: seq<Named>, p: Named, n: StateName)
    requires p.name != n
    ensures SumOf(api, ps + [p], n) == SumOf(api, ps, n)
  {
    SumAppend(api, ps, p, n);
  }

  lemma CountableAppend(api: Api, ps: seq<Named>, p: Named)
    ensures Countable(api, ps + [p]) <==>
            Countable(api, ps) && p.name in api.known && api.measure(p.name, p.data).Some?
  {
    var qs := ps + [p];
    assert qs[|ps|] == p && forall i :: 0 <= i < |ps| ==> qs[i] == ps[i];
  }

  lemma FitsAppend(api: Api, ps: seq<Named>, p: Named)
    requires FitsAll(api, ps)
    ensures FitsAll(api, ps + [p]) <==> api.fits(p.name, SumOf(api, ps + [p], p.name))
  {
    var qs := ps + [p];
    assert qs[|ps|] == p;
    if api.fits(p.name, SumOf(api, qs, p.name)) {
      forall i | 0 <= i < |qs| ensures api.fits(qs[i].name, SumOf(api, qs, qs[i].name)) {
        SumAppend(api, ps, p, qs[i].name);
        if i < |ps| && qs[i].name != p.name {
          assert qs[i] == ps[i];
          assert SumOf(api, qs, qs[i].name) == SumOf(api, ps, qs[i].name);
        }
      }
    }
  }

  /** The calculators hold all of `ins`. */
  ghost predicate Fed(api: Api, calcs: Calcs, ins: seq<Named>) {
    Countable(api, ins) && FitsAll(api, ins) && Holds(api, calcs, ins, [])
  }

  /** Feeding succeeds exactly while everything fed is countable and fits. */
  lemma FeedStep(api: Api, calcs: Calcs, ps: seq<Named>, p: Named)
    requires Fed(api, calcs, ps)
    ensures Feed(api, calcs, p).Ok? <==> Countable(api, ps + [p]) && FitsAll(api, ps + [p])
    ensures Feed(api, calcs, p).Ok? ==> Fed(api, Feed(api, calcs, p).value, ps + [p])
  {
    CountableAppend(api, ps, p);
    FitsAppend(api, ps, p);
    CounterHolds(api, calcs, ps, [], p.name);
    SumAppend(api, ps, p, p.name);
    FeedOutcome(api, calcs, p, SumOf(api, ps, p.name));
    if Feed(api, calcs, p).Ok? {
      HoldsAfterFeed(api, calcs, ps, p, StateCalc(p.name, SumOf(api, ps + [p], p.name)));
    }
  }

  lemma FeedOutcome(api: Api, calcs: Calcs, p: Named, held: Value)
    requires Counter(calcs, p.name) == StateCalc(p.name, held) && calcs.Keys <= api.known
    ensures Feed(api, calcs, p).Ok? <==> p.name in api.known && api.measure(p.name, p.data).Some? &&
                                         api.fits(p.name, held + Worth(api, p, p.name))
    ensures Feed(api, calcs, p).Ok? ==>
      Feed(api, calcs, p).value == calcs[p.name := StateCalc(p.name, held + Worth(api, p, p.name))]
  {
  }

  /** Why data cannot be valued, or else cannot be held or covered. */
  function Fault(api: Api, p: Named, otherwise: CalcError): CalcsError {
    if p.name !in api.known then StateNameUnknown
    else if api.measure(p.name, p.data).None? then Calculation(Uncountable)
    else Calculation(otherwise)
  }

  lemma FaultOf(api: Api, calcs: Calcs, ins: seq<Named>, outs: seq<Named>, p: Named)
    requires Holds(api, calcs, ins, outs)
    ensures Feed(api, calcs, p).Err? ==> Feed(api, calcs, p).error == Fault(api, p, Overflow)
    ensures Draw(api, calcs, p).Err? ==> Draw(api, calcs, p).error == Fault(api, p, Insufficient)
  {
    CounterHolds(api, calcs, ins, outs, p.name);
    FaultIn(api, calcs, p);
  }

  lemma FaultIn(api: Api, calcs: Calcs, p: Named)
    requires calcs.Keys <= api.known && Counter(calcs, p.name).name == p.name
    ensures Feed(api, calcs, p).Err? ==> Feed(api, calcs, p).error == Fault(api, p, Overflow)
    ensures Draw(api, calcs, p).Err? ==> Draw(api, calcs, p).error == Fault(api, p, Insufficient)
  {
  }

  /** Drawing succeeds exactly while what is drawn is countable and covered by what was fed. */
  lemma DrawStep(api: Api, calcs: Calcs, ins: seq<Named>, outs: seq<Named>, p: Named)
    requires Countable(api, outs) && Holds(api, calcs, ins, outs)
    ensures Draw(api, calcs, p).Ok? <==>
            Countable(api, outs + [p]) && SumOf(api, outs + [p], p.name) <= SumOf(api, ins, p.name)
    ensures Draw(api, calcs, p).Ok? ==> Holds(api, Draw(api, calcs, p).value, ins, outs + [p])
  {
    CountableAppend(api, outs, p);
    CounterHolds(api, calcs, ins, outs, p.name);
    SumAppend(api, outs, p, p.name);
    DrawOutcome(api, calcs, p, SumOf(api, ins, p.name), SumOf(api, outs, p.name));
    if Draw(api, calcs, p).Ok? {
      HoldsAfterDraw(api, calcs, ins, outs, p, Draw(api, calcs, p).value[p.name]);
    }
  }

  lemma DrawOutcome(api: Api, calcs: Calcs, p: Named, fed: Value, drawn: Value)
    requires drawn <= fed && Counter(calcs, p.name) == StateCalc(p.name, fed - drawn) && calcs.Keys <= api.known
    ensures Draw(api, calcs, p).Ok? <==>
      p.name in api.known && api.measure(p.name, p.data).Some? && drawn + Worth(api, p, p.name) <= fed
    ensures Draw(api, calcs, p).Ok? ==>
      Draw(api, calcs, p).value == calcs[p.name := StateCalc(p.name, fed - (drawn + Worth(api, p, p.name)))]
  {
    TakeAway(fed, drawn, Worth(api, p, p.name));
  }

  lemma TakeAway(a: Value, b: Value, v: Value)
    requires b <= a
    ensures v <= a - b <==> b + v <= a
    ensures v <= a - b ==> a - b - v == a - (b + v)
  {
  }

  /** A prefix of something countable that fits is countable and fits. */
  lemma PrefixFits(api: Api, ps: seq<Named>, k: nat)
    requires api.Monotone() && k <= |ps| && FitsAll(api, ps)
    ensures FitsAll(api, ps[..k])
  {
    forall i | 0 <= i < k ensures api.fits(ps[..k][i].name, SumOf(api, ps[..k], ps[..k][i].name)) {
      SumPrefix(api, ps, k, ps[i].name);
      assert api.fits(ps[i].name, SumOf(api, ps, ps[i].name));
    }
  }

  /** The difference is the empty list exactly when nothing is left. */
  ghost predicate EmptyDiffs(api: Api) {
    forall c :: api.Diff(c) == Ok([]) <==> c.held == multiset{}
  }

  lemma EmptyDiff(api: Api)
    requires api.SplitsExactly()
    ensures EmptyDiffs(api)
  {
    forall c ensures api.Diff(c) == Ok([]) <==> c.held == multiset{} {
      if api.Diff(c) == Ok([]) {
        DiffIsExact(api, c);
        assert SumOf(api, Label(c.name, []), c.name) == multiset{};
      }
    }
  }

  /** The data of a difference add up to what the calculator holds. */
  lemma DiffIsExact(api: Api, c: StateCalc)
    requires api.SplitsExactly() && api.Diff(c).Ok?
    ensures SumOf(api, Label(c.name, api.Diff(c).value), c.name) == c.held
    ensures AllMeasured(api, c.name, api.Diff(c).value)
  {
  }

  // ---------------------------------------------------------------- names in order

  ghost predicate Ascending(s: seq<StateName>) {
    forall i, j :: 0 <= i < j < |s| ==> s[i].key < s[j].key
  }

  predicate Least(s: set<StateName>, n: StateName) {
    n in s && forall m :: m in s ==> n.key <= m.key
  }

  lemma {:induction false} LeastExists(s: set<StateName>) returns (n: StateName)
    requires s != {}
    ensures Least(s, n)
    decreases s
  {
    n :| n in s;
    var rest := s - {n};
    if rest != {} {
      var y := LeastExists(rest);
      n := if n.key <= y.key then n else y;
    }
    forall m | m in s ensures n.key <= m.key {
      assert m in rest || m !in rest;
    }
  }

  /** The names of a set in the order in which ordered maps are iterated. */
  function Sorted(s: set<StateName>): (r: seq<StateName>)
    ensures forall n :: n in r <==> n in s
    ensures Ascending(r)
  {
    if s == {} then []
    else
      assert exists n :: Least(s, n) by { var n := LeastExists(s); }
      var n :| Least(s, n);
      LeastFirst(s, n, Sorted(s - {n}));
      [n] + Sorted(s - {n})
  }

  lemma LeastFirst(s: set<StateName>, n: StateName, rest: seq<StateName>)
    requires Least(s, n) && Ascending(rest) && forall m :: m in rest <==> m in s - {n}
    ensures Ascending([n] + rest) && forall m :: m in [n] + rest <==> m in s
  {
    var r := [n] + rest;
    forall j | 1 <= j < |r| ensures n.key < r[j].key {
      assert r[j] == rest[j - 1] && rest[j - 1] in rest;
      DistinctKeys(n, r[j]);
    }
    forall m | m in s ensures m in r {
      assert m == n || m in rest;
      assert r[0] == n;
    }
  }

  lemma DistinctKeys(a: StateName, b: StateName)
    ensures a.key == b.key <==> a == b
  {
  }
}
