/** Including a bundle once its witness transaction is known (src/popls/bp.rs, `include`). */
module Inclusions {
  import opened Wrappers
  import opened Seals
  import opened Piles
  import opened Runs
  import opened Requests
  import opened Prefabs
  import opened Wallets
  import Payments

  /** `Incompatible` stands for the panic of a contract on an anchor that does not merge. */
  datatype IncludeError = MissingPrevout(outpoint: Outpoint) | LeafNotKnown | Incompatible

  /** One call of a contract's `include`. */
  datatype Inclusion = Inclusion(contractId: ContractId, opid: Opid, anchor: Anchor)

  /** The commitment proofs for a contract, if the commitment has a leaf for it. */
  type Proofs = ContractId -> Option<int>

  // ---------------------------------------------------------------- anchors

  /** The first input that spends the output. */
  function PositionOf(prevouts: seq<Outpoint>, o: Outpoint): (r: Option<nat>)
    ensures r.None? <==> o !in prevouts
    ensures r.Some? ==> r.value < |prevouts| && prevouts[r.value] == o && o !in prevouts[..r.value]
  {
    if prevouts == [] then None
    else
      var n := |prevouts| - 1;
      match PositionOf(prevouts[..n], o)
      case Some(i) => Some(i)
      case None => if prevouts[n] == o then Some(n) else None
  }

  /** A cast to 32 bits. */
  function Low(i: nat): (r: U32)
    ensures i <= U32_MAX ==> r == i
    ensures (i - r) % 0x1_0000_0000 == 0
  {
    i % 0x1_0000_0000
  }

  /** The position under which the message for an output is stored. */
  function InputOf(prevouts: seq<Outpoint>, o: Outpoint): U32 {
    Low(PositionOf(prevouts, o).GetOr(0))
  }

  /** Input `i` is the first that spends its output. */
  predicate FirstSpend(prevouts: seq<Outpoint>, i: nat) { i < |prevouts| && prevouts[i] !in prevouts[..i] }

  /** The inputs that are the first to spend an output closed, under the numbers that 32 bits leave of them. */
  function ClosedInputs(prevouts: seq<Outpoint>, closes: set<Outpoint>): set<U32> {
    set i: nat | i < |prevouts| && FirstSpend(prevouts, i) && prevouts[i] in closes :: Low(i)
  }

  lemma SpentFirst(prevouts: seq<Outpoint>, o: Outpoint)
    requires o in prevouts
    ensures exists i: nat :: FirstSpend(prevouts, i) && prevouts[i] == o && InputOf(prevouts, o) == Low(i)
    ensures forall i: nat :: FirstSpend(prevouts, i) && prevouts[i] == o ==> InputOf(prevouts, o) == Low(i)
  {
    var p := PositionOf(prevouts, o).value;
    assert FirstSpend(prevouts, p);
    forall i: nat | FirstSpend(prevouts, i) && prevouts[i] == o ensures i == p {
      if i < p {
        SpentBefore(prevouts, i, p);
      }
      if p < i {
        SpentBefore(prevouts, p, i);
      }
    }
  }

  lemma SpentBefore(prevouts: seq<Outpoint>, i: nat, j: nat)
    requires i < j < |prevouts| && prevouts[i] == prevouts[j]
    ensures !FirstSpend(prevouts, j)
  {
    assert prevouts[..j][i] == prevouts[j];
  }

  lemma OneMoreClosed(prevouts: seq<Outpoint>, closes: set<Outpoint>, o: Outpoint)
    requires o in prevouts
    ensures ClosedInputs(prevouts, closes + {o}) == ClosedInputs(prevouts, closes) + {InputOf(prevouts, o)}
  {
    SpentFirst(prevouts, o);
  }

  /** Nothing is cut off of at most 2^32 inputs. */
  lemma InputsAsTheyAre(prevouts: seq<Outpoint>, closes: set<Outpoint>)
    requires |prevouts| <= 0x1_0000_0000
    ensures forall i: U32 :: i in ClosedInputs(prevouts, closes) <==> FirstSpend(prevouts, i) && prevouts[i] in closes
  {
    forall i: U32 | FirstSpend(prevouts, i) && prevouts[i] in closes ensures i in ClosedInputs(prevouts, closes) {
      assert Low(i) == i;
    }
  }

  lemma InputsClosed(prevouts: seq<Outpoint>, closes: set<Outpoint>)
    requires closes <= Elems(prevouts)
    ensures forall i :: i in ClosedInputs(prevouts, closes) <==> exists o :: o in closes && InputOf(prevouts, o) == i
  {
    forall o | o in closes ensures InputOf(prevouts, o) in ClosedInputs(prevouts, closes) {
      SpentFirst(prevouts, o);
    }
    forall i | i in ClosedInputs(prevouts, closes) ensures exists o :: o in closes && InputOf(prevouts, o) == i {
      var k: nat :| k < |prevouts| && FirstSpend(prevouts, k) && prevouts[k] in closes && Low(k) == i;
      SpentFirst(prevouts, prevouts[k]);
    }
  }

  /** The messages commit to one operation at each of the inputs. */
  ghost predicate CommitsTo(messages: map<U32, int>, opid: Opid, inputs: set<U32>) {
    messages.Keys == inputs && forall i :: i in messages ==> messages[i] == opid.hash
  }

  /** One message for each output that the operation closes. */
  method Messages(prevouts: seq<Outpoint>, closes: set<Outpoint>, opid: Opid)
    returns (r: Result<map<U32, int>, IncludeError>)
    ensures r.Ok? <==> closes <= Elems(prevouts)
    ensures r.Ok? ==> CommitsTo(r.value, opid, ClosedInputs(prevouts, closes))
    ensures r.Ok? && |prevouts| <= 0x1_0000_0000 ==>
      forall i: U32 :: i in r.value <==> i < |prevouts| && prevouts[i] in closes && prevouts[i] !in prevouts[..i]
    ensures r.Err? ==> r.error.MissingPrevout? && r.error.outpoint in closes && r.error.outpoint !in prevouts
  {
    var messages: map<U32, int> := map[];
    var left := closes;
    while left != {}
      invariant left <= closes && closes - left <= Elems(prevouts)
      invariant CommitsTo(messages, opid, ClosedInputs(prevouts, closes - left))
    {
      var o :| o in left;
      if PositionOf(prevouts, o).None? {
        return Err(MissingPrevout(o));
      }
      assert closes - (left - {o}) == (closes - left) + {o};
      OneMoreClosed(prevouts, closes - left, o);
      messages := messages[InputOf(prevouts, o) := opid.hash];
      left := left - {o};
    }
    assert closes - left == closes;
    if |prevouts| <= 0x1_0000_0000 {
      InputsAsTheyAre(prevouts, closes);
    }
    return Ok(messages);
  }

  /** The call made for a prefabricated operation. */
  ghost predicate CallFor(prevouts: seq<Outpoint>, proofs: Proofs, p: Prefab, k: Inclusion) {
    && p.closes <= Elems(prevouts) && proofs(p.operation.contractId) == Some(k.anchor.proofs)
    && k.contractId == p.operation.contractId && k.opid == p.operation.opid
    && CommitsTo(k.anchor.messages, k.opid, ClosedInputs(prevouts, p.closes))
  }

  /** The calls made for the operations of a bundle, in order. */
  ghost predicate CallsFor(prevouts: seq<Outpoint>, proofs: Proofs, bundle: seq<Prefab>, calls: seq<Inclusion>) {
    |calls| == |bundle| && forall i :: 0 <= i < |calls| ==> CallFor(prevouts, proofs, bundle[i], calls[i])
  }

  ghost predicate Includable(prevouts: seq<Outpoint>, proofs: Proofs, p: Prefab) {
    p.closes <= Elems(prevouts) && proofs(p.operation.contractId).Some?
  }

  // ---------------------------------------------------------------- one contract

  /** The tables of a contract after one call; it panics on an anchor that does not merge. */
  function Take(v: PileView, k: Inclusion, published: PubWitness): Option<PileView> {
    if published.id in v.hoard && !v.hoard[published.id].Compatible(k.anchor) then None
    else Some(Included(v, k.opid, k.anchor, published))
  }

  /** The tables of contract `c` after the calls made to it, if it takes them all. */
  function TakeAll(v: PileView, calls: seq<Inclusion>, c: ContractId, published: PubWitness): Option<PileView> {
    if calls == [] then Some(v)
    else
      var n := |calls| - 1;
      match TakeAll(v, calls[..n], c, published)
      case None => None
      case Some(u) => if calls[n].contractId == c then Take(u, calls[n], published) else Some(u)
  }

  lemma TakeAppend(v: PileView, calls: seq<Inclusion>, k: Inclusion, c: ContractId, published: PubWitness)
    ensures TakeAll(v, calls + [k], c, published) ==
      match TakeAll(v, calls, c, published)
      case None => None
      case Some(u) => if k.contractId == c then Take(u, k, published) else Some(u)
  {
    assert (calls + [k])[..|calls|] == calls;
  }

  predicate HasCall(calls: seq<Inclusion>, c: ContractId) { exists k :: k in calls && k.contractId == c }

  /** The anchors made for one contract merge with each other. */
  ghost predicate CallsMerge(calls: seq<Inclusion>, c: ContractId) {
    forall j, k :: j in calls && k in calls && j.contractId == c && k.contractId == c ==> j.anchor.Compatible(k.anchor)
  }

  /** An anchor merges with what is stored for the witness, and with those made for the contract. */
  ghost predicate MergesWith(v: PileView, calls: seq<Inclusion>, c: ContractId, w: Wid, a: Anchor) {
    && (w in v.hoard ==> v.hoard[w].Compatible(a))
    && forall k :: k in calls && k.contractId == c ==> k.anchor.Compatible(a)
  }

  /** All the anchors made for the contract merge with what is stored for the witness, and with each other. */
  ghost predicate Mergeable(v: PileView, calls: seq<Inclusion>, c: ContractId, w: Wid) {
    && CallsMerge(calls, c)
    && forall k :: k in calls && k.contractId == c && w in v.hoard ==> v.hoard[w].Compatible(k.anchor)
  }

  /** The anchor stored in the end stands for what was stored and for every call. */
  ghost predicate Stands(v: PileView, calls: seq<Inclusion>, c: ContractId, w: Wid, t: PileView) {
    && (w in t.hoard <==> w in v.hoard || HasCall(calls, c))
    && (w in t.hoard ==>
          && (forall a :: t.hoard[w].Compatible(a) <==> MergesWith(v, calls, c, w, a))
          && forall k :: k in calls && k.contractId == c ==> t.hoard[w].Extends(k.anchor))
  }

  lemma MergedCompatible(x: Anchor, y: Anchor, a: Anchor)
    requires x.Compatible(y)
    ensures x.Merge(y).Compatible(a) <==> x.Compatible(a) && y.Compatible(a)
    ensures x.Merge(y).Extends(x) && x.Merge(y).Extends(y)
  {
  }

  lemma MergeableStep(v: PileView, calls: seq<Inclusion>, k: Inclusion, c: ContractId, w: Wid)
    requires k.contractId == c
    ensures Mergeable(v, calls + [k], c, w) <==> Mergeable(v, calls, c, w) && MergesWith(v, calls, c, w, k.anchor)
  {
    assert forall j :: j in calls + [k] <==> j in calls || j == k;
  }

  lemma OtherCall(v: PileView, calls: seq<Inclusion>, k: Inclusion, c: ContractId, w: Wid)
    requires k.contractId != c
    ensures Mergeable(v, calls + [k], c, w) <==> Mergeable(v, calls, c, w)
    ensures forall t :: Stands(v, calls, c, w, t) ==> Stands(v, calls + [k], c, w, t)
  {
    assert forall j :: j in calls + [k] && j.contractId == c <==> j in calls && j.contractId == c;
    assert HasCall(calls + [k], c) <==> HasCall(calls, c);
    assert forall a :: MergesWith(v, calls + [k], c, w, a) <==> MergesWith(v, calls, c, w, a);
  }

  lemma OwnCall(v: PileView, calls: seq<Inclusion>, k: Inclusion, c: ContractId, published: PubWitness, t: PileView)
    requires k.contractId == c && Stands(v, calls, c, published.id, t)
    ensures Take(t, k, published).Some? <==> MergesWith(v, calls, c, published.id, k.anchor)
    ensures Take(t, k, published).Some? ==> Stands(v, calls + [k], c, published.id, Take(t, k, published).value)
  {
    var w := published.id;
    assert forall j :: j in calls + [k] <==> j in calls || j == k;
    if w in t.hoard && t.hoard[w].Compatible(k.anchor) {
      forall a ensures t.hoard[w].Merge(k.anchor).Compatible(a) <==> MergesWith(v, calls + [k], c, w, a) {
        MergedCompatible(t.hoard[w], k.anchor, a);
        assert t.hoard[w].Compatible(a) <==> MergesWith(v, calls, c, w, a);
      }
      MergedCompatible(t.hoard[w], k.anchor, k.anchor);
    }
    assert k in calls + [k];
  }

  /** A contract takes all of the calls exactly when all the anchors merge, and then the anchor stored in the
      end extends each of them. */
  lemma {:induction false} TakenIff(v: PileView, calls: seq<Inclusion>, c: ContractId, published: PubWitness)
    ensures TakeAll(v, calls, c, published).Some? <==> Mergeable(v, calls, c, published.id)
    ensures TakeAll(v, calls, c, published).Some? ==>
      Stands(v, calls, c, published.id, TakeAll(v, calls, c, published).value)
  {
    if calls != [] {
      var n := |calls| - 1;
      var init, k := calls[..n], calls[n];
      TakenIff(v, init, c, published);
      assert calls == init + [k];
      TakeAppend(v, init, k, c, published);
      if k.contractId == c {
        MergeableStep(v, init, k, c, published.id);
        if TakeAll(v, init, c, published).Some? {
          OwnCall(v, init, k, c, published, TakeAll(v, init, c, published).value);
        }
      } else {
        OtherCall(v, init, k, c, published.id);
      }
    }
  }

  // ---------------------------------------------------------------- all contracts

  /** What may become of the tables of each contract. */
  type Outcomes = (ContractId, PileView, PileView) -> bool

  ghost predicate Each(outcome: Outcomes, start: map<ContractId, PileView>, now: map<ContractId, PileView>) {
    now.Keys == start.Keys && forall c :: c in start ==> outcome(c, start[c], now[c])
  }

  ghost function Taking(calls: seq<Inclusion>, published: PubWitness): Outcomes {
    (c, v, t) => TakeAll(v, calls, c, published) == Some(t)
  }

  lemma EachOther(before: Outcomes, after: Outcomes, start: map<ContractId, PileView>, now: map<ContractId, PileView>,
                  c: ContractId, t: PileView)
    requires Each(before, start, now) && c in start && after(c, start[c], t)
    requires forall d, v, u :: d != c && before(d, v, u) ==> after(d, v, u)
    ensures Each(after, start, now[c := t])
  {
  }

  /** The call for `p` does not go through: it cannot be made, or its contract does not take it. */
  ghost predicate FailsAt(prevouts: seq<Outpoint>, proofs: Proofs, p: Prefab, published: PubWitness,
                          now: map<ContractId, PileView>, e: IncludeError) {
    match e
    case MissingPrevout(o) => o in p.closes && o !in prevouts
    case LeafNotKnown => p.closes <= Elems(prevouts) && proofs(p.operation.contractId).None?
    case Incompatible =>
      exists k :: CallFor(prevouts, proofs, p, k) &&
                  k.contractId in now && Take(now[k.contractId], k, published).None?
  }

  /** The calls so far went through. */
  ghost predicate Through(prevouts: seq<Outpoint>, proofs: Proofs, bundle: seq<Prefab>, published: PubWitness,
                          start: map<ContractId, PileView>, calls: seq<Inclusion>, now: map<ContractId, PileView>) {
    && |calls| <= |bundle| && CallsFor(prevouts, proofs, bundle[..|calls|], calls)
    && Each(Taking(calls, published), start, now)
  }

  /** The calls made before the first that fails, if one does, and the tables after them. */
  ghost predicate Outcome(prevouts: seq<Outpoint>, proofs: Proofs, bundle: seq<Prefab>, published: PubWitness,
                          start: map<ContractId, PileView>, r: Result<(), IncludeError>, calls: seq<Inclusion>,
                          now: map<ContractId, PileView>)
  {
    && Through(prevouts, proofs, bundle, published, start, calls, now)
    && (r.Ok? <==> |calls| == |bundle|)
    && (r.Err? ==> FailsAt(prevouts, proofs, bundle[|calls|], published, now, r.error))
  }

  predicate KnownIn(start: map<ContractId, PileView>, bundle: seq<Prefab>) {
    forall p :: p in bundle ==> p.operation.contractId in start
  }

  /** Includes the operations one by one. When it fails at one, those before it have been included. */
  method Include(prevouts: seq<Outpoint>, proofs: Proofs, bundle: seq<Prefab>, published: PubWitness,
                 start: map<ContractId, PileView>)
    returns (r: Result<(), IncludeError>, calls: seq<Inclusion>, now: map<ContractId, PileView>)
    requires KnownIn(start, bundle)
    ensures Outcome(prevouts, proofs, bundle, published, start, r, calls, now)
  {
    calls, now := [], start;
    for i := 0 to |bundle|
      invariant |calls| == i && Through(prevouts, proofs, bundle, published, start, calls, now)
    {
      var operation := bundle[i].operation;
      var messages := Messages(prevouts, bundle[i].closes, operation.opid);
      if messages.Err? {
        return Err(messages.error), calls, now;
      }
      var proof := proofs(operation.contractId);
      if proof.None? {
        return Err(LeafNotKnown), calls, now;
      }
      var k := Inclusion(operation.contractId, operation.opid, Anchor(messages.value, proof.value));
      assert bundle[i] in bundle;
      var taken := Take(now[k.contractId], k, published);
      if taken.None? {
        assert CallFor(prevouts, proofs, bundle[i], k);
        return Err(Incompatible), calls, now;
      }
      OneMoreThrough(prevouts, proofs, bundle, published, start, calls, now, k);
      calls, now := calls + [k], now[k.contractId := taken.value];
    }
    r := Ok(());
  }

  lemma OneMoreThrough(prevouts: seq<Outpoint>, proofs: Proofs, bundle: seq<Prefab>, published: PubWitness,
                       start: map<ContractId, PileView>, calls: seq<Inclusion>, now: map<ContractId, PileView>,
                       k: Inclusion)
    requires |calls| < |bundle| && Through(prevouts, proofs, bundle, published, start, calls, now)
    requires CallFor(prevouts, proofs, bundle[|calls|], k) && k.contractId in now
    requires Take(now[k.contractId], k, published).Some?
    ensures Through(prevouts, proofs, bundle, published, start, calls + [k],
                    now[k.contractId := Take(now[k.contractId], k, published).value])
  {
    var c := k.contractId;
    NextCall(prevouts, proofs, bundle, |calls|, calls, k);
    TakeAppend(start[c], calls, k, c, published);
    TakesOthers(calls, k, published);
    assert Taking(calls, published)(c, start[c], now[c]);
    EachOther(Taking(calls, published), Taking(calls + [k], published), start, now, c,
              Take(now[c], k, published).value);
  }

  lemma NextCall(prevouts: seq<Outpoint>, proofs: Proofs, bundle: seq<Prefab>, i: nat, calls: seq<Inclusion>,
                 k: Inclusion)
    requires i < |bundle| && |calls| == i && CallsFor(prevouts, proofs, bundle[..i], calls)
    requires CallFor(prevouts, proofs, bundle[i], k)
    ensures CallsFor(prevouts, proofs, bundle[..i + 1], calls + [k])
  {
  }

  lemma TakesOthers(calls: seq<Inclusion>, k: Inclusion, published: PubWitness)
    ensures forall d, v, u :: d != k.contractId && Taking(calls, published)(d, v, u) ==>
      Taking(calls + [k], published)(d, v, u)
  {
    forall d, v, u | d != k.contractId && Taking(calls, published)(d, v, u)
      ensures Taking(calls + [k], published)(d, v, u)
    {
      TakeAppend(v, calls, k, d, published);
    }
  }

  // ---------------------------------------------------------------- a whole bundle

  /** No two operations of the contract close the same output. */
  ghost predicate NoSharedSeal(bundle: seq<Prefab>, c: ContractId) {
    forall p, q :: p in bundle && q in bundle && p.operation.contractId == c && q.operation.contractId == c ==>
      p.operation.opid == q.operation.opid || p.closes !! q.closes
  }

  /** Every output closed by an operation of the contract is committed to that operation, at the first input that
      spends it. */
  ghost predicate SealsCommitted(prevouts: seq<Outpoint>, bundle: seq<Prefab>, c: ContractId, anchor: Anchor) {
    forall p, i: U32 :: p in bundle && p.operation.contractId == c && FirstSpend(prevouts, i) && prevouts[i] in p.closes
      ==> i in anchor.messages && anchor.messages[i] == p.operation.opid.hash
  }

  lemma SameInput(prevouts: seq<Outpoint>, a: Outpoint, b: Outpoint)
    requires a in prevouts && b in prevouts && |prevouts| <= 0x1_0000_0000
    ensures InputOf(prevouts, a) == InputOf(prevouts, b) <==> a == b
  {
  }

  /** Two anchors of one contract and witness merge exactly when their operations are the same or
      close no output in common. */
  lemma MergeIff(prevouts: seq<Outpoint>, proofs: Proofs, p: Prefab, q: Prefab, j: Inclusion, k: Inclusion)
    requires |prevouts| <= 0x1_0000_0000
    requires CallFor(prevouts, proofs, p, j) && CallFor(prevouts, proofs, q, k) && j.contractId == k.contractId
    ensures j.anchor.Compatible(k.anchor) <==> p.operation.opid == q.operation.opid || p.closes !! q.closes
  {
    InputsClosed(prevouts, p.closes);
    InputsClosed(prevouts, q.closes);
    if o :| o in p.closes && o in q.closes {
      assert InputOf(prevouts, o) in j.anchor.messages && InputOf(prevouts, o) in k.anchor.messages;
    } else {
      forall i | i in j.anchor.messages && i in k.anchor.messages ensures false {
        var a :| a in p.closes && InputOf(prevouts, a) == i;
        var b :| b in q.closes && InputOf(prevouts, b) == i;
        assert a in Elems(prevouts) && b in Elems(prevouts);
        SameInput(prevouts, a, b);
      }
    }
  }

  lemma CallOf(prevouts: seq<Outpoint>, proofs: Proofs, bundle: seq<Prefab>, calls: seq<Inclusion>)
    requires CallsFor(prevouts, proofs, bundle, calls)
    ensures forall k :: k in calls ==> exists p :: p in bundle && CallFor(prevouts, proofs, p, k)
    ensures forall p :: p in bundle ==> exists k :: k in calls && CallFor(prevouts, proofs, p, k)
  {
  }

  lemma OperationsMerge(prevouts: seq<Outpoint>, proofs: Proofs, bundle: seq<Prefab>, calls: seq<Inclusion>,
                        c: ContractId, j: Inclusion, k: Inclusion)
    requires |prevouts| <= 0x1_0000_0000 && CallsFor(prevouts, proofs, bundle, calls) && NoSharedSeal(bundle, c)
    requires j in calls && k in calls && j.contractId == c && k.contractId == c
    ensures j.anchor.Compatible(k.anchor)
  {
    var m :| 0 <= m < |calls| && calls[m] == j;
    var n :| 0 <= n < |calls| && calls[n] == k;
    assert bundle[m] in bundle && bundle[n] in bundle;
    MergeIff(prevouts, proofs, bundle[m], bundle[n], j, k);
  }

  lemma MergingShareNoSeal(prevouts: seq<Outpoint>, proofs: Proofs, bundle: seq<Prefab>, calls: seq<Inclusion>,
                           c: ContractId, p: Prefab, q: Prefab)
    requires |prevouts| <= 0x1_0000_0000 && CallsFor(prevouts, proofs, bundle, calls)
    requires p in bundle && q in bundle && p.operation.contractId == c && q.operation.contractId == c
    requires CallsMerge(calls, c)
    ensures p.operation.opid == q.operation.opid || p.closes !! q.closes
  {
    var m :| 0 <= m < |bundle| && bundle[m] == p;
    var n :| 0 <= n < |bundle| && bundle[n] == q;
    assert calls[m] in calls && calls[n] in calls;
    MergeIff(prevouts, proofs, p, q, calls[m], calls[n]);
  }

  /** The anchors made for a contract merge exactly when no two operations of the contract close the same output. */
  lemma MergeIffNoSharedSeal(prevouts: seq<Outpoint>, proofs: Proofs, bundle: seq<Prefab>, calls: seq<Inclusion>,
                             c: ContractId)
    requires |prevouts| <= 0x1_0000_0000 && CallsFor(prevouts, proofs, bundle, calls)
    ensures CallsMerge(calls, c) <==> NoSharedSeal(bundle, c)
  {
    if NoSharedSeal(bundle, c) {
      forall j, k | j in calls && k in calls && j.contractId == c && k.contractId == c
        ensures j.anchor.Compatible(k.anchor)
      {
        OperationsMerge(prevouts, proofs, bundle, calls, c, j, k);
      }
    }
    if CallsMerge(calls, c) {
      forall p, q | p in bundle && q in bundle && p.operation.contractId == c && q.operation.contractId == c
        ensures p.operation.opid == q.operation.opid || p.closes !! q.closes
      {
        MergingShareNoSeal(prevouts, proofs, bundle, calls, c, p, q);
      }
    }
  }

  /** An anchor that extends all those made for the contract holds a message for each closed output. */
  lemma ExtendedCommits(prevouts: seq<Outpoint>, proofs: Proofs, bundle: seq<Prefab>, calls: seq<Inclusion>,
                        c: ContractId, anchor: Anchor)
    requires |prevouts| <= 0x1_0000_0000 && CallsFor(prevouts, proofs, bundle, calls)
    requires forall k :: k in calls && k.contractId == c ==> anchor.Extends(k.anchor)
    ensures SealsCommitted(prevouts, bundle, c, anchor)
  {
  }

  /** The tables of a contract take a bundle under a new witness exactly when no two of its operations close
      the same output, and then each closed output is committed to its operation. */
  lemma BundleTaken(v: PileView, prevouts: seq<Outpoint>, proofs: Proofs, bundle: seq<Prefab>, calls: seq<Inclusion>,
                    c: ContractId, published: PubWitness)
    requires |prevouts| <= 0x1_0000_0000 && CallsFor(prevouts, proofs, bundle, calls) && published.id !in v.hoard
    ensures TakeAll(v, calls, c, published).Some? <==> NoSharedSeal(bundle, c)
    ensures TakeAll(v, calls, c, published).Some? && HasCall(calls, c) ==>
      var t := TakeAll(v, calls, c, published).value;
      published.id in t.hoard && SealsCommitted(prevouts, bundle, c, t.hoard[published.id])
  {
    TakenIff(v, calls, c, published);
    MergeIffNoSharedSeal(prevouts, proofs, bundle, calls, c);
    if TakeAll(v, calls, c, published).Some? && HasCall(calls, c) {
      ExtendedCommits(prevouts, proofs, bundle, calls, c, TakeAll(v, calls, c, published).value.hoard[published.id]);
    }
  }

  /** Including a bundle under a new witness succeeds exactly when every closed output is spent, the commitment
      has a leaf for every contract, and no two operations of one contract close the same output. */
  lemma IncludeSucceedsIff(prevouts: seq<Outpoint>, proofs: Proofs, bundle: seq<Prefab>, published: PubWitness,
                           start: map<ContractId, PileView>, r: Result<(), IncludeError>, calls: seq<Inclusion>,
                           now: map<ContractId, PileView>)
    requires |prevouts| <= 0x1_0000_0000 && forall c :: c in start ==> published.id !in start[c].hoard
    requires Outcome(prevouts, proofs, bundle, published, start, r, calls, now)
    ensures r.Ok? <==>
      && (forall p :: p in bundle ==> Includable(prevouts, proofs, p))
      && forall c :: c in start ==> NoSharedSeal(bundle, c)
  {
    if r.Ok? {
      IncludedAll(prevouts, proofs, bundle, published, start, calls, now);
    } else {
      var p := bundle[|calls|];
      assert p in bundle;
      if r.error == Incompatible {
        var k :| CallFor(prevouts, proofs, p, k) && k.contractId in now && Take(now[k.contractId], k, published).None?;
        NotTaken(prevouts, proofs, bundle, published, start, calls, now, k);
      }
    }
  }

  lemma IncludedAll(prevouts: seq<Outpoint>, proofs: Proofs, bundle: seq<Prefab>, published: PubWitness,
                    start: map<ContractId, PileView>, calls: seq<Inclusion>, now: map<ContractId, PileView>)
    requires |prevouts| <= 0x1_0000_0000 && forall c :: c in start ==> published.id !in start[c].hoard
    requires CallsFor(prevouts, proofs, bundle[..|bundle|], calls) && Each(Taking(calls, published), start, now)
    ensures forall p :: p in bundle ==> Includable(prevouts, proofs, p)
    ensures forall c :: c in start ==> NoSharedSeal(bundle, c)
  {
    assert bundle[..|bundle|] == bundle;
    CallOf(prevouts, proofs, bundle, calls);
    forall c | c in start ensures NoSharedSeal(bundle, c) {
      assert Taking(calls, published)(c, start[c], now[c]);
      BundleTaken(start[c], prevouts, proofs, bundle, calls, c, published);
    }
  }

  lemma NotTaken(prevouts: seq<Outpoint>, proofs: Proofs, bundle: seq<Prefab>, published: PubWitness,
                 start: map<ContractId, PileView>, calls: seq<Inclusion>, now: map<ContractId, PileView>, k: Inclusion)
    requires |prevouts| <= 0x1_0000_0000 && |calls| < |bundle|
    requires CallsFor(prevouts, proofs, bundle[..|calls|], calls) && Each(Taking(calls, published), start, now)
    requires CallFor(prevouts, proofs, bundle[|calls|], k) && k.contractId in now
    requires published.id !in start[k.contractId].hoard && Take(now[k.contractId], k, published).None?
    ensures !NoSharedSeal(bundle, k.contractId)
  {
    var c, i := k.contractId, |calls|;
    NextCall(prevouts, proofs, bundle, i, calls, k);
    assert Taking(calls, published)(c, start[c], now[c]);
    TakeAppend(start[c], calls, k, c, published);
    BundleTaken(start[c], prevouts, proofs, bundle[..i + 1], calls + [k], c, published);
    PartShares(bundle, i + 1, c);
  }

  lemma PartShares(bundle: seq<Prefab>, i: nat, c: ContractId)
    requires i <= |bundle| && !NoSharedSeal(bundle[..i], c)
    ensures !NoSharedSeal(bundle, c)
  {
    assert forall p :: p in bundle[..i] ==> p in bundle;
  }

  // ---------------------------------------------------------------- the run of one contract

  function StepOf(k: Inclusion, published: PubWitness): Step { Step.Include(k.opid, k.anchor, published) }

  /** The steps a bundle makes in the run of one contract. */
  function StepsFor(calls: seq<Inclusion>, c: ContractId, published: PubWitness): (r: seq<Step>)
    ensures forall k :: k in calls && k.contractId == c ==> StepOf(k, published) in r
    ensures forall a :: a in r ==> exists k :: k in calls && k.contractId == c && a == StepOf(k, published)
  {
    if calls == [] then []
    else
      var n := |calls| - 1;
      var rest := StepsFor(calls[..n], c, published);
      assert forall k :: k in calls <==> k == calls[n] || k in calls[..n];
      rest + if calls[n].contractId == c then [StepOf(calls[n], published)] else []
  }

  /** Inclusions of known operations under one witness. */
  ghost predicate AllUnder(s: RunState, steps: seq<Step>, published: PubWitness) {
    forall a :: a in steps ==> a.Include? && a.published == published && a.opid in s.ops
  }

  lemma StepsAppend(calls: seq<Inclusion>, k: Inclusion, c: ContractId, published: PubWitness)
    ensures StepsFor(calls + [k], c, published) ==
            StepsFor(calls, c, published) + if k.contractId == c then [StepOf(k, published)] else []
  {
    assert (calls + [k])[..|calls|] == calls;
  }

  /** The contract knows the operations it is called with. */
  ghost predicate KnowsCalls(s: RunState, calls: seq<Inclusion>, c: ContractId) {
    Good(s) && forall k :: k in calls && k.contractId == c ==> k.opid in s.ops
  }

  /** For operations the contract knows, the calls it takes are the legal steps of a run. */
  lemma {:induction false} LegalIffTaken(s: RunState, calls: seq<Inclusion>, c: ContractId, published: PubWitness)
    requires KnowsCalls(s, calls, c)
    ensures Legal(s, StepsFor(calls, c, published)) <==> TakeAll(s.pile, calls, c, published).Some?
    ensures Legal(s, StepsFor(calls, c, published)) ==>
      Run(s, StepsFor(calls, c, published)) == s.(pile := TakeAll(s.pile, calls, c, published).value)
  {
    if calls != [] {
      var n := |calls| - 1;
      var init, k := calls[..n], calls[n];
      assert calls == init + [k] && k in calls && forall j :: j in init ==> j in calls;
      LegalIffTaken(s, init, c, published);
      TakeAppend(s.pile, init, k, c, published);
      StepsAppend(init, k, c, published);
      if k.contractId == c {
        if Legal(s, StepsFor(init, c, published)) {
          RunAppend(s, StepsFor(init, c, published), StepOf(k, published));
        } else {
          IllegalAppend(s, StepsFor(init, c, published), StepOf(k, published));
        }
      } else {
        assert StepsFor(init, c, published) + [] == StepsFor(init, c, published);
      }
    }
  }

  lemma {:induction false} IllegalAppend(s: RunState, steps: seq<Step>, a: Step)
    requires Good(s) && !Legal(s, steps)
    ensures !Legal(s, steps + [a])
    decreases |steps|
  {
    var more := steps + [a];
    assert more[0] == steps[0] && more[1..] == steps[1..] + [a];
    if Enabled(s, steps[0]) {
      StepKeepsGood(s, steps[0]);
      IllegalAppend(Apply(s, steps[0]), steps[1..], a);
    }
  }

  /** The operations of the contract are known to it, and its state has not seen the witness. */
  ghost predicate Awaits(s: RunState, bundle: seq<Prefab>, c: ContractId, w: Wid) {
    && Good(s) && w !in s.pile.mine
    && forall p :: p in bundle && p.operation.contractId == c ==> p.operation.opid in s.ops
  }

  lemma AwaitsCalls(s: RunState, prevouts: seq<Outpoint>, proofs: Proofs, bundle: seq<Prefab>, calls: seq<Inclusion>,
                    c: ContractId, published: PubWitness)
    requires CallsFor(prevouts, proofs, bundle, calls) && Awaits(s, bundle, c, published.id)
    ensures KnowsCalls(s, calls, c) && AllUnder(s, StepsFor(calls, c, published), published)
  {
    CallOf(prevouts, proofs, bundle, calls);
  }

  /** A bundle can be included under a new witness exactly when no two operations of one contract close
      the same output, and then each closed output is committed to its operation. */
  lemma BundleIncludes(s: RunState, prevouts: seq<Outpoint>, proofs: Proofs, bundle: seq<Prefab>, calls: seq<Inclusion>,
                       c: ContractId, published: PubWitness)
    requires |prevouts| <= 0x1_0000_0000 && CallsFor(prevouts, proofs, bundle, calls)
    requires Awaits(s, bundle, c, published.id)
    ensures var steps := StepsFor(calls, c, published);
      && (Legal(s, steps) <==> NoSharedSeal(bundle, c))
      && (Legal(s, steps) && steps != [] ==>
            && published.id in Run(s, steps).pile.hoard
            && SealsCommitted(prevouts, bundle, c, Run(s, steps).pile.hoard[published.id]))
  {
    var steps := StepsFor(calls, c, published);
    AwaitsCalls(s, prevouts, proofs, bundle, calls, c, published);
    LegalIffTaken(s, calls, c, published);
    BundleTaken(s.pile, prevouts, proofs, bundle, calls, c, published);
    if steps != [] {
      assert steps[0] in steps;
    }
  }

  // ---------------------------------------------------------------- the ledger stays in step

  /** None of the operations included is one whose witnesses are all archived. */
  ghost predicate NoneFlips(v: PileView, steps: seq<Step>, w: Wid)
    requires forall a :: a in steps ==> a.Include?
  {
    forall a :: a in steps ==> !Flips(v, a.opid, w)
  }

  lemma NoneFlipsAfter(s: RunState, steps: seq<Step>, published: PubWitness)
    requires Good(s) && steps != [] && AllUnder(s, steps, published) && Enabled(s, steps[0])
    requires NoneFlips(s.pile, steps, published.id)
    ensures NoneFlips(Apply(s, steps[0]).pile, steps[1..], published.id)
  {
  }

  lemma {:induction false} IncludesAreQuiet(s: RunState, steps: seq<Step>, published: PubWitness)
    requires Good(s) && AllUnder(s, steps, published) && Legal(s, steps) && NoneFlips(s.pile, steps, published.id)
    ensures Quiet(s, steps)
    decreases |steps|
  {
    if steps != [] {
      assert steps[0] in steps;
      StepKeepsGood(s, steps[0]);
      NoneFlipsAfter(s, steps, published);
      IncludesAreQuiet(Apply(s, steps[0]), steps[1..], published);
    }
  }

  /** Including a bundle keeps the ledger in step, if none of its operations had lost all its witnesses. */
  lemma BundleStaysInStep(s: RunState, prevouts: seq<Outpoint>, proofs: Proofs, bundle: seq<Prefab>,
                          calls: seq<Inclusion>, c: ContractId, published: PubWitness)
    requires CallsFor(prevouts, proofs, bundle, calls) && Awaits(s, bundle, c, published.id) && InStep(s)
    requires Legal(s, StepsFor(calls, c, published))
    requires forall p :: p in bundle && p.operation.contractId == c ==> !Flips(s.pile, p.operation.opid, published.id)
    ensures InStep(Run(s, StepsFor(calls, c, published)))
  {
    var steps := StepsFor(calls, c, published);
    AwaitsCalls(s, prevouts, proofs, bundle, calls, c, published);
    CallOf(prevouts, proofs, bundle, calls);
    IncludesAreQuiet(s, steps, published);
    QuietRunEndsInStep(s, steps);
  }

  /** The blank operations of a bundle never stand in each other's way. */
  lemma BlanksNeverClash(h: Payments.Hashes, contracts: map<ContractId, WalletContract>,
                         requests: seq<OpRequest<Payments.PrefabSeal>>, change: Option<Vout>, ps: seq<Prefab>,
                         bundle: seq<Prefab>, c: ContractId)
    requires Complete(h, contracts, requests, change, ps, Elems(bundle))
    requires c in contracts && c !in Ids(requests)
    ensures NoSharedSeal(bundle, c)
  {
    var prefabs := Elems(bundle);
    assert TreatedRight(h, c, contracts[c], AllClosed(requests), change, prefabs);
    forall p, q | p in prefabs && q in prefabs && p.operation.contractId == c && q.operation.contractId == c
      ensures p == q
    {
      TreatedHasOne(h, c, contracts[c], AllClosed(requests), change, prefabs, p, q);
    }
    assert forall p :: p in bundle ==> p in prefabs;
  }
}
