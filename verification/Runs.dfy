/** Whole runs of a contract: calls, inclusions and syncs, and what the ledger believes afterwards. */
module Runs {
  import opened Wrappers
  import opened Seals
  import opened Status
  import opened Piles
  import opened Reorg

  /** `ops` are the operations known to the ledger; `live` those it was not told to roll back. */
  datatype RunState = RunState(ops: set<Opid>, pile: PileView, live: set<Opid>)

  datatype Step =
    | Call(opid: Opid, seals: map<U16, WTxoSeal>)
    | Include(opid: Opid, anchor: Anchor, published: PubWitness)
    | Sync(changed: seq<Change>)

  /** The anchor stored by `include`: merged with the one already known for the witness. */
  function StoredAnchor(v: PileView, w: Wid, anchor: Anchor): Anchor
    requires w in v.hoard ==> v.hoard[w].Compatible(anchor)
  {
    if w in v.hoard then v.hoard[w].Merge(anchor) else anchor
  }

  /** The tables after `include`. */
  function Included(v: PileView, o: Opid, anchor: Anchor, published: PubWitness): PileView
    requires published.id in v.hoard ==> v.hoard[published.id].Compatible(anchor)
  {
    v.AddWitness(o, published.id, published, StoredAnchor(v, published.id, anchor), Tentative)
  }

  ghost predicate RegularStatuses(mine: map<Wid, WitnessStatus>) {
    forall w :: w in mine ==> mine[w].Regular()
  }

  ghost predicate Good(s: RunState) {
    && s.pile.Valid() && s.pile.Resolved()
    && s.pile.index.Keys <= s.ops
    && s.live <= s.ops
    && RegularStatuses(s.pile.mine)
  }

  /** What the source demands of each step: a call creates a new operation; the ledger knows an
      included operation and its anchor merges with the stored one. */
  ghost predicate Enabled(s: RunState, step: Step) {
    match step
    case Call(o, _) => o !in s.ops
    case Include(o, anchor, published) =>
      o in s.ops && (published.id in s.pile.hoard ==> s.pile.hoard[published.id].Compatible(anchor))
    case Sync(changed) => forall c :: c in changed ==> c.1.Regular()
  }

  /** One step. A sync tells the ledger to lose and gain exactly the operations that flipped. */
  function Apply(s: RunState, step: Step): RunState
    requires Good(s) && Enabled(s, step)
  {
    match step
    case Call(o, seals) => RunState(s.ops + {o}, s.pile.AddSeals(o, seals), s.live + {o})
    case Include(o, anchor, published) => s.(pile := Included(s.pile, o, anchor, published))
    case Sync(changed) =>
      SyncedValid(s.pile, changed);
      var pile := Synced(s.pile, changed);
      RunState(s.ops, pile, s.live - Lost(s.pile, pile) + Gained(s.pile, pile))
  }

  // ---------------------------------------------------------------- every reachable state

  lemma IncludedGood(s: RunState, o: Opid, anchor: Anchor, published: PubWitness)
    requires Good(s) && Enabled(s, Include(o, anchor, published))
    ensures Good(Apply(s, Include(o, anchor, published)))
  {
    AddWitnessValid(s.pile, o, published, StoredAnchor(s.pile, published.id, anchor), Tentative);
    LookupsDefined(Included(s.pile, o, anchor, published));
  }

  lemma SyncedGood(s: RunState, changed: seq<Change>)
    requires Good(s) && Enabled(s, Sync(changed))
    ensures Good(Apply(s, Sync(changed)))
  {
    SyncedValid(s.pile, changed);
    forall w | w in s.pile.mine ensures SyncedStatus(s.pile.mine, changed, w).Regular() {
      TargetMeaning(s.pile.mine, changed, w);
    }
  }

  lemma CalledGood(s: RunState, o: Opid, seals: map<U16, WTxoSeal>)
    requires Good(s) && Enabled(s, Call(o, seals))
    ensures Good(Apply(s, Call(o, seals)))
  {
    assert forall x :: s.pile.AddSeals(o, seals).OpWids(x) == s.pile.OpWids(x);
  }

  /** Every step keeps the tables consistent, whatever the order of steps. */
  lemma StepKeepsGood(s: RunState, step: Step)
    requires Good(s) && Enabled(s, step)
    ensures Good(Apply(s, step))
  {
    match step
    case Call(o, seals) => CalledGood(s, o, seals);
    case Include(o, anchor, published) => IncludedGood(s, o, anchor, published);
    case Sync(changed) => SyncedGood(s, changed);
  }

  ghost predicate Legal(s: RunState, steps: seq<Step>)
    requires Good(s)
    decreases |steps|
  {
    steps == [] || (Enabled(s, steps[0]) && (StepKeepsGood(s, steps[0]); Legal(Apply(s, steps[0]), steps[1..])))
  }

  ghost function Run(s: RunState, steps: seq<Step>): (r: RunState)
    requires Good(s) && Legal(s, steps)
    ensures Good(r)
    decreases |steps|
  {
    if steps == [] then s
    else
      StepKeepsGood(s, steps[0]);
      Run(Apply(s, steps[0]), steps[1..])
  }

  /** One more step at the end of a run. */
  lemma {:induction false} RunAppend(s: RunState, steps: seq<Step>, a: Step)
    requires Good(s) && Legal(s, steps)
    ensures Legal(s, steps + [a]) <==> Enabled(Run(s, steps), a)
    ensures Legal(s, steps + [a]) ==> Run(s, steps + [a]) == Apply(Run(s, steps), a)
    decreases |steps|
  {
    var more := steps + [a];
    if steps == [] {
      assert more == [a] && more[1..] == [];
      if Enabled(s, a) {
        StepKeepsGood(s, a);
      }
    } else {
      StepKeepsGood(s, steps[0]);
      RunAppend(Apply(s, steps[0]), steps[1..], a);
      assert more[1..] == steps[1..] + [a];
    }
  }

  // ---------------------------------------------------------------- the ledger and the tables

  /** The operations on which the ledger and the witness tables disagree. */
  ghost function Drift(s: RunState): set<Opid>
    requires Good(s)
  {
    set o | o in s.ops && (o in s.live <==> !s.pile.OpStatus(o).IsValid())
  }

  /** The ledger holds exactly the known operations whose best witness is valid. */
  ghost predicate InStep(s: RunState)
    requires Good(s)
  {
    s.live == set o | o in s.ops && s.pile.OpStatus(o).IsValid()
  }

  lemma InStepIsNoDrift(s: RunState)
    requires Good(s)
    ensures InStep(s) <==> Drift(s) == {}
  {
    if Drift(s) == {} {
      forall o ensures o in s.live <==> o in s.ops && s.pile.OpStatus(o).IsValid() {
        assert o !in Drift(s);
      }
    }
  }

  predicate StoredArchived(v: PileView, w: Wid) { w in v.mine && v.mine[w].Archived? }

  /** Whether including witness `w` for `o` flips the validity of `o`: the operation was held
      archived by all of its witnesses and `w` is not archived, or it had none and `w` is. */
  predicate Flips(v: PileView, o: Opid, w: Wid) {
    if v.OpWids(o) == [] then StoredArchived(v, w)
    else (forall x :: x in v.OpWids(o) ==> StoredArchived(v, x)) && !StoredArchived(v, w)
  }

  /** Adding a witness leaves the status of every other operation as it was. */
  lemma OthersAfterAdd(v: PileView, v': PileView, o: Opid, x: Opid)
    requires v.Resolved() && v'.Resolved() && x != o
    requires forall y :: y in v.mine ==> y in v'.mine && v'.mine[y] == v.mine[y]
    requires v'.OpWids(x) == v.OpWids(x)
    ensures v'.OpStatus(x) == v.OpStatus(x)
  {
    assert v'.Statuses(x) == v.Statuses(x);
  }

  /** The status of an operation after one more witness was added to it. */
  lemma OwnAfterAdd(v: PileView, v': PileView, o: Opid, w: Wid)
    requires v.Resolved() && v'.Resolved()
    requires forall y :: y in v.mine ==> y in v'.mine && v'.mine[y] == v.mine[y]
    requires v'.OpWids(o) == v.OpWids(o) + [w]
    ensures w in v'.mine
    ensures v'.OpStatus(o) == if v.OpWids(o) == [] then v'.mine[w] else v.OpStatus(o).Best(v'.mine[w])
  {
    assert w in v'.OpWids(o);
    assert v'.Statuses(o) == v.Statuses(o) + [v'.mine[w]];
    assert v'.Statuses(o)[..|v.OpWids(o)|] == v.Statuses(o);
  }

  /** Inclusion gives a new witness the `Tentative` status, keeps every stored status and touches the
      index of its own operation only. */
  lemma IncludedTables(s: RunState, o: Opid, anchor: Anchor, published: PubWitness)
    requires Good(s) && Enabled(s, Include(o, anchor, published))
    ensures var v := Included(s.pile, o, anchor, published);
            && v.Resolved()
            && (forall y :: y in s.pile.mine ==> y in v.mine && v.mine[y] == s.pile.mine[y])
            && published.id in v.mine
            && (published.id !in s.pile.mine ==> v.mine[published.id] == Tentative)
            && v.OpWids(o) == s.pile.OpWids(o) + [published.id]
            && forall x :: x != o ==> v.OpWids(x) == s.pile.OpWids(x)
  {
    IncludedGood(s, o, anchor, published);
  }

  lemma OpValidity(v: PileView, o: Opid)
    requires v.Resolved() && RegularStatuses(v.mine)
    ensures v.OpStatus(o).IsValid() <==>
            v.OpWids(o) == [] || exists w :: w in v.OpWids(o) && !StoredArchived(v, w)
  {
    OpStatusIsBest(v, o);
    if w :| w in v.OpWids(o) && !StoredArchived(v, w) {
      assert v.mine[w].QuasiHeight() < U64_MAX;
    }
  }

  /** An inclusion changes the validity of its own operation only, and exactly when `Flips` says so. */
  lemma IncludeFlips(s: RunState, o: Opid, anchor: Anchor, published: PubWitness, x: Opid)
    requires Good(s) && Enabled(s, Include(o, anchor, published))
    ensures var v := Included(s.pile, o, anchor, published);
            && v.Resolved()
            && (v.OpStatus(x).IsValid() != s.pile.OpStatus(x).IsValid() <==> x == o && Flips(s.pile, o, published.id))
  {
    IncludedTables(s, o, anchor, published);
    var v := Included(s.pile, o, anchor, published);
    if x != o {
      OthersAfterAdd(s.pile, v, o, x);
    } else {
      OwnAfterAdd(s.pile, v, o, published.id);
      OpValidity(s.pile, o);
      OpStatusIsBest(s.pile, o);
      BestValidity(s.pile.OpStatus(o), v.mine[published.id]);
    }
  }

  lemma BestValidity(a: WitnessStatus, b: WitnessStatus)
    requires a.Regular() && b.Regular()
    ensures a.Best(b).IsValid() <==> a.IsValid() || b.IsValid()
  {
  }

  /** A sync never creates disagreement, and settles it for every operation it flips. */
  lemma SyncDrift(s: RunState, changed: seq<Change>)
    requires Good(s) && Enabled(s, Sync(changed))
    ensures var s' := Apply(s, Sync(changed));
            Good(s') && Drift(s') == Drift(s) - Lost(s.pile, s'.pile) - Gained(s.pile, s'.pile)
  {
    SyncedGood(s, changed);
    var s' := Apply(s, Sync(changed));
    forall o | o in s.ops && o !in s.pile.index ensures s'.pile.OpStatus(o) == s.pile.OpStatus(o) {
      UntouchedStatus(s.pile, s'.pile, o);
    }
  }

  /** An inclusion toggles disagreement about its operation exactly when it flips it. */
  lemma IncludeDrift(s: RunState, o: Opid, anchor: Anchor, published: PubWitness)
    requires Good(s) && Enabled(s, Include(o, anchor, published))
    ensures var s' := Apply(s, Include(o, anchor, published));
            && Good(s')
            && forall x :: x in s.ops ==>
                 (x in Drift(s') <==> (x in Drift(s) <==> !(x == o && Flips(s.pile, o, published.id))))
  {
    IncludedGood(s, o, anchor, published);
    var s' := Apply(s, Include(o, anchor, published));
    forall x | x in s.ops
      ensures x in Drift(s') <==> (x in Drift(s) <==> !(x == o && Flips(s.pile, o, published.id)))
    {
      IncludeFlips(s, o, anchor, published, x);
    }
  }

  lemma CallDrift(s: RunState, o: Opid, seals: map<U16, WTxoSeal>)
    requires Good(s) && Enabled(s, Call(o, seals))
    ensures Good(Apply(s, Call(o, seals))) && Drift(Apply(s, Call(o, seals))) == Drift(s)
  {
    CalledGood(s, o, seals);
    var s' := Apply(s, Call(o, seals));
    forall x ensures s'.pile.OpStatus(x) == s.pile.OpStatus(x) {
      assert s'.pile.OpWids(x) == s.pile.OpWids(x);
      assert s'.pile.Statuses(x) == s.pile.Statuses(x);
    }
    assert o !in s.pile.index;
  }

  // ---------------------------------------------------------------- a sync whose ledger call fails

  /** The tables are brought up to date, the ledger is not told. */
  function Unheard(s: RunState, changed: seq<Change>): RunState { s.(pile := Synced(s.pile, changed)) }

  lemma UnheardGood(s: RunState, changed: seq<Change>)
    requires Good(s) && Enabled(s, Sync(changed))
    ensures Good(Unheard(s, changed))
  {
    SyncedGood(s, changed);
  }

  /** When the rollback fails, ledger and tables disagree on exactly the operations that flipped. */
  lemma FailedRollbackDrifts(s: RunState, changed: seq<Change>)
    requires Good(s) && Enabled(s, Sync(changed)) && InStep(s)
    ensures var t := Unheard(s, changed);
      Good(t) && Drift(t) == Lost(s.pile, t.pile) + Gained(s.pile, t.pile)
  {
    UnheardGood(s, changed);
    var t := Unheard(s, changed);
    forall o | o in s.ops && o !in s.pile.index ensures t.pile.OpStatus(o) == s.pile.OpStatus(o) {
      UntouchedStatus(s.pile, t.pile, o);
    }
  }

  /** When only the forwarding fails, on exactly the operations that became valid. */
  lemma FailedForwardDrifts(s: RunState, changed: seq<Change>)
    requires Good(s) && Enabled(s, Sync(changed)) && InStep(s)
    ensures Good(Unheard(s, changed))
    ensures var v := Synced(s.pile, changed);
      var t := RunState(s.ops, v, s.live - Lost(s.pile, v));
      Good(t) && Drift(t) == Gained(s.pile, v)
  {
    FailedRollbackDrifts(s, changed);
    var v := Synced(s.pile, changed);
    var t := RunState(s.ops, v, s.live - Lost(s.pile, v));
    forall o ensures o in Drift(t) <==> o in Gained(s.pile, v) {
      assert o in Drift(Unheard(s, changed)) <==> o in Lost(s.pile, v) + Gained(s.pile, v);
    }
  }

  /** Trying the same list again finds nothing left to do, and leaves the disagreement as it is. */
  lemma RetryDoesNotRepair(s: RunState, changed: seq<Change>)
    requires Good(s) && Enabled(s, Sync(changed)) && InStep(s)
    requires forall w :: w in s.pile.mine ==> ConsistentAt(changed, w)
    ensures Good(Unheard(s, changed)) && Good(Apply(Unheard(s, changed), Sync(changed)))
    ensures Apply(Unheard(s, changed), Sync(changed)) == Unheard(s, changed)
    ensures Drift(Apply(Unheard(s, changed), Sync(changed)))
         == Lost(s.pile, Synced(s.pile, changed)) + Gained(s.pile, Synced(s.pile, changed))
  {
    FailedRollbackDrifts(s, changed);
    SyncIdempotent(s.pile, changed);
  }

  // ---------------------------------------------------------------- whole-run safety

  /** No inclusion of the run flips the validity of its operation. */
  ghost predicate Quiet(s: RunState, steps: seq<Step>)
    requires Good(s) && Legal(s, steps)
    decreases |steps|
  {
    steps == [] ||
    (StepKeepsGood(s, steps[0]);
     && (steps[0].Include? ==> !Flips(s.pile, steps[0].opid, steps[0].published.id))
     && Quiet(Apply(s, steps[0]), steps[1..]))
  }

  /** The ledger and the tables agree at every point of the run. */
  ghost predicate SafeThroughout(s: RunState, steps: seq<Step>)
    requires Good(s) && Legal(s, steps)
    decreases |steps|
  {
    InStep(s) &&
    (steps == [] || (StepKeepsGood(s, steps[0]); SafeThroughout(Apply(s, steps[0]), steps[1..])))
  }

  /** Whole-run safety, exactly: from an agreeing state, the ledger holds the valid operations at
      every point of a run if and only if no inclusion in it flips an operation. */
  lemma {:induction false} RunSafety(s: RunState, steps: seq<Step>)
    requires Good(s) && Legal(s, steps) && InStep(s)
    ensures SafeThroughout(s, steps) <==> Quiet(s, steps)
    decreases |steps|
  {
    if steps != [] {
      var step := steps[0];
      StepKeepsGood(s, step);
      var s' := Apply(s, step);
      InStepIsNoDrift(s);
      InStepIsNoDrift(s');
      match step {
        case Call(o, seals) => CallDrift(s, o, seals);
        case Include(o, anchor, published) => IncludeDrift(s, o, anchor, published);
        case Sync(changed) => SyncDrift(s, changed);
      }
      if InStep(s') {
        assert steps[0].Include? ==> !Flips(s.pile, step.opid, step.published.id);
        RunSafety(s', steps[1..]);
      } else {
        assert !SafeThroughout(s', steps[1..]);
      }
    }
  }

  /** After a quiet run the ledger still holds exactly the valid operations. */
  lemma {:induction false} QuietRunEndsInStep(s: RunState, steps: seq<Step>)
    requires Good(s) && Legal(s, steps) && InStep(s) && Quiet(s, steps)
    ensures InStep(Run(s, steps))
    decreases |steps|
  {
    RunSafety(s, steps);
    if steps != [] {
      StepKeepsGood(s, steps[0]);
      var s' := Apply(s, steps[0]);
      assert SafeThroughout(s', steps[1..]);
      QuietRunEndsInStep(s', steps[1..]);
    }
  }

  /** Anchors are never forgotten: after any run each stored anchor extends the earlier one. */
  lemma {:induction false} AnchorsOnlyGrow(s: RunState, steps: seq<Step>, w: Wid)
    requires Good(s) && Legal(s, steps) && w in s.pile.hoard
    ensures w in Run(s, steps).pile.hoard && Run(s, steps).pile.hoard[w].Extends(s.pile.hoard[w])
    decreases |steps|
  {
    if steps != [] {
      var s' := Apply(s, steps[0]);
      StepGrowsAnchors(s, steps[0], w);
      AnchorsOnlyGrow(s', steps[1..], w);
      ExtendsMore(Run(s', steps[1..]).pile.hoard[w], s'.pile.hoard[w], s.pile.hoard[w]);
    }
  }

  lemma StepGrowsAnchors(s: RunState, step: Step, w: Wid)
    requires Good(s) && Enabled(s, step) && w in s.pile.hoard
    ensures Good(Apply(s, step))
    ensures w in Apply(s, step).pile.hoard && Apply(s, step).pile.hoard[w].Extends(s.pile.hoard[w])
  {
    StepKeepsGood(s, step);
  }

  lemma ExtendsMore(a: Anchor, b: Anchor, c: Anchor)
    requires a.Extends(b) && b.Extends(c)
    ensures a.Extends(c)
  {
  }

  /** A replaced transaction: the witness of an operation is archived, and a second witness is then
      included for it. The tables say the operation is valid, the ledger still holds it rolled back. */
  lemma ReplacedWitnessIsForgotten(s: RunState, o: Opid, anchor: Anchor, published: PubWitness)
    requires Good(s) && InStep(s) && Enabled(s, Include(o, anchor, published))
    requires s.pile.OpWids(o) != [] && published.id !in s.pile.mine
    requires forall w :: w in s.pile.OpWids(o) ==> StoredArchived(s.pile, w)
    ensures var s' := Apply(s, Include(o, anchor, published));
            Good(s') && s'.pile.OpStatus(o).IsValid() && o !in s'.live
  {
    IncludedGood(s, o, anchor, published);
    IncludeFlips(s, o, anchor, published, o);
    OpValidity(s.pile, o);
  }

  /** From then on, no sync that leaves the operation valid makes the ledger take it back. */
  lemma ForgottenIsNotForwarded(s: RunState, o: Opid, changed: seq<Change>)
    requires Good(s) && Enabled(s, Sync(changed)) && o in s.ops
    requires s.pile.OpStatus(o).IsValid() && o !in s.live
    ensures var s' := Apply(s, Sync(changed));
            Good(s') && o !in s'.live
  {
    SyncedGood(s, changed);
  }

  // ---------------------------------------------------------------- a run that ends in disagreement

  lemma AfterCall(s: RunState, o: Opid)
    requires Good(s) && InStep(s) && o !in s.ops
    ensures var t := Apply(s, Call(o, map[]));
      Good(t) && InStep(t) && o in t.ops && t.pile.OpWids(o) == []
      && t.pile.mine == s.pile.mine && t.pile.hoard == s.pile.hoard
  {
  }

  /** The first witness of an operation is published. */
  ghost predicate Anchored(s: RunState, o: Opid, w: Wid) {
    Good(s) && InStep(s) && o in s.ops && s.pile.OpWids(o) == [w]
  }

  lemma QuietInclude(s: RunState, o: Opid, anchor: Anchor, published: PubWitness)
    requires Good(s) && InStep(s) && Enabled(s, Include(o, anchor, published)) && !Flips(s.pile, o, published.id)
    ensures var t := Apply(s, Include(o, anchor, published)); Good(t) && InStep(t)
  {
    var t := Apply(s, Include(o, anchor, published));
    IncludeDrift(s, o, anchor, published);
    InStepIsNoDrift(s);
    InStepIsNoDrift(t);
    forall x | x in s.ops ensures x !in Drift(t) {
      assert x in Drift(t) <==> x in Drift(s);
    }
  }

  lemma AfterInclude(s: RunState, o: Opid, anchor: Anchor, published: PubWitness)
    requires Good(s) && InStep(s) && o in s.ops && s.pile.OpWids(o) == [] && published.id !in s.pile.mine
    ensures Enabled(s, Include(o, anchor, published))
    ensures var t := Apply(s, Include(o, anchor, published));
      Anchored(t, o, published.id) && t.pile.mine.Keys == s.pile.mine.Keys + {published.id}
  {
    QuietInclude(s, o, anchor, published);
    IncludedTables(s, o, anchor, published);
  }

  lemma AfterLoss(s: RunState, o: Opid, w: Wid)
    requires Anchored(s, o, w)
    ensures Enabled(s, Sync([(w, Archived)]))
    ensures var t := Apply(s, Sync([(w, Archived)]));
      Anchored(t, o, w) && StoredArchived(t.pile, w) && t.pile.mine.Keys == s.pile.mine.Keys
  {
    SyncDrift(s, [(w, Archived)]);
    InStepIsNoDrift(s);
    InStepIsNoDrift(Apply(s, Sync([(w, Archived)])));
    assert w in s.pile.OpWids(o);
    TargetMeaning(s.pile.mine, [(w, Archived)], w);
  }

  /** The steps can be taken, and the ledger and the tables disagree after them. */
  ghost predicate EndsInDisagreement(s: RunState, steps: seq<Step>)
    requires Good(s)
  {
    Legal(s, steps) && !InStep(Run(s, steps))
  }

  lemma StepFirst(s: RunState, step: Step, rest: seq<Step>)
    requires Good(s) && Enabled(s, step) && Good(Apply(s, step)) && EndsInDisagreement(Apply(s, step), rest)
    ensures EndsInDisagreement(s, [step] + rest)
  {
    assert ([step] + rest)[1..] == rest;
  }

  lemma DisagreesNow(s: RunState, o: Opid)
    requires Good(s) && o in s.ops && s.pile.OpStatus(o).IsValid() && o !in s.live
    ensures EndsInDisagreement(s, [])
  {
  }

  lemma ReplacedAfterLoss(s: RunState, o: Opid, w: Wid, again: Step)
    requires Anchored(s, o, w) && StoredArchived(s.pile, w)
    requires again.Include? && again.opid == o && again.published.id !in s.pile.mine
    ensures EndsInDisagreement(s, [again])
  {
    ReplacedWitnessIsForgotten(s, o, again.anchor, again.published);
    DisagreesNow(Apply(s, again), o);
    StepFirst(s, again, []);
    assert [again] + [] == [again];
  }

  lemma LostAndReplaced(s: RunState, o: Opid, w: Wid, again: Step)
    requires Anchored(s, o, w) && again.Include? && again.opid == o && again.published.id !in s.pile.mine
    ensures EndsInDisagreement(s, [Sync([(w, Archived)])] + [again])
  {
    AfterLoss(s, o, w);
    ReplacedAfterLoss(Apply(s, Sync([(w, Archived)])), o, w, again);
    StepFirst(s, Sync([(w, Archived)]), [again]);
  }

  lemma IncludedLostAndReplaced(s: RunState, o: Opid, anchor: Anchor, published: PubWitness, again: Step)
    requires Good(s) && InStep(s) && o in s.ops && s.pile.OpWids(o) == [] && published.id !in s.pile.mine
    requires again.Include? && again.opid == o && again.published.id !in s.pile.mine + map[published.id := Tentative]
    ensures EndsInDisagreement(s, [Include(o, anchor, published)] + ([Sync([(published.id, Archived)])] + [again]))
  {
    AfterInclude(s, o, anchor, published);
    LostAndReplaced(Apply(s, Include(o, anchor, published)), o, published.id, again);
    StepFirst(s, Include(o, anchor, published), [Sync([(published.id, Archived)])] + [again]);
  }

  /** From every agreeing state, a new operation whose first witness is lost and then replaced ends in
      disagreement. */
  lemma ReplacementRunDisagrees(s: RunState, o: Opid, anchor: Anchor, p1: PubWitness, p2: PubWitness)
    requires Good(s) && InStep(s) && o !in s.ops
    requires p1.id !in s.pile.mine && p2.id !in s.pile.mine && p1.id != p2.id
    ensures EndsInDisagreement(s,
      [Call(o, map[]), Include(o, anchor, p1), Sync([(p1.id, Archived)]), Include(o, anchor, p2)])
  {
    var again, rest := Include(o, anchor, p2), [Include(o, anchor, p1)]
      + ([Sync([(p1.id, Archived)])] + [Include(o, anchor, p2)]);
    AfterCall(s, o);
    IncludedLostAndReplaced(Apply(s, Call(o, map[])), o, anchor, p1, again);
    StepFirst(s, Call(o, map[]), rest);
    assert [Call(o, map[])] + rest == [Call(o, map[]), Include(o, anchor, p1), Sync([(p1.id, Archived)]), again];
  }
}
