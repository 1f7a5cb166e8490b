/** A contract: its witness tables and its ledger, updated together (src/contract.rs). */
module Contracts {
  import opened Wrappers
  import opened IndexMaps
  import opened Seals
  import opened Status
  import opened Piles
  import opened Reorg
  import opened Runs
  import opened History

  /** Which of the two ledger calls of a sync fail; their bodies are not part of this model. */
  datatype Faults = Faults(rollback: bool, forward: bool)

  datatype SyncOutcome = Synchronised | RollbackFailed | ForwardFailed

  /** The part of the ledger that `sync` and `call` address: the operations it knows and those it
      holds as applied. A failing call changes nothing. */
  class Ledger {
    var ops: set<Opid>
    var live: set<Opid>

    constructor (genesis: Opid)
      ensures ops == live == {genesis}
    {
      ops, live := {genesis}, {genesis};
    }

    method Rollback(opids: seq<Opid>, fails: bool) returns (ok: bool)
      modifies this`live
      ensures ok == !fails
      ensures live == if ok then old(live) - Elems(opids) else old(live)
    {
      ok := !fails;
      if ok { live := live - Elems(opids); }
    }

    method Forward(opids: seq<Opid>, fails: bool) returns (ok: bool)
      modifies this`live
      ensures ok == !fails
      ensures live == if ok then old(live) + Elems(opids) else old(live)
    {
      ok := !fails;
      if ok { live := live + Elems(opids); }
    }

    method Call(opid: Opid)
      modifies this
      ensures ops == old(ops) + {opid} && live == old(live) + {opid}
    {
      ops, live := ops + {opid}, live + {opid};
    }
  }

  class Contract {
    const pile: PileFs
    const ledger: Ledger

    constructor Issue(genesis: Opid, seals: map<U16, WTxoSeal>)
      ensures fresh(pile) && fresh(ledger)
      ensures State() == RunState({genesis}, EMPTY.AddSeals(genesis, seals), {genesis})
      ensures Good(State()) && InStep(State())
    {
      pile := new PileFs();
      ledger := new Ledger(genesis);
      new;
      pile.AddSeals(genesis, seals);
      assert forall x :: pile.View().OpWids(x) == EMPTY.OpWids(x);
    }

    function State(): RunState
      reads pile, ledger
    {
      RunState(ledger.ops, pile.View(), ledger.live)
    }

    // -------------------------------------------------------------- sync, step by step

    /** Step 1: the effective changes, the last one listed for each witness. `conflict` records
        whether the debug assertion on repeated witnesses fails. */
    method SanitizeChanges(changed: seq<Change>) returns (affected: IndexMap<Wid, WitnessStatus>, conflict: bool)
      requires pile.Valid()
      ensures conflict <==> Conflict(pile.mine, changed)
      ensures Sanitized(pile.mine, changed, affected)
    {
      affected, conflict := IndexMap([], map[]), false;
      for i := 0 to |changed|
        invariant conflict <==> Conflict(pile.mine, changed[..i])
        invariant Sanitized(pile.mine, changed[..i], affected)
      {
        var (wid, status) := changed[i];
        assert changed[..i + 1] == changed[..i] + [(wid, status)];
        ConflictStep(pile.mine, changed[..i], (wid, status));
        SanitizeStep(pile.mine, changed[..i], affected, (wid, status));
        if !pile.HasWitness(wid) {
          continue;
        }
        var prevStatus := pile.mine[wid];
        if status == prevStatus {
          continue;
        }
        conflict := conflict || (wid in affected.vals && affected.vals[wid] != status);
        affected := Insert(affected, wid, status);
      }
      assert changed[..|changed|] == changed;
    }

    /** Step 2: the operations under the affected witnesses, with their status before the sync. */
    method AffectedOps(affected: IndexMap<Wid, WitnessStatus>) returns (ops: IndexMap<Opid, WitnessStatus>)
      requires pile.Valid() && pile.View().Resolved() && WellFormed(affected)
      ensures Records(pile.View(), ops, ops.vals.Keys)
      ensures forall o :: o in ops.vals <==> exists w :: w in affected.vals && o in pile.View().WidOps(w)
    {
      var v := pile.View();
      ops := IndexMap([], map[]);
      for i := 0 to |affected.keys|
        invariant Records(v, ops, ops.vals.Keys)
        invariant forall o :: o in ops.vals <==> exists k :: 0 <= k < i && o in v.WidOps(affected.keys[k])
      {
        ops := AddOps(v, ops, v.WidOps(affected.keys[i]));
      }
      forall o ensures o in ops.vals <==> exists w :: w in affected.vals && o in v.WidOps(w) {
        if w :| w in affected.vals && o in v.WidOps(w) {
          assert w in affected.keys;
        }
      }
    }

    method AddOps(v: PileView, before: IndexMap<Opid, WitnessStatus>, opids: seq<Opid>)
      returns (ops: IndexMap<Opid, WitnessStatus>)
      requires v.Resolved() && Records(v, before, before.vals.Keys)
      ensures Records(v, ops, before.vals.Keys + Elems(opids))
    {
      ops := before;
      for i := 0 to |opids|
        invariant Records(v, ops, before.vals.Keys + Elems(opids[..i]))
      {
        var opStatus := v.OpStatus(opids[i]);
        // The debug assertion on a repeated operation: its recorded status is the same.
        assert opids[i] in ops.vals ==> ops.vals[opids[i]] == opStatus;
        RecordStep(v, ops, before.vals.Keys + Elems(opids[..i]), opids[i]);
        ElemsStep(opids, i);
        ops := Insert(ops, opids[i], opStatus);
      }
      assert opids[..|opids|] == opids;
    }

    /** Step 3: the new statuses of the affected witnesses. */
    method UpdateStatuses(affected: IndexMap<Wid, WitnessStatus>)
      requires WellFormed(affected) && affected.vals.Keys <= pile.mine.Keys
      modifies pile`mine
      ensures pile.mine == old(pile.mine) + affected.vals
    {
      for i := 0 to |affected.keys|
        invariant pile.mine.Keys == old(pile.mine).Keys
        invariant forall w :: w in pile.mine ==>
          pile.mine[w] == if w in affected.keys[..i] then affected.vals[w] else old(pile.mine)[w]
      {
        var w := affected.keys[i];
        assert w in affected.keys;
        assert affected.keys[..i + 1] == affected.keys[..i] + [w];
        pile.UpdateWitnessStatus(w, affected.vals[w]);
      }
      assert affected.keys[..|affected.keys|] == affected.keys;
    }

    /** Step 4: the operations whose validity changed, in the order they were found. */
    method Partition(ops: IndexMap<Opid, WitnessStatus>) returns (rollBack: seq<Opid>, forward: seq<Opid>)
      requires pile.View().Resolved() && WellFormed(ops)
      ensures NoDuplicates(rollBack) && NoDuplicates(forward)
      ensures forall o :: o in rollBack <==>
        o in ops.vals && ops.vals[o].IsValid() && !pile.View().OpStatus(o).IsValid()
      ensures forall o :: o in forward <==>
        o in ops.vals && !ops.vals[o].IsValid() && pile.View().OpStatus(o).IsValid()
    {
      var v := pile.View();
      rollBack, forward := [], [];
      for i := 0 to |ops.keys|
        invariant NoDuplicates(rollBack) && NoDuplicates(forward)
        invariant forall o :: o in rollBack <==>
          o in ops.keys[..i] && o in ops.vals && ops.vals[o].IsValid() && !v.OpStatus(o).IsValid()
        invariant forall o :: o in forward <==>
          o in ops.keys[..i] && o in ops.vals && !ops.vals[o].IsValid() && v.OpStatus(o).IsValid()
      {
        var opid := ops.keys[i];
        assert opid in ops.keys;
        assert ops.keys[..i + 1] == ops.keys[..i] + [opid];
        var newStatus := v.OpStatus(opid);
        if ops.vals[opid].IsValid() == newStatus.IsValid() {
          continue;
        }
        if newStatus.IsValid() {
          InsertNewElems(forward, opid);
          forward := InsertNew(forward, opid);
        } else {
          InsertNewElems(rollBack, opid);
          rollBack := InsertNew(rollBack, opid);
        }
      }
      assert ops.keys[..|ops.keys|] == ops.keys;
      // The debug assertion on the two sets: they share no operation.
      assert forall o :: !(o in forward && o in rollBack);
    }

    /** Steps 1 to 4: the tables are brought up to date and the flipped operations found. */
    method UpdateTables(changed: seq<Change>) returns (rollBack: seq<Opid>, forward: seq<Opid>, conflict: bool)
      requires pile.Valid() && pile.View().Resolved()
      modifies pile`mine
      ensures conflict <==> old(Conflict(pile.mine, changed))
      ensures pile.View() == Synced(old(pile.View()), changed) && pile.View().Resolved()
      ensures NoDuplicates(rollBack) && Elems(rollBack) == Lost(old(pile.View()), pile.View())
      ensures NoDuplicates(forward) && Elems(forward) == Gained(old(pile.View()), pile.View())
    {
      ghost var before := pile.View();
      SyncedResolved(before, changed);
      var affected;
      affected, conflict := SanitizeChanges(changed);
      var ops := AffectedOps(affected);
      UpdateStatuses(affected);
      assert pile.mine == Synced(before, changed).mine;
      assert pile.View() == Synced(before, changed);
      rollBack, forward := Partition(ops);
      FlipsAreAffected(before, changed, affected.vals, ops.vals.Keys);
      FlipSets(before, pile.View(), ops.vals, rollBack, forward);
    }

    /** Synchronises the witness statuses. It looks at the changed witnesses only, and tells the ledger
        exactly which operations flipped. */
    method Sync(changed: seq<Change>, faults: Faults)
      returns (outcome: SyncOutcome, rollBack: seq<Opid>, forward: seq<Opid>, conflict: bool)
      requires pile.Valid() && pile.View().Resolved()
      modifies pile`mine, pile`disk, ledger`live
      ensures conflict <==> old(Conflict(pile.mine, changed))
      ensures pile.View() == Synced(old(pile.View()), changed) && pile.View().Resolved()
      ensures NoDuplicates(rollBack) && Elems(rollBack) == Lost(old(pile.View()), pile.View())
      ensures NoDuplicates(forward) && Elems(forward) == Gained(old(pile.View()), pile.View())
      ensures outcome == if faults.rollback then RollbackFailed
                         else if faults.forward then ForwardFailed else Synchronised
      ensures ledger.live == match outcome
        case RollbackFailed => old(ledger.live)
        case ForwardFailed => old(ledger.live) - Elems(rollBack)
        case Synchronised => old(ledger.live) - Elems(rollBack) + Elems(forward)
      ensures pile.disk == if outcome.RollbackFailed? then old(pile.disk) else pile.mine
    {
      rollBack, forward, conflict := UpdateTables(changed);
      outcome := Commit(rollBack, forward, faults);
    }

    /** A sync whose ledger calls succeed is the `Sync` step of a run. */
    method SyncStep(changed: seq<Change>)
      requires Good(State()) && Enabled(State(), Step.Sync(changed))
      modifies pile`mine, pile`disk, ledger`live
      ensures State() == Apply(old(State()), Step.Sync(changed))
    {
      var _, _, _, _ := Sync(changed, Faults(false, false));
    }

    /** A sync whose rollback fails leaves the ledger and the disk behind the tables in memory. */
    method SyncUnheard(changed: seq<Change>)
      requires Good(State()) && Enabled(State(), Step.Sync(changed))
      modifies pile`mine, pile`disk, ledger`live
      ensures State() == Unheard(old(State()), changed)
      ensures pile.disk == old(pile.disk)
    {
      var _, _, _, _ := Sync(changed, Faults(true, false));
    }

    /** Step 5: the ledger calls, each followed by a commit of the statuses. */
    method Commit(rollBack: seq<Opid>, forward: seq<Opid>, faults: Faults) returns (outcome: SyncOutcome)
      modifies pile`disk, ledger`live
      ensures outcome == if faults.rollback then RollbackFailed
                         else if faults.forward then ForwardFailed else Synchronised
      ensures ledger.live == match outcome
        case RollbackFailed => old(ledger.live)
        case ForwardFailed => old(ledger.live) - Elems(rollBack)
        case Synchronised => old(ledger.live) - Elems(rollBack) + Elems(forward)
      ensures pile.disk == if outcome.RollbackFailed? then old(pile.disk) else pile.mine
    {
      var ok := ledger.Rollback(rollBack, faults.rollback);
      if !ok {
        return RollbackFailed;
      }
      pile.CommitTransaction();
      ok := ledger.Forward(forward, faults.forward);
      if !ok {
        return ForwardFailed;
      }
      pile.CommitTransaction();
      return Synchronised;
    }

    // -------------------------------------------------------------- calls and inclusions

    /** Calls the ledger, which answers with an operation, and stores its seals. For a new operation this is
        the call step of a run. */
    method Call(opid: Opid, seals: map<U16, WTxoSeal>)
      modifies pile`keep, ledger
      ensures ledger.ops == old(ledger.ops) + {opid} && ledger.live == old(ledger.live) + {opid}
      ensures pile.View() == old(pile.View()).AddSeals(opid, seals)
      ensures old(Good(State()) && Enabled(State(), Step.Call(opid, seals))) ==>
        State() == Apply(old(State()), Step.Call(opid, seals))
    {
      ledger.Call(opid);
      pile.AddSeals(opid, seals);
    }

    /** Includes an operation with its witness; the anchor is merged with the one already stored, and panics
        if it does not merge. For an operation of the ledger this is the inclusion step of a run. */
    method Include(opid: Opid, anchor: Anchor, published: PubWitness)
      requires published.id in pile.hoard ==> pile.hoard[published.id].Compatible(anchor)
      modifies pile
      ensures pile.View() == Included(old(pile.View()), opid, anchor, published)
      ensures pile.disk == pile.mine
      ensures old(Good(State()) && Enabled(State(), Step.Include(opid, anchor, published))) ==>
        State() == Apply(old(State()), Step.Include(opid, anchor, published))
    {
      var wid := published.id;
      var stored := anchor;
      if pile.HasWitness(wid) {
        var prevAnchor := pile.hoard[wid];
        if prevAnchor != anchor {
          prevAnchor := prevAnchor.Merge(anchor);
        }
        stored := prevAnchor;
        MergeWithItself(anchor);
      }
      pile.AddWitness(opid, wid, published, stored, Tentative);
      pile.CommitTransaction();
    }

    /** The witness exported with an operation: the one with the best status, unless it is archived. */
    method Retrieve(opid: Opid) returns (r: Option<(PubWitness, Anchor)>)
      requires pile.Valid() && pile.View().Resolved()
      ensures r.Some? <==> pile.View().OpWids(opid) != [] && pile.View().OpStatus(opid).IsValid()
      ensures r.Some? ==>
        var w := r.value.0.id;
        && w in pile.View().OpWids(opid) && pile.mine[w] == pile.View().OpStatus(opid)
        && w in pile.hoard && r.value == (pile.cache[w], pile.hoard[w])
    {
      var v := pile.View();
      LookupsDefined(v);
      var wids := v.OpWids(opid);
      if wids == [] {
        return None;
      }
      var best := wids[0];
      assert v.Statuses(opid)[..1] == [v.mine[best]];
      for i := 1 to |wids|
        invariant best in wids
        invariant v.mine[best] == BestOf(v.Statuses(opid)[..i])
      {
        var wid := wids[i];
        assert v.Statuses(opid)[..i + 1][..i] == v.Statuses(opid)[..i];
        best := if v.mine[best].IsBetter(v.mine[wid]) then best else wid;
      }
      assert v.Statuses(opid)[..|wids|] == v.Statuses(opid);
      if !v.mine[best].IsValid() {
        return None;
      }
      return Some((pile.cache[best], pile.hoard[best]));
    }

    // -------------------------------------------------------------- the contract state

    /** The status of an operation, through the first cache. */
    method CachedStatus(cache: map<Opid, WitnessStatus>, o: Opid)
      returns (status: WitnessStatus, cache': map<Opid, WitnessStatus>)
      requires pile.View().Resolved() && CacheFresh(pile.View(), cache)
      ensures status == pile.View().OpStatus(o) && CacheFresh(pile.View(), cache')
    {
      cache' := if o in cache then cache else cache[o := pile.View().OpStatus(o)];
      status := cache'[o];
    }

    /** The status of an element, through the ancestor cache. */
    method GetStatus(ancestors: Opid -> seq<Opid>, cache: map<Opid, WitnessStatus>, o: Opid, or_: WitnessStatus)
      returns (status: WitnessStatus, cache': map<Opid, WitnessStatus>)
      requires pile.View().Resolved() && AncestorCacheFresh(pile.View(), ancestors, cache)
      ensures status == ElementStatus(pile.View(), ancestors, o, or_)
      ensures AncestorCacheFresh(pile.View(), ancestors, cache')
    {
      cache' := cache;
      if o !in cache {
        var worst := Genesis;
        var ops := ancestors(o);
        ghost var all := StatusesOf(pile.View(), ops);
        for i := 0 to |ops|
          invariant worst == WorstOf(all[..i])
        {
          assert all[..i + 1][..i] == all[..i];
          worst := worst.Worst(pile.View().OpStatus(ops[i]));
        }
        assert all[..|ops|] == all;
        cache' := cache[o := worst];
      }
      status := cache'[o].Worst(or_);
    }

    /** The contract state shown to the wallet, computed with both caches. */
    method ShownState(ancestors: Opid -> seq<Opid>, ledgerState: LedgerState) returns (r: ContractState)
      requires pile.View().Resolved()
      ensures Shows(pile.View(), ancestors, ledgerState, r)
      ensures r.owned.Keys == ledgerState.owned.Keys && r.immutable.Keys == ledgerState.global.Keys
      ensures r.aggregated == ledgerState.aggregated
    {
      var owned, cache, ancestorCache := ShownOwned(ancestors, ledgerState.owned);
      var immutable := ShownImmutable(ancestors, ledgerState.global, cache, ancestorCache);
      r := ContractState(immutable, owned, ledgerState.aggregated);
    }

    method ShownOwned(ancestors: Opid -> seq<Opid>, cells: map<StateName, Cells>)
      returns (owned: map<StateName, seq<OwnedState>>, cache: map<Opid, WitnessStatus>,
               ancestorCache: map<Opid, WitnessStatus>)
      requires pile.View().Resolved()
      ensures owned == map n | n in cells :: OwnedOf(pile.View(), ancestors, cells[n])
      ensures CacheFresh(pile.View(), cache) && AncestorCacheFresh(pile.View(), ancestors, ancestorCache)
    {
      var v := pile.View();
      owned, cache, ancestorCache := map[], map[], map[];
      var names := cells.Keys;
      while names != {}
        invariant CacheFresh(v, cache) && AncestorCacheFresh(v, ancestors, ancestorCache)
        invariant names <= cells.Keys && owned.Keys == cells.Keys - names
        invariant forall n :: n in owned ==> owned[n] == OwnedOf(v, ancestors, cells[n])
      {
        var name :| name in names;
        var state;
        state, cache, ancestorCache := OwnedEntries(ancestors, cells[name], cache, ancestorCache);
        owned := owned[name := state];
        names := names - {name};
      }
    }

    method ShownImmutable(ancestors: Opid -> seq<Opid>, cells: map<StateName, Cells>,
                          cache: map<Opid, WitnessStatus>, ancestorCache: map<Opid, WitnessStatus>)
      returns (immutable: map<StateName, seq<ImmutableState>>)
      requires pile.View().Resolved()
      requires CacheFresh(pile.View(), cache) && AncestorCacheFresh(pile.View(), ancestors, ancestorCache)
      ensures immutable == map n | n in cells :: ImmutableOf(pile.View(), ancestors, cells[n])
    {
      var v := pile.View();
      immutable := map[];
      var names, statuses, worst := cells.Keys, cache, ancestorCache;
      while names != {}
        invariant CacheFresh(v, statuses) && AncestorCacheFresh(v, ancestors, worst)
        invariant names <= cells.Keys && immutable.Keys == cells.Keys - names
        invariant forall n :: n in immutable ==> immutable[n] == ImmutableOf(v, ancestors, cells[n])
      {
        var name :| name in names;
        var state;
        state, statuses, worst := ImmutableEntries(ancestors, cells[name], statuses, worst);
        immutable := immutable[name := state];
        names := names - {name};
      }
    }

    method OwnedEntries(ancestors: Opid -> seq<Opid>, cells: Cells,
                        cache: map<Opid, WitnessStatus>, ancestorCache: map<Opid, WitnessStatus>)
      returns (state: seq<OwnedState>, cache': map<Opid, WitnessStatus>, ancestorCache': map<Opid, WitnessStatus>)
      requires pile.View().Resolved()
      requires CacheFresh(pile.View(), cache) && AncestorCacheFresh(pile.View(), ancestors, ancestorCache)
      ensures state == OwnedOf(pile.View(), ancestors, cells)
      ensures CacheFresh(pile.View(), cache') && AncestorCacheFresh(pile.View(), ancestors, ancestorCache')
    {
      var v := pile.View();
      state, cache', ancestorCache' := [], cache, ancestorCache;
      for i := 0 to |cells|
        invariant state == OwnedOf(v, ancestors, cells[..i])
        invariant CacheFresh(v, cache') && AncestorCacheFresh(v, ancestors, ancestorCache')
      {
        var (addr, data) := cells[i];
        assert cells[..i + 1][..i] == cells[..i];
        if addr !in pile.keep {
          continue;
        }
        var seal := pile.keep[addr];
        match seal.ToSrc()
        case Some(src) =>
          var own, status;
          own, cache' := CachedStatus(cache', addr.opid);
          status, ancestorCache' := GetStatus(ancestors, ancestorCache', addr.opid, own);
          state := state + [OwnedState(addr, src, data, status)];
        case None =>
          var copies;
          copies, ancestorCache' := CopiesByWitness(ancestors, addr, data, ancestorCache');
          state := state + copies;
      }
      assert cells[..|cells|] == cells;
    }

    /** One copy of a cell for each of the witnesses of its operation. */
    method CopiesByWitness(ancestors: Opid -> seq<Opid>, addr: CellAddr, data: Data,
                           ancestorCache: map<Opid, WitnessStatus>)
      returns (copies: seq<OwnedState>, ancestorCache': map<Opid, WitnessStatus>)
      requires pile.View().Resolved() && addr in pile.keep
      requires AncestorCacheFresh(pile.View(), ancestors, ancestorCache)
      ensures copies == WitnessEntries(pile.View(), ancestors, addr, data, pile.View().OpWids(addr.opid))
      ensures AncestorCacheFresh(pile.View(), ancestors, ancestorCache')
    {
      var v := pile.View();
      var wids := v.OpWids(addr.opid);
      ghost var entries := WitnessEntries(v, ancestors, addr, data, wids);
      copies, ancestorCache' := [], ancestorCache;
      for i := 0 to |wids|
        invariant copies == entries[..i]
        invariant AncestorCacheFresh(v, ancestors, ancestorCache')
      {
        var status;
        status, ancestorCache' := GetStatus(ancestors, ancestorCache', addr.opid, v.mine[wids[i]]);
        copies := copies + [OwnedState(addr, v.keep[addr].Resolve(wids[i]), data, status)];
      }
    }

    method ImmutableEntries(ancestors: Opid -> seq<Opid>, cells: Cells,
                            cache: map<Opid, WitnessStatus>, ancestorCache: map<Opid, WitnessStatus>)
      returns (state: seq<ImmutableState>, cache': map<Opid, WitnessStatus>, ancestorCache': map<Opid, WitnessStatus>)
      requires pile.View().Resolved()
      requires CacheFresh(pile.View(), cache) && AncestorCacheFresh(pile.View(), ancestors, ancestorCache)
      ensures state == ImmutableOf(pile.View(), ancestors, cells)
      ensures CacheFresh(pile.View(), cache') && AncestorCacheFresh(pile.View(), ancestors, ancestorCache')
    {
      var v := pile.View();
      state, cache', ancestorCache' := [], cache, ancestorCache;
      for i := 0 to |cells|
        invariant state == ImmutableOf(v, ancestors, cells)[..i]
        invariant CacheFresh(v, cache') && AncestorCacheFresh(v, ancestors, ancestorCache')
      {
        var (addr, data) := cells[i];
        var own, status;
        own, cache' := CachedStatus(cache', addr.opid);
        status, ancestorCache' := GetStatus(ancestors, ancestorCache', addr.opid, own);
        state := state + [ImmutableState(addr, data, status)];
      }
    }
  }

  /** The effective changes found in a list, the last one for each witness. */
  ghost predicate Sanitized(mine: map<Wid, WitnessStatus>, changed: seq<Change>,
                            affected: IndexMap<Wid, WitnessStatus>) {
    && WellFormed(affected)
    && (forall w :: w in affected.vals <==> w in mine && Target(mine, changed, w).Some?)
    && (forall w :: w in affected.vals ==> Target(mine, changed, w) == Some(affected.vals[w]))
  }

  lemma SanitizeStep(mine: map<Wid, WitnessStatus>, changed: seq<Change>, affected: IndexMap<Wid, WitnessStatus>,
                     c: Change)
    requires Sanitized(mine, changed, affected)
    ensures Sanitized(mine, changed + [c], if Effective(mine, c) then Insert(affected, c.0, c.1) else affected)
  {
  }

  /** The recorded operations are `opids`, each with its present status. */
  ghost predicate Records(v: PileView, ops: IndexMap<Opid, WitnessStatus>, opids: set<Opid>)
    requires v.Resolved()
  {
    WellFormed(ops) && ops.vals.Keys == opids && forall o :: o in ops.vals ==> ops.vals[o] == v.OpStatus(o)
  }

  lemma RecordStep(v: PileView, ops: IndexMap<Opid, WitnessStatus>, opids: set<Opid>, o: Opid)
    requires v.Resolved() && Records(v, ops, opids)
    ensures Records(v, Insert(ops, o, v.OpStatus(o)), opids + {o})
  {
    InsertWellFormed(ops, o, v.OpStatus(o));
  }

  lemma ElemsStep<T>(s: seq<T>, i: nat)
    requires i < |s|
    ensures Elems(s[..i + 1]) == Elems(s[..i]) + {s[i]}
  {
    assert s[..i + 1] == s[..i] + [s[i]];
  }

  ghost predicate CacheFresh(v: PileView, cache: map<Opid, WitnessStatus>)
    requires v.Resolved()
  {
    forall o :: o in cache ==> cache[o] == v.OpStatus(o)
  }

  ghost predicate AncestorCacheFresh(v: PileView, ancestors: Opid -> seq<Opid>, cache: map<Opid, WitnessStatus>)
    requires v.Resolved()
  {
    forall o :: o in cache ==> cache[o] == AncestorStatus(v, ancestors, o)
  }

  lemma MergeWithItself(anchor: Anchor)
    ensures anchor.Compatible(anchor) && anchor.Merge(anchor) == anchor
  {
    assert anchor.messages + anchor.messages == anchor.messages;
  }

  lemma FlipSets(v: PileView, v': PileView, ops: map<Opid, WitnessStatus>, rollBack: seq<Opid>, forward: seq<Opid>)
    requires v.Resolved() && v'.Resolved() && ops.Keys <= v.index.Keys
    requires forall o :: o in ops ==> ops[o] == v.OpStatus(o)
    requires forall o :: v.OpStatus(o) != v'.OpStatus(o) ==> o in ops
    requires forall o :: o in rollBack <==> o in ops && ops[o].IsValid() && !v'.OpStatus(o).IsValid()
    requires forall o :: o in forward <==> o in ops && !ops[o].IsValid() && v'.OpStatus(o).IsValid()
    ensures Elems(rollBack) == Lost(v, v') && Elems(forward) == Gained(v, v')
  {
  }

  /** Looking at the operations of the changed witnesses alone misses no flip. */
  lemma FlipsAreAffected(v: PileView, changed: seq<Change>, affected: map<Wid, WitnessStatus>, ops: set<Opid>)
    requires v.Valid() && v.Resolved() && Synced(v, changed).Resolved()
    requires forall w :: w in affected <==> w in v.mine && Target(v.mine, changed, w).Some?
    requires forall o :: o in ops <==> exists w :: w in affected && o in v.WidOps(w)
    ensures forall o :: v.OpStatus(o) != Synced(v, changed).OpStatus(o) ==> o in ops
    ensures ops <= v.index.Keys
  {
    LookupsDefined(v);
    var v' := Synced(v, changed);
    forall o | o !in ops ensures v.OpStatus(o) == v'.OpStatus(o) {
      forall w | w in v.OpWids(o) ensures w in v.mine && w in v'.mine && v'.mine[w] == v.mine[w] {
        assert o in v.WidOps(w);
      }
      UntouchedStatus(v, v', o);
    }
  }
}
