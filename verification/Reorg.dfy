/** What a witness synchronisation means, independently of how it is computed (src/contract.rs, `sync`). */
module Reorg {
  import opened Wrappers
  import opened Seals
  import opened Status
  import opened Piles

  type Change = (Wid, WitnessStatus)

  // ---------------------------------------------------------------- the statuses after a sync

  /** A listed change that differs from the stored status of a known witness. */
  predicate Effective(mine: map<Wid, WitnessStatus>, c: Change) {
    c.0 in mine && c.1 != mine[c.0]
  }

  /** Two effective changes of one witness disagree: this is what the debug assertion rejects. */
  ghost predicate Conflict(mine: map<Wid, WitnessStatus>, changed: seq<Change>) {
    exists i, j :: 0 <= i < j < |changed| && Clash(mine, changed[i], changed[j])
  }

  predicate Clash(mine: map<Wid, WitnessStatus>, c: Change, d: Change) {
    Effective(mine, c) && Effective(mine, d) && c.0 == d.0 && c.1 != d.1
  }

  /** All the changes listed for witness `w` carry one status. */
  ghost predicate ConsistentAt(changed: seq<Change>, w: Wid) {
    forall i, j :: 0 <= i < |changed| && 0 <= j < |changed| && changed[i].0 == w == changed[j].0 ==>
      changed[i].1 == changed[j].1
  }

  ghost predicate Consistent(changed: seq<Change>) {
    forall w :: ConsistentAt(changed, w)
  }

  predicate Lists(changed: seq<Change>, w: Wid) {
    exists i :: 0 <= i < |changed| && changed[i].0 == w
  }

  /** The last effective change listed for `w`, if any. */
  function Target(mine: map<Wid, WitnessStatus>, changed: seq<Change>, w: Wid): Option<WitnessStatus> {
    if changed == [] then None
    else
      var last := changed[|changed| - 1];
      if last.0 == w && Effective(mine, last) then Some(last.1)
      else Target(mine, changed[..|changed| - 1], w)
  }

  function SyncedStatus(mine: map<Wid, WitnessStatus>, changed: seq<Change>, w: Wid): WitnessStatus
    requires w in mine
  {
    Target(mine, changed, w).GetOr(mine[w])
  }

  /** The tables after a sync: only statuses of known witnesses change. */
  function Synced(v: PileView, changed: seq<Change>): PileView {
    v.(mine := map w | w in v.mine :: SyncedStatus(v.mine, changed, w))
  }

  ghost predicate LastEffective(mine: map<Wid, WitnessStatus>, changed: seq<Change>, w: Wid, i: int) {
    && 0 <= i < |changed| && changed[i].0 == w && Effective(mine, changed[i])
    && forall j :: i < j < |changed| && changed[j].0 == w ==> !Effective(mine, changed[j])
  }

  /** A witness keeps its status exactly when no listed change of it is effective; otherwise its new
      status is the last effective one listed. */
  lemma {:induction false} TargetMeaning(mine: map<Wid, WitnessStatus>, changed: seq<Change>, w: Wid)
    ensures Target(mine, changed, w).None? <==>
            forall i :: 0 <= i < |changed| && changed[i].0 == w ==> !Effective(mine, changed[i])
    ensures Target(mine, changed, w).Some? ==>
              exists i :: LastEffective(mine, changed, w, i) && changed[i].1 == Target(mine, changed, w).value
  {
    if changed != [] {
      var n := |changed| - 1;
      if changed[n].0 == w && Effective(mine, changed[n]) {
        assert LastEffective(mine, changed, w, n);
      } else {
        TargetMeaning(mine, changed[..n], w);
        if Target(mine, changed[..n], w).Some? {
          var i :| LastEffective(mine, changed[..n], w, i) && changed[..n][i].1 == Target(mine, changed[..n], w).value;
          assert forall j :: 0 <= j < n ==> changed[j] == changed[..n][j];
          assert LastEffective(mine, changed, w, i);
        } else {
          assert forall j :: 0 <= j < n ==> changed[j] == changed[..n][j];
        }
      }
    }
  }

  /** Where the list is consistent, the sync overrides the status by the listed one. */
  lemma SyncOverrides(mine: map<Wid, WitnessStatus>, changed: seq<Change>, w: Wid, i: int)
    requires w in mine && ConsistentAt(changed, w)
    requires 0 <= i < |changed| && changed[i].0 == w
    ensures SyncedStatus(mine, changed, w) == changed[i].1
  {
    TargetMeaning(mine, changed, w);
  }

  /** A witness that is not listed keeps its status. */
  lemma SyncKeepsUnlisted(mine: map<Wid, WitnessStatus>, changed: seq<Change>, w: Wid)
    requires w in mine && !Lists(changed, w)
    ensures SyncedStatus(mine, changed, w) == mine[w]
  {
    TargetMeaning(mine, changed, w);
  }

  /** For a list without conflicts, every effective change is the one applied. */
  lemma NoConflictTarget(mine: map<Wid, WitnessStatus>, changed: seq<Change>, i: int)
    requires !Conflict(mine, changed)
    requires 0 <= i < |changed| && Effective(mine, changed[i])
    ensures Target(mine, changed, changed[i].0) == Some(changed[i].1)
  {
  }

  /** A further change conflicts exactly when the one recorded so far for its witness differs. */
  lemma ConflictStep(mine: map<Wid, WitnessStatus>, changed: seq<Change>, c: Change)
    ensures Conflict(mine, changed + [c]) <==>
            || Conflict(mine, changed)
            || (Effective(mine, c) && Target(mine, changed, c.0).Some? && Target(mine, changed, c.0) != Some(c.1))
  {
    var longer := changed + [c];
    assert forall i :: 0 <= i < |changed| ==> longer[i] == changed[i];
    if Conflict(mine, changed) {
      var i, j :| 0 <= i < j < |changed| && Clash(mine, changed[i], changed[j]);
      assert Clash(mine, longer[i], longer[j]);
    } else {
      if i, j :| 0 <= i < j < |longer| && Clash(mine, longer[i], longer[j]) {
        assert j == |changed|;
        NoConflictTarget(mine, changed, i);
      }
      if Effective(mine, c) && Target(mine, changed, c.0).Some? && Target(mine, changed, c.0) != Some(c.1) {
        TargetMeaning(mine, changed, c.0);
        var i :| LastEffective(mine, changed, c.0, i) && changed[i].1 == Target(mine, changed, c.0).value;
        assert Clash(mine, longer[i], longer[|changed|]);
      }
    }
  }

  // ---------------------------------------------------------------- operations that flip

  /** Operations whose best status goes from valid to archived. */
  function Lost(v: PileView, v': PileView): set<Opid>
    requires v.Resolved() && v'.Resolved()
  {
    set o | o in v.index && v.OpStatus(o).IsValid() && !v'.OpStatus(o).IsValid()
  }

  /** Operations whose best status goes from archived to valid. */
  function Gained(v: PileView, v': PileView): set<Opid>
    requires v.Resolved() && v'.Resolved()
  {
    set o | o in v.index && !v.OpStatus(o).IsValid() && v'.OpStatus(o).IsValid()
  }

  /** A change of witness statuses cannot alter an operation none of whose witnesses changed. */
  lemma UntouchedStatus(v: PileView, v': PileView, o: Opid)
    requires v.Resolved() && v'.Resolved() && v'.index == v.index
    requires forall w :: w in v.OpWids(o) ==> w in v.mine && w in v'.mine && v'.mine[w] == v.mine[w]
    ensures v'.OpStatus(o) == v.OpStatus(o)
  {
    assert v'.OpWids(o) == v.OpWids(o);
    assert v'.Statuses(o) == v.Statuses(o);
  }

  lemma SyncedResolved(v: PileView, changed: seq<Change>)
    requires v.Resolved()
    ensures Synced(v, changed).Resolved()
  {
    assert forall o :: Synced(v, changed).OpWids(o) == v.OpWids(o);
  }

  lemma SyncedValid(v: PileView, changed: seq<Change>)
    requires v.Valid()
    ensures v.Resolved() && Synced(v, changed).Valid() && Synced(v, changed).Resolved()
  {
    LookupsDefined(v);
    SyncedResolved(v, changed);
    assert Synced(v, changed).mine.Keys == v.mine.Keys;
  }

  // ---------------------------------------------------------------- the algebra of sync

  /** Two syncs leave the same statuses when they agree witness by witness. */
  lemma SameStatuses(v: PileView, v': PileView)
    requires v'.mine.Keys == v.mine.Keys && v' == v.(mine := v'.mine)
    requires forall w :: w in v.mine ==> v'.mine[w] == v.mine[w]
    ensures v' == v
  {
  }

  /** Repeating a sync changes nothing and flips nothing exactly when the statuses listed for each
      known witness agree. */
  lemma SyncIdempotent(v: PileView, changed: seq<Change>)
    requires v.Valid()
    ensures Synced(Synced(v, changed), changed) == Synced(v, changed) <==>
            forall w :: w in v.mine ==> ConsistentAt(changed, w)
    ensures (forall w :: w in v.mine ==> ConsistentAt(changed, w)) ==>
      var s := Synced(v, changed);
      Synced(s, changed).Resolved() && s.Resolved() && v.Resolved() &&
      Lost(s, Synced(s, changed)) == {} == Gained(s, Synced(s, changed))
  {
    SyncedValid(v, changed);
    var s := Synced(v, changed);
    SyncedValid(s, changed);
    var s' := Synced(s, changed);
    forall w | w in v.mine ensures s'.mine[w] == s.mine[w] <==> ConsistentAt(changed, w) {
      TargetMeaning(v.mine, changed, w);
      TargetMeaning(s.mine, changed, w);
    }
    if forall w :: w in v.mine ==> ConsistentAt(changed, w) {
      SameStatuses(s, s');
    }
  }

  /** The list used as an idempotence check in tests/reorgs.rs:46-51 archives a witness that is
      already off-chain, and repeating it flips the witness again. */
  lemma AlternatingListIsNotIdempotent(v: PileView, w: Wid)
    requires w in v.mine && v.mine[w] == Offchain
    ensures var changed := [(w, Archived), (w, Offchain)];
            && Synced(v, changed).mine[w] == Archived
            && Synced(Synced(v, changed), changed).mine[w] == Offchain
            && !Conflict(v.mine, changed)
  {
    var changed := [(w, Archived), (w, Offchain)];
    assert changed[..1] == [(w, Archived)];
    assert !Effective(v.mine, changed[1]);
    var s := Synced(v, changed);
    assert Target(v.mine, changed, w) == Target(v.mine, [(w, Archived)], w) == Some(Archived);
    assert Target(s.mine, changed, w) == Some(Offchain);
  }

  /** Syncing back to the stored statuses restores the tables and swaps the two sets. */
  lemma SyncUndo(v: PileView, changed: seq<Change>, back: seq<Change>)
    requires v.Valid()
    requires forall i :: 0 <= i < |back| && back[i].0 in v.mine ==> back[i].1 == v.mine[back[i].0]
    requires forall w :: w in v.mine && Lists(changed, w) ==> Lists(back, w)
    ensures v.Resolved() && Synced(v, changed).Resolved()
    ensures Synced(Synced(v, changed), back) == v
    ensures Lost(Synced(v, changed), v) == Gained(v, Synced(v, changed))
    ensures Gained(Synced(v, changed), v) == Lost(v, Synced(v, changed))
  {
    SyncedValid(v, changed);
    var s := Synced(v, changed);
    var r := Synced(s, back);
    forall w | w in v.mine ensures r.mine[w] == v.mine[w] {
      if Lists(back, w) {
        var i :| 0 <= i < |back| && back[i].0 == w;
        SyncOverrides(s.mine, back, w, i);
      } else {
        SyncKeepsUnlisted(s.mine, back, w);
        SyncKeepsUnlisted(v.mine, changed, w);
      }
    }
    SameStatuses(v, r);
  }

  /** Reordering or repeating the entries of a consistent list changes nothing. */
  lemma SyncIgnoresOrder(v: PileView, changed: seq<Change>, other: seq<Change>)
    requires Consistent(changed) && Elems(changed) == Elems(other)
    ensures Synced(v, other) == Synced(v, changed)
  {
    assert forall c :: c in changed <==> c in other by {
      assert forall c :: c in changed <==> c in Elems(changed);
      assert forall c :: c in other <==> c in Elems(other);
    }
    assert forall i :: 0 <= i < |other| ==> other[i] in changed;
    forall w | w in v.mine ensures SyncedStatus(v.mine, other, w) == SyncedStatus(v.mine, changed, w) {
      assert ConsistentAt(changed, w);
      assert ConsistentAt(other, w);
      if i :| 0 <= i < |changed| && changed[i].0 == w {
        assert changed[i] in other;
        var j :| 0 <= j < |other| && other[j] == changed[i];
        SyncOverrides(v.mine, changed, w, i);
        SyncOverrides(v.mine, other, w, j);
      } else {
        SyncKeepsUnlisted(v.mine, changed, w);
        SyncKeepsUnlisted(v.mine, other, w);
      }
    }
  }

  /** Splitting a list gives the same statuses when the parts list disjoint witnesses, or agree. */
  lemma SyncSplit(v: PileView, first: seq<Change>, second: seq<Change>)
    requires forall w :: w in v.mine ==>
      !(Lists(first, w) && Lists(second, w)) || ConsistentAt(first + second, w)
    ensures Synced(Synced(v, first), second) == Synced(v, first + second)
  {
    var both := first + second;
    var s := Synced(v, first);
    forall w | w in v.mine ensures SyncedStatus(s.mine, second, w) == SyncedStatus(v.mine, both, w) {
      SplitAt(v.mine, s.mine, first, second, w);
    }
  }

  lemma SplitAt(m: map<Wid, WitnessStatus>, s: map<Wid, WitnessStatus>, first: seq<Change>, second: seq<Change>, w: Wid)
    requires w in m && w in s && s[w] == SyncedStatus(m, first, w)
    requires !(Lists(first, w) && Lists(second, w)) || ConsistentAt(first + second, w)
    ensures SyncedStatus(s, second, w) == SyncedStatus(m, first + second, w)
  {
    if Lists(first, w) && Lists(second, w) {
      var i :| 0 <= i < |first| && first[i].0 == w;
      var k :| 0 <= k < |second| && second[k].0 == w;
      assert (first + second)[|first| + k] == second[k];
      assert ConsistentAt(second, w) by {
        assert forall n :: 0 <= n < |second| ==> (first + second)[|first| + n] == second[n];
      }
      SyncOverrides(s, second, w, k);
      SyncOverrides(m, first + second, w, |first| + k);
    } else if Lists(second, w) {
      SyncKeepsUnlisted(m, first, w);
      SplitTarget(m, first, second, w);
      TargetMeaning(m, first, w);
      TargetAgrees(m, s, second, w);
    } else {
      SyncKeepsUnlisted(s, second, w);
      SplitTarget(m, first, second, w);
      TargetMeaning(m, second, w);
    }
  }

  /** The target of a list is that of its second part, or else that of its first. */
  lemma {:induction false} SplitTarget(m: map<Wid, WitnessStatus>, first: seq<Change>, second: seq<Change>, w: Wid)
    ensures Target(m, first + second, w) ==
            if Target(m, second, w).Some? then Target(m, second, w) else Target(m, first, w)
  {
    if second == [] {
      assert first + second == first;
    } else {
      var n := |second| - 1;
      assert (first + second)[..|first| + n] == first + second[..n];
      SplitTarget(m, first, second[..n], w);
    }
  }

  /** The target depends on the stored status of its own witness only. */
  lemma {:induction false} TargetAgrees(m: map<Wid, WitnessStatus>, s: map<Wid, WitnessStatus>, changed: seq<Change>,
                                        w: Wid)
    requires w in m && w in s && m[w] == s[w]
    ensures Target(m, changed, w) == Target(s, changed, w)
  {
    if changed != [] {
      TargetAgrees(m, s, changed[..|changed| - 1], w);
    }
  }

  /** The net effect of two syncs on a set of live operations is that of going there at once. */
  lemma NetEffect(v: PileView, v1: PileView, v2: PileView, live: set<Opid>)
    requires v.Resolved() && v1.Resolved() && v2.Resolved()
    requires v1.index == v.index == v2.index
    requires forall o :: o in v.index ==> (o in live <==> v.OpStatus(o).IsValid())
    ensures (live - Lost(v, v1) + Gained(v, v1)) - Lost(v1, v2) + Gained(v1, v2)
         == live - Lost(v, v2) + Gained(v, v2)
  {
  }

  /** Splitting a list by witnesses gives the same statuses and the same live operations. */
  lemma SplitSyncIsOneSync(v: PileView, first: seq<Change>, second: seq<Change>, live: set<Opid>)
    requires v.Valid()
    requires forall w :: w in v.mine ==>
      !(Lists(first, w) && Lists(second, w)) || ConsistentAt(first + second, w)
    requires forall o :: o in v.index ==> (o in live <==> v.Resolved() && v.OpStatus(o).IsValid())
    ensures var v1 := Synced(v, first);
      var v2 := Synced(v1, second);
      && v2 == Synced(v, first + second)
      && v.Resolved() && v1.Resolved() && v2.Resolved()
      && (live - Lost(v, v1) + Gained(v, v1)) - Lost(v1, v2) + Gained(v1, v2) == live - Lost(v, v2) + Gained(v, v2)
  {
    SyncedValid(v, first);
    SyncedValid(Synced(v, first), second);
    SyncSplit(v, first, second);
    NetEffect(v, Synced(v, first), Synced(Synced(v, first), second), live);
  }
}
