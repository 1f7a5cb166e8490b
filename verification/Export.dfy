/** Exporting the operations of a contract (src/contract.rs, `aux` and `export`). */
module Exports {
  import opened Wrappers
  import opened Seals
  import opened Piles
  import opened Codecs
  import opened Consignments
  import Contracts

  lemma SealsOfFit(v: PileView, o: Opid, upTo: U16)
    ensures |v.SealsOf(o, upTo)| <= upTo
  {
    SmallKeys(v.SealsOf(o, upTo).Keys, upTo);
    assert |v.SealsOf(o, upTo).Keys| == |v.SealsOf(o, upTo)|;
  }

  lemma {:induction false} SmallKeys(keys: set<U16>, n: nat)
    requires forall k :: k in keys ==> k < n
    ensures |keys| <= n
  {
    if n > 0 {
      if n - 1 in keys {
        SmallKeys(keys - {n - 1}, n - 1);
      } else {
        SmallKeys(keys, n - 1);
      }
    } else {
      assert keys == {};
    }
  }

  /** What is exported of an operation with `outs` outputs: its stored seals, and a witness. */
  function Exported(v: PileView, opid: Opid, op: Operation, outs: U16, w: Option<SealWitness>): OperationSeals {
    SealsOfFit(v, opid, outs);
    OperationSeals(op, v.SealsOf(opid, outs), w)
  }

  /** The witness is one with the best status; there is none when the operation has none or is archived. */
  ghost predicate Attests(v: PileView, opid: Opid, w: Option<SealWitness>)
    requires v.Resolved()
  {
    match w
    case None => v.OpWids(opid) == [] || !v.OpStatus(opid).IsValid()
    case Some(s) =>
      && v.OpStatus(opid).IsValid()
      && exists wid :: wid in v.OpWids(opid) && IsStored(v, wid, s) && v.mine[wid] == v.OpStatus(opid)
  }

  predicate IsStored(v: PileView, wid: Wid, s: SealWitness) {
    wid in v.cache && wid in v.hoard && wid in v.mine && s == SealWitness(v.cache[wid], v.hoard[wid])
  }

  /** Writes an operation with its seals and its witness. */
  method ExportOperation(c: Contracts.Contract, l: Layout, opid: Opid, op: Operation, outs: U16) returns (bytes: Bytes)
    requires c.pile.Valid() && c.pile.View().Resolved()
    ensures exists w :: Attests(c.pile.View(), opid, w)
                && bytes == EncFrame(l, Exported(c.pile.View(), opid, op, outs, w))
  {
    var seals := c.pile.SealsOf(opid, outs);
    var found := c.Retrieve(opid);
    SealsOfFit(c.pile.View(), opid, outs);
    var w := if found.None? then None else Some(SealWitness(found.value.0, found.value.1));
    assert Attests(c.pile.View(), opid, w);
    bytes := EncFrame(l, OperationSeals(op, seals, w));
  }

  /** Whoever reads it gets the operation, its witness, and the seals the contract called it with, overridden by
      those of the reader's own wallet. */
  lemma CallExportRead(l: Layout, resolver: SealResolver, v: PileView, opid: Opid, seals: map<U16, WTxoSeal>,
                       op: Operation, outs: U16, w: Option<SealWitness>, rest: Bytes)
    requires Written(l) && forall a :: a in v.keep ==> a.opid != opid
    requires forall p :: p in seals ==> p < outs
    ensures |seals| <= U16_MAX
    ensures ReadFrame(l, resolver, EncFrame(l, Exported(v.AddSeals(opid, seals), opid, op, outs, w)) + rest) ==
      if HasRoom(seals, resolver(op)) then Some((Override(resolver, OperationSeals(op, seals, w)), rest)) else None
  {
    SealsReadBack(v, opid, seals, outs);
    SealsOfFit(v.AddSeals(opid, seals), opid, outs);
    FrameRoundTrip(l, resolver, Exported(v.AddSeals(opid, seals), opid, op, outs, w), rest);
  }
}
