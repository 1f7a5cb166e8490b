/** Identifiers and Bitcoin-based seals (the definition and source forms of a seal). */
module Seals {
  import opened Wrappers

  datatype Opid = Opid(hash: int)
  datatype Wid = Wid(hash: int)
  type Vout = int
  type Noise = int
  type AuthToken = int

  type U16 = n: nat | n <= U16_MAX
  type U32 = n: nat | n <= U32_MAX

  /** The address of an operation output. */
  datatype CellAddr = CellAddr(opid: Opid, pos: U16)

  datatype Outpoint = Outpoint(txid: Wid, vout: Vout)

  /** A transaction output that is either known or belongs to the (future) witness transaction. */
  datatype WOutpoint = Wout(vout: Vout) | Extern(outpoint: Outpoint)

  datatype TxoSeal = TxoSeal(primary: Outpoint, secondary: Noise)

  datatype WTxoSeal = WTxoSeal(primary: WOutpoint, secondary: Noise) {

    /** The seal itself, when it does not wait for a witness. */
    function ToSrc(): Option<TxoSeal> {
      match primary
      case Extern(outpoint) => Some(TxoSeal(outpoint, secondary))
      case Wout(_) => None
    }

    /** The seal under a given witness transaction. */
    function Resolve(wid: Wid): TxoSeal {
      match primary
      case Extern(outpoint) => TxoSeal(outpoint, secondary)
      case Wout(vout) => TxoSeal(Outpoint(wid, vout), secondary)
    }
  }

  /** A published witness; its id is computed from its contents. */
  datatype PubWitness = PubWitness(id: Wid, body: nat)

  /** A client-side witness: the messages committed to at each input, and the remaining proofs. */
  datatype Anchor = Anchor(messages: map<U32, int>, proofs: int) {

    /** Anchors of one witness merge when their proofs are the same and their messages agree. */
    predicate Compatible(other: Anchor) {
      && proofs == other.proofs
      && forall pos :: pos in messages && pos in other.messages ==> messages[pos] == other.messages[pos]
    }

    function Merge(other: Anchor): Anchor
      requires Compatible(other)
    {
      Anchor(messages + other.messages, proofs)
    }

    predicate Extends(other: Anchor) {
      && proofs == other.proofs
      && forall pos :: pos in other.messages ==> pos in messages && messages[pos] == other.messages[pos]
    }
  }
}
