/** The status of a witness, its order, and its eight-byte form (src/pile.rs). */
module Status {
  import opened Wrappers

  type Height = h: nat | 0 < h <= U64_MAX witness 1

  datatype WitnessStatus = Genesis | Mined(height: Height) | Offchain | Tentative | Archived {

    predicate IsValid() { !Archived? }

    /** The source writes the three constants as MAX, MAX ^ 1 and MAX ^ 2. */
    function QuasiHeight(): nat {
      match this
      case Genesis => 0
      case Mined(h) => h
      case Offchain => U64_MAX - 2
      case Tentative => U64_MAX - 1
      case Archived => U64_MAX
    }

    predicate IsBetter(other: WitnessStatus) { QuasiHeight() < other.QuasiHeight() }

    predicate IsWorse(other: WitnessStatus) { !IsBetter(other) }

    function Best(other: WitnessStatus): WitnessStatus {
      if IsBetter(other) then this else other
    }

    function Worst(other: WitnessStatus): WitnessStatus {
      if IsWorse(other) then this else other
    }

    /** A mined height that collides with none of the three reserved constants. */
    predicate Regular() { Mined? ==> height < U64_MAX - 2 }
  }

  predicate AllRegular(s: seq<WitnessStatus>) {
    forall x :: x in s ==> x.Regular()
  }

  // ---------------------------------------------------------------- the order

  /** Two statuses share a rank only when equal or when a mined height takes a reserved constant. */
  lemma RankCollisions(a: WitnessStatus, b: WitnessStatus)
    ensures a.QuasiHeight() == b.QuasiHeight() <==>
            || a == b
            || (a.Mined? && !a.Regular() && b == DecodeHeight(a.height))
            || (b.Mined? && !b.Regular() && a == DecodeHeight(b.height))
  {
    assert a.QuasiHeight() == b.QuasiHeight() && a.Mined? && b.Mined? ==> a == b;
  }

  /** Genesis is best, then a lower mined height before a higher one, then off-chain, tentative and archived. */
  lemma RankingChain(a: Height, b: Height)
    ensures Genesis.IsBetter(Mined(a))
    ensures Mined(a).IsBetter(Mined(b)) <==> a < b
    ensures Mined(a).IsBetter(Offchain) <==> Mined(a).Regular()
    ensures Mined(a).Regular() <==> a !in {U64_MAX - 2, U64_MAX - 1, U64_MAX}
    ensures Offchain.IsBetter(Tentative) && Tentative.IsBetter(Archived)
    ensures forall s: WitnessStatus :: s.IsValid() <==> s != Archived
  {
  }

  /** Of two statuses of one rank `best` takes the second, and `worst` the first. */
  lemma Ties(a: WitnessStatus, b: WitnessStatus)
    ensures a.Best(b) == b && a.Worst(b) == a <==> !a.IsBetter(b)
    ensures a.IsBetter(b) ==> a.Best(b) == a && a.Worst(b) == b
    ensures a.QuasiHeight() == b.QuasiHeight() ==> a.Best(b) == b && a.Worst(b) == a
  {
  }

  /** `best` does not depend on the order of its arguments exactly when the two are equal or rank differently,
      and neither does `worst`: it does at the reserved constants alone. */
  lemma BestCommutes(a: WitnessStatus, b: WitnessStatus)
    ensures a.Best(b) == b.Best(a) <==> a == b || a.QuasiHeight() != b.QuasiHeight()
    ensures a.Worst(b) == b.Worst(a) <==> a == b || a.QuasiHeight() != b.QuasiHeight()
    ensures a.Best(b) != b.Best(a) <==>
            || (a.Mined? && !a.Regular() && b == DecodeHeight(a.height) && a != b)
            || (b.Mined? && !b.Regular() && a == DecodeHeight(b.height) && a != b)
  {
    RankCollisions(a, b);
  }

  /** On regular statuses the rank is a total order, and best and worst are its min and max. */
  lemma RegularOrder(a: WitnessStatus, b: WitnessStatus)
    requires a.Regular() && b.Regular()
    ensures a.QuasiHeight() == b.QuasiHeight() ==> a == b
    ensures a.Best(b) == b.Best(a) && a.Worst(b) == b.Worst(a)
    ensures (a.Best(b) == a && a.Worst(b) == b) || (a.Best(b) == b && a.Worst(b) == a)
  {
    RankCollisions(a, b);
  }

  // ---------------------------------------------------------------- folds

  /** `reduce` with `best`, as in `Contract::witness_status`. */
  function BestOf(s: seq<WitnessStatus>): (r: WitnessStatus)
    requires |s| > 0
    ensures r in s
    ensures forall x :: x in s ==> r.QuasiHeight() <= x.QuasiHeight()
  {
    if |s| == 1 then s[0]
    else
      var init, last := s[..|s| - 1], s[|s| - 1];
      assert s == init + [last];
      BestOf(init).Best(last)
  }

  /** `fold(Genesis, worst)`, as in `Contract::state`. */
  function WorstOf(s: seq<WitnessStatus>): (r: WitnessStatus)
    ensures r in s || r == Genesis
    ensures s == [] ==> r == Genesis
    ensures forall x :: x in s ==> x.QuasiHeight() <= r.QuasiHeight()
  {
    if s == [] then Genesis
    else
      var init, last := s[..|s| - 1], s[|s| - 1];
      assert s == init + [last];
      WorstOf(init).Worst(last)
  }

  /** Reordering and repeating the statuses folded never changes the rank, and on regular
      statuses never changes the status. */
  lemma FoldsIgnoreOrder(s: seq<WitnessStatus>, t: seq<WitnessStatus>)
    requires Elems(s) == Elems(t)
    ensures WorstOf(s).QuasiHeight() == WorstOf(t).QuasiHeight()
    ensures |s| > 0 <==> |t| > 0
    ensures |s| > 0 ==> BestOf(s).QuasiHeight() == BestOf(t).QuasiHeight()
    ensures AllRegular(s) ==> WorstOf(s) == WorstOf(t) && (|s| > 0 ==> BestOf(s) == BestOf(t))
  {
    assert forall x :: x in s <==> x in t by {
      assert forall x :: x in s <==> x in Elems(s);
      assert forall x :: x in t <==> x in Elems(t);
    }
    if |s| > 0 {
      assert s[0] in t;
      RegularOrderIf(BestOf(s), BestOf(t));
    }
    if |t| > 0 {
      assert t[0] in s;
    }
    RegularOrderIf(WorstOf(s), WorstOf(t));
  }

  lemma RegularOrderIf(a: WitnessStatus, b: WitnessStatus)
    ensures a.Regular() && b.Regular() && a.QuasiHeight() == b.QuasiHeight() ==> a == b
  {
    RankCollisions(a, b);
  }

  /** On regular statuses an operation is valid exactly when one of its witnesses is. */
  lemma BestIsValid(s: seq<WitnessStatus>)
    requires |s| > 0 && AllRegular(s)
    ensures BestOf(s).IsValid() <==> exists x :: x in s && x.IsValid()
  {
  }

  /** On regular statuses a history is valid exactly when all of it is. */
  lemma WorstIsValid(s: seq<WitnessStatus>)
    requires AllRegular(s)
    ensures WorstOf(s).IsValid() <==> forall x :: x in s ==> x.IsValid()
  {
  }

  /** The restriction to regular heights is needed: at height MAX the order of witnesses decides. */
  lemma HeightMaxMakesOrderMatter()
    ensures BestOf([Archived, Mined(U64_MAX)]).IsValid()
    ensures !BestOf([Mined(U64_MAX), Archived]).IsValid()
  {
  }

  // ---------------------------------------------------------------- bytes

  /** `n` in `k` big-endian bytes, keeping the low bytes only. */
  function ToBe(n: nat, k: nat): (b: seq<Byte>)
    ensures |b| == k
  {
    if k == 0 then [] else ToBe(n / 256, k - 1) + [n % 256]
  }

  function FromBe(b: seq<Byte>): nat {
    if b == [] then 0 else 256 * FromBe(b[..|b| - 1]) + b[|b| - 1]
  }

  lemma {:induction false} FromToBe(n: nat, k: nat)
    requires n < Limit(k)
    ensures FromBe(ToBe(n, k)) == n
  {
    if k > 0 {
      FromToBe(n / 256, k - 1);
      assert ToBe(n, k)[..k - 1] == ToBe(n / 256, k - 1);
    }
  }

  lemma {:induction false} ToFromBe(b: seq<Byte>)
    ensures FromBe(b) < Limit(|b|) && ToBe(FromBe(b), |b|) == b
  {
    if b != [] {
      var init, last := b[..|b| - 1], b[|b| - 1];
      ToFromBe(init);
      var n := FromBe(b);
      assert n / 256 == FromBe(init) && n % 256 == last;
    }
  }

  /** Lexicographic order on byte strings of one length. */
  ghost predicate LexLess(a: seq<Byte>, b: seq<Byte>)
    requires |a| == |b|
  {
    exists i :: 0 <= i < |a| && a[..i] == b[..i] && a[i] < b[i]
  }

  lemma {:induction false} LexImpliesNumeric(a: seq<Byte>, b: seq<Byte>)
    requires |a| == |b| && LexLess(a, b)
    ensures FromBe(a) < FromBe(b)
  {
    var n := |a| - 1;
    var i :| 0 <= i < |a| && a[..i] == b[..i] && a[i] < b[i];
    if i < n {
      assert a[..n][..i] == a[..i] && b[..n][..i] == b[..i];
      LexImpliesNumeric(a[..n], b[..n]);
    }
  }

  lemma {:induction false} NumericImpliesLex(a: seq<Byte>, b: seq<Byte>)
    requires |a| == |b| && FromBe(a) < FromBe(b)
    ensures LexLess(a, b)
  {
    var n := |a| - 1;
    if FromBe(a[..n]) < FromBe(b[..n]) {
      NumericImpliesLex(a[..n], b[..n]);
      var i :| 0 <= i < n && a[..n][..i] == b[..n][..i] && a[..n][i] < b[..n][i];
      assert a[..n][..i] == a[..i] && b[..n][..i] == b[..i];
    } else {
      ToFromBe(a[..n]);
      ToFromBe(b[..n]);
      assert a[..n] == b[..n] && a[n] < b[n];
    }
  }

  function Encode(s: WitnessStatus): (b: seq<Byte>)
    ensures |b| == 8
  {
    ToBe(U64_MAX - s.QuasiHeight(), 8)
  }

  function DecodeHeight(height: nat): WitnessStatus
    requires height <= U64_MAX
  {
    if height == 0 then Genesis
    else if height == U64_MAX then Archived
    else if height == U64_MAX - 1 then Tentative
    else if height == U64_MAX - 2 then Offchain
    else Mined(height)
  }

  function Decode(b: seq<Byte>): WitnessStatus
    requires |b| == 8
  {
    assert FromBe(b) <= U64_MAX by { ToFromBe(b); LimitEight(); }
    DecodeHeight(U64_MAX - FromBe(b))
  }

  /** Stored statuses are read back exactly when the mined height is not one of the reserved ones. */
  lemma DecodeAfterEncode(s: WitnessStatus)
    ensures Decode(Encode(s)) == s <==> s.Regular()
    ensures Decode(Encode(s)).QuasiHeight() == s.QuasiHeight()
  {
    EncodedValue(s);
  }

  /** Every eight bytes are the form of the status they decode to. */
  lemma EncodeAfterDecode(b: seq<Byte>)
    requires |b| == 8
    ensures Encode(Decode(b)) == b
  {
    LimitEight();
    ToFromBe(b);
  }

  /** The bytes stored: all ones for genesis, and one less for the first block after it. */
  lemma FirstBytes()
    ensures Encode(Genesis) == [255, 255, 255, 255, 255, 255, 255, 255]
    ensures Encode(Mined(1)) == [255, 255, 255, 255, 255, 255, 255, 254]
  {
    LimitEight();
    AllBits(8);
    AllBits(7);
    Repeated8(255);
    assert ToBe(U64_MAX - 1, 8) == ToBe(Limit(7) - 1, 7) + [254];
  }

  lemma {:induction false} AllBits(k: nat)
    ensures Limit(k) > 0 && ToBe(Limit(k) - 1, k) == seq(k, i => 255)
  {
    if k > 0 {
      AllBits(k - 1);
      assert Limit(k) - 1 == 256 * (Limit(k - 1) - 1) + 255;
    }
  }

  lemma {:induction false} NoBits(k: nat)
    ensures ToBe(0, k) == seq(k, i => 0)
  {
    if k > 0 {
      NoBits(k - 1);
    }
  }

  lemma Repeated8(b: Byte)
    ensures seq(8, i => b) == [b, b, b, b, b, b, b, b] && seq(7, i => b) == [b, b, b, b, b, b, b]
  {
  }

  lemma SmallNumber(b: Byte)
    ensures ToBe(b, 8) == [0, 0, 0, 0, 0, 0, 0, b]
  {
    NoBits(7);
    Repeated8(0);
    assert ToBe(b, 8) == ToBe(0, 7) + [b];
  }

  /** All zeros for archived, and the two other reserved heights next to that. */
  lemma LastBytes()
    ensures Encode(Offchain) == [0, 0, 0, 0, 0, 0, 0, 2]
    ensures Encode(Tentative) == [0, 0, 0, 0, 0, 0, 0, 1]
    ensures Encode(Archived) == [0, 0, 0, 0, 0, 0, 0, 0]
  {
    SmallNumber(2);
    SmallNumber(1);
    SmallNumber(0);
  }

  /** Better means lexicographically greater bytes, for every pair of statuses. */
  lemma BytesFollowOrder(a: WitnessStatus, b: WitnessStatus)
    ensures a.IsBetter(b) <==> LexLess(Encode(b), Encode(a))
  {
    EncodedValue(a);
    EncodedValue(b);
    if a.IsBetter(b) {
      NumericImpliesLex(Encode(b), Encode(a));
    } else if LexLess(Encode(b), Encode(a)) {
      LexImpliesNumeric(Encode(b), Encode(a));
    }
  }

  lemma EncodedValue(s: WitnessStatus)
    ensures FromBe(Encode(s)) == U64_MAX - s.QuasiHeight()
  {
    LimitEight();
    FromToBe(U64_MAX - s.QuasiHeight(), 8);
  }
}
