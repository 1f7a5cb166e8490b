/** A layout that meets everything assumed of the codecs of a consignment. */
module SampleLayouts {
  import opened Wrappers
  import opened Seals
  import opened Codecs
  import opened Consignments
  import opened WholeConsignments

  /** What is assumed of the codec of one field. */
  ghost predicate Sound<T(!new)>(c: Codec<T>) { RoundTrips(c) && Consumes(c) }

  // ---------------------------------------------------------------- numbers

  /** As many ones, then a zero. */
  function Unary(n: nat): Bytes {
    if n == 0 then [0] else [1] + Unary(n - 1)
  }

  function DecUnary(bytes: Bytes): (r: Option<(nat, Bytes)>)
    ensures r.Some? ==> |r.value.1| < |bytes|
  {
    if bytes == [] then None
    else if bytes[0] == 0 then Some((0, bytes[1..]))
    else match DecUnary(bytes[1..])
      case None => None
      case Some((n, rest)) => Some((n + 1, rest))
  }

  lemma {:induction false} UnaryRoundTrip(n: nat, rest: Bytes)
    ensures DecUnary(Unary(n) + rest) == Some((n, rest))
  {
    if n == 0 {
      assert (Unary(n) + rest)[1..] == rest;
    } else {
      assert (Unary(n) + rest)[1..] == Unary(n - 1) + rest;
      UnaryRoundTrip(n - 1, rest);
    }
  }

  function Naturals(): Codec<nat> { Codec((n: nat) => Unary(n), bytes => DecUnary(bytes)) }

  lemma NaturalsAreSound()
    ensures Sound(Naturals())
  {
    forall n: nat, rest ensures Naturals().dec(Naturals().enc(n) + rest) == Some((n, rest)) {
      UnaryRoundTrip(n, rest);
    }
  }

  // ---------------------------------------------------------------- conversions and pairs

  /** The layout of one type used for another. */
  function Via<A, B>(c: Codec<A>, to: A -> B, from: B -> A): Codec<B> {
    Codec(b => c.enc(from(b)),
          bytes => match c.dec(bytes)
                   case None => None
                   case Some((a, rest)) => Some((to(a), rest)))
  }

  lemma ViaIsSound<A(!new), B(!new)>(c: Codec<A>, to: A -> B, from: B -> A)
    requires Sound(c) && forall b :: to(from(b)) == b
    ensures Sound(Via(c, to, from))
  {
    var v := Via(c, to, from);
    forall b, rest ensures v.dec(v.enc(b) + rest) == Some((b, rest)) {
      assert c.dec(c.enc(from(b)) + rest) == Some((from(b), rest));
    }
    forall bytes | v.dec(bytes).Some? ensures |v.dec(bytes).value.1| < |bytes| {
      assert c.dec(bytes).Some?;
    }
  }

  function Pair<A, B>(a: Codec<A>, b: Codec<B>): Codec<(A, B)> {
    Codec((p: (A, B)) => a.enc(p.0) + b.enc(p.1),
          bytes => match a.dec(bytes)
                   case None => None
                   case Some((x, rest)) => match b.dec(rest)
                     case None => None
                     case Some((y, rest')) => Some(((x, y), rest')))
  }

  lemma PairIsSound<A(!new), B(!new)>(a: Codec<A>, b: Codec<B>)
    requires Sound(a) && Sound(b)
    ensures Sound(Pair(a, b))
  {
    var c := Pair(a, b);
    forall p: (A, B), rest ensures c.dec(c.enc(p) + rest) == Some((p, rest)) {
      assert a.enc(p.0) + b.enc(p.1) + rest == a.enc(p.0) + (b.enc(p.1) + rest);
      assert a.dec(a.enc(p.0) + (b.enc(p.1) + rest)) == Some((p.0, b.enc(p.1) + rest));
      assert b.dec(b.enc(p.1) + rest) == Some((p.1, rest));
    }
    forall bytes | c.dec(bytes).Some? ensures |c.dec(bytes).value.1| < |bytes| {
      assert |a.dec(bytes).value.1| < |bytes|;
    }
  }

  /** Even numbers for the natural numbers, odd ones for the negative. */
  function ToInt(n: nat): int { if n % 2 == 0 then n / 2 else -(n / 2) - 1 }

  function FromInt(i: int): nat { if i >= 0 then 2 * i else -2 * i - 1 }

  function Integers(): Codec<int> { Via(Naturals(), (n: nat) => ToInt(n), (i: int) => FromInt(i)) }

  lemma IntegersAreSound()
    ensures Sound(Integers())
  {
    NaturalsAreSound();
    ViaIsSound(Naturals(), (n: nat) => ToInt(n), (i: int) => FromInt(i));
  }

  // ---------------------------------------------------------------- maps

  /** An optional value for each key from `k` up to the limit. */
  function EncCells<V>(c: Codec<V>, m: map<nat, V>, k: nat, limit: nat): Bytes
    decreases limit - k
  {
    if k >= limit then [] else EncOption(c, if k in m then Some(m[k]) else None) + EncCells(c, m, k + 1, limit)
  }

  function DecCells<V>(c: Codec<V>, k: nat, limit: nat, bytes: Bytes): (r: Option<(map<nat, V>, Bytes)>)
    ensures r.Some? ==> forall i :: i in r.value.0 ==> k <= i < limit
    decreases limit - k
  {
    if k >= limit then Some((map[], bytes))
    else match DecOption(c, bytes)
      case None => None
      case Some((x, rest)) =>
        match DecCells(c, k + 1, limit, rest)
        case None => None
        case Some((m, rest')) => Some((if x.Some? then m[k := x.value] else m, rest'))
  }

  function From<V>(m: map<nat, V>, k: nat): map<nat, V> { map i | i in m && k <= i :: m[i] }

  lemma {:induction false} CellsRoundTrip<V(!new)>(c: Codec<V>, m: map<nat, V>, k: nat, limit: nat, rest: Bytes)
    requires RoundTrips(c) && k <= limit && forall i :: i in m ==> i < limit
    ensures DecCells(c, k, limit, EncCells(c, m, k, limit) + rest) == Some((From(m, k), rest))
    decreases limit - k
  {
    if k < limit {
      var x := if k in m then Some(m[k]) else None;
      var tail := EncCells(c, m, k + 1, limit) + rest;
      assert EncCells(c, m, k, limit) + rest == EncOption(c, x) + tail;
      OptionRoundTrip(c, x, tail);
      CellsRoundTrip(c, m, k + 1, limit, rest);
      assert From(m, k) == if x.Some? then From(m, k + 1)[k := x.value] else From(m, k + 1);
    } else {
      assert EncCells(c, m, k, limit) + rest == rest;
      assert From(m, k) == map[];
    }
  }

  lemma {:induction false} CellsConsume<V(!new)>(c: Codec<V>, k: nat, limit: nat, bytes: Bytes)
    requires Consumes(c) && DecCells(c, k, limit, bytes).Some?
    ensures |DecCells(c, k, limit, bytes).value.1| <= |bytes| - (if k < limit then 1 else 0)
    decreases limit - k
  {
    if k < limit {
      CellsConsume(c, k + 1, limit, DecOption(c, bytes).value.1);
    }
  }

  function Messages(): Codec<map<U32, int>> {
    Codec((m: map<U32, int>) => EncCells(Integers(), m, 0, U32_MAX + 1), bytes => DecMessages(bytes))
  }

  function DecMessages(bytes: Bytes): Option<(map<U32, int>, Bytes)> {
    match DecCells(Integers(), 0, U32_MAX + 1, bytes)
    case None => None
    case Some((m, rest)) => Some((map i: U32 | i in m :: m[i], rest))
  }

  lemma MessagesRoundTrip(m: map<U32, int>, rest: Bytes)
    requires RoundTrips(Integers())
    ensures DecMessages(EncCells(Integers(), m, 0, U32_MAX + 1) + rest) == Some((m, rest))
  {
    CellsRoundTrip(Integers(), m, 0, U32_MAX + 1, rest);
    assert (map i: U32 | i in From(m, 0) :: From(m, 0)[i]) == m;
  }

  lemma MessagesAreSound()
    ensures Sound(Messages())
  {
    IntegersAreSound();
    forall m: map<U32, int>, rest ensures Messages().dec(Messages().enc(m) + rest) == Some((m, rest)) {
      MessagesRoundTrip(m, rest);
    }
    forall bytes | Messages().dec(bytes).Some? ensures |Messages().dec(bytes).value.1| < |bytes| {
      CellsConsume(Integers(), 0, U32_MAX + 1, bytes);
    }
  }

  /** Maps with too many seals are refused. */
  function DecSeals(bytes: Bytes): Option<(SealMap, Bytes)> {
    match DecCells(SealCodec(), 0, U16_MAX + 1, bytes)
    case None => None
    case Some((m, rest)) =>
      var seals := map i: U16 | i in m :: m[i];
      if |seals| <= U16_MAX then Some((seals, rest)) else None
  }

  function SealMaps(): Codec<SealMap> {
    Codec((m: SealMap) => EncCells(SealCodec(), m, 0, U16_MAX + 1), bytes => DecSeals(bytes))
  }

  lemma SealMapRoundTrip(m: SealMap, rest: Bytes)
    requires RoundTrips(SealCodec())
    ensures DecSeals(EncCells(SealCodec(), m, 0, U16_MAX + 1) + rest) == Some((m, rest))
  {
    CellsRoundTrip(SealCodec(), m, 0, U16_MAX + 1, rest);
    assert (map i: U16 | i in From(m, 0) :: From(m, 0)[i]) == m;
  }

  lemma SealMapsAreSound()
    ensures Sound(SealMaps())
  {
    SealCodecIsSound();
    forall m: SealMap, rest ensures SealMaps().dec(SealMaps().enc(m) + rest) == Some((m, rest)) {
      SealMapRoundTrip(m, rest);
    }
    forall bytes | SealMaps().dec(bytes).Some? ensures |SealMaps().dec(bytes).value.1| < |bytes| {
      CellsConsume(SealCodec(), 0, U16_MAX + 1, bytes);
    }
  }

  // ---------------------------------------------------------------- records

  type Four = (int, (int, (int, int)))

  function Fours(): Codec<Four> { Pair(Integers(), Pair(Integers(), Pair(Integers(), Integers()))) }

  function ToSeal(f: Four): WTxoSeal {
    WTxoSeal(if f.0 == 0 then Wout(f.1.1.0) else Extern(Outpoint(Wid(f.1.0), f.1.1.0)), f.1.1.1)
  }

  function FromSeal(s: WTxoSeal): Four {
    match s.primary
    case Wout(vout) => (0, (0, (vout, s.secondary)))
    case Extern(o) => (1, (o.txid.hash, (o.vout, s.secondary)))
  }

  function SealCodec(): Codec<WTxoSeal> { Via(Fours(), (f: Four) => ToSeal(f), (s: WTxoSeal) => FromSeal(s)) }

  lemma FoursAreSound()
    ensures Sound(Fours())
  {
    IntegersAreSound();
    PairIsSound(Integers(), Integers());
    PairIsSound(Integers(), Pair(Integers(), Integers()));
    PairIsSound(Integers(), Pair(Integers(), Pair(Integers(), Integers())));
  }

  lemma SealCodecIsSound()
    ensures Sound(SealCodec())
  {
    FoursAreSound();
    ViaIsSound(Fours(), (f: Four) => ToSeal(f), (s: WTxoSeal) => FromSeal(s));
  }

  function ToOp(f: Four): Operation { Operation(f.0, f.1.0, f.1.1.0) }

  function FromOp(op: Operation): Four { (op.contractId, (op.inputs, (op.payload, 0))) }

  function Operations(): Codec<Operation> { Via(Fours(), (f: Four) => ToOp(f), (op: Operation) => FromOp(op)) }

  lemma OperationsAreSound()
    ensures Sound(Operations())
  {
    FoursAreSound();
    ViaIsSound(Fours(), (f: Four) => ToOp(f), (op: Operation) => FromOp(op));
  }

  type Attested = ((int, nat), (map<U32, int>, int))

  function Attestations(): Codec<Attested> { Pair(Pair(Integers(), Naturals()), Pair(Messages(), Integers())) }

  function ToWitness(a: Attested): SealWitness {
    SealWitness(PubWitness(Wid(a.0.0), a.0.1), Anchor(a.1.0, a.1.1))
  }

  function FromWitness(s: SealWitness): Attested {
    ((s.published.id.hash, s.published.body), (s.client.messages, s.client.proofs))
  }

  function Witnesses(): Codec<SealWitness> {
    Via(Attestations(), (a: Attested) => ToWitness(a), (s: SealWitness) => FromWitness(s))
  }

  lemma WitnessesAreSound()
    ensures Sound(Witnesses())
  {
    NaturalsAreSound();
    IntegersAreSound();
    MessagesAreSound();
    PairIsSound(Integers(), Naturals());
    PairIsSound(Messages(), Integers());
    PairIsSound(Pair(Integers(), Naturals()), Pair(Messages(), Integers()));
    ViaIsSound(Attestations(), (a: Attested) => ToWitness(a), (s: SealWitness) => FromWitness(s));
  }

  // ---------------------------------------------------------------- the layout

  function DecGenesisOf(bytes: Bytes): Option<(Genesis, Bytes)> {
    match Operations().dec(bytes)
    case None => None
    case Some((op, rest)) => if op.inputs == 0 then Some((Genesis(op.contractId, op.payload), rest)) else None
  }

  function GenesisCodec(): Codec<Genesis> {
    Codec((g: Genesis) => Operations().enc(g.ToOperation(g.codexId)), bytes => DecGenesisOf(bytes))
  }

  lemma GenesisRoundTrips()
    ensures RoundTrips(GenesisCodec())
  {
    OperationsAreSound();
    forall g: Genesis, rest ensures GenesisCodec().dec(GenesisCodec().enc(g) + rest) == Some((g, rest)) {
      var op := g.ToOperation(g.codexId);
      assert Operations().dec(Operations().enc(op) + rest) == Some((op, rest));
    }
  }

  function Sample(codexId: int -> int): Layout {
    Layout(Integers(), Integers(), Integers(), Integers(), GenesisCodec(), Operations(),
           SealMaps(), Witnesses(), codexId)
  }

  /** One layout meets all that is assumed of reading, of writing, and of genesis and operations sharing
      their layout. */
  lemma SampleMeetsAll(codexId: int -> int)
    ensures Readable(Sample(codexId)) && Written(Sample(codexId)) && Sample(codexId).SharedLayout()
    ensures HeaderWritten(Sample(codexId))
  {
    IntegersAreSound();
    GenesisRoundTrips();
    OperationsAreSound();
    SealMapsAreSound();
    WitnessesAreSound();
  }
}
