/** The two readers of a consignment (src/consignment.rs, and `consume_internal` and `OpReader` of
    src/contract.rs), and the frames written by `aux`. */
module Consignments {
  import opened Wrappers
  import opened Seals
  import opened Codecs

  const MAX_CONSIGNMENT_OPS: nat := U16_MAX

  /** At most 65535 seals. */
  type SealMap = m: map<U16, WTxoSeal> | |m| <= U16_MAX

  datatype SealWitness = SealWitness(published: PubWitness, client: Anchor)

  /** An operation: the contract it is under, the parts a genesis cannot have, and the rest. */
  datatype Operation = Operation(contractId: int, inputs: int, payload: int)

  /** A genesis names its codex where an operation names its contract. */
  datatype Genesis = Genesis(codexId: int, payload: int) {
    function ToOperation(contractId: int): Operation { Operation(contractId, 0, payload) }
  }

  datatype OperationSeals = OperationSeals(operation: Operation, definedSeals: SealMap,
                                           sealWitness: Option<SealWitness>)

  /** The codecs of the fields whose layout is defined elsewhere, and the id of a codex. */
  datatype Layout = Layout(
    semantics: Codec<int>,
    sig: Codec<int>,
    meta: Codec<int>,
    codex: Codec<int>,
    genesis: Codec<Genesis>,
    operation: Codec<Operation>,
    seals: Codec<SealMap>,
    attest: Codec<SealWitness>,
    codexId: int -> int)
  {
    /** A genesis is read exactly where an operation without inputs is. */
    ghost predicate SharedLayout() {
      forall bytes :: genesis.dec(bytes) == match operation.dec(bytes)
        case None => None
        case Some((op, rest)) => if op.inputs == 0 then Some((Genesis(op.contractId, op.payload), rest)) else None
    }
  }

  /** Seals known to the wallet for the outputs of an operation. */
  type SealResolver = Operation -> map<U16, WTxoSeal>

  const NO_SEALS: SealResolver := _ => map[]

  // ---------------------------------------------------------------- seals of the wallet

  /** Seals are put over those of the stream in the order of their keys. A full map takes no more of them, not
      even under a key it has. */
  function ExtendFrom(seals: SealMap, more: map<U16, WTxoSeal>, k: nat): Option<SealMap>
    decreases U16_MAX + 1 - k
  {
    if k > U16_MAX then Some(seals)
    else if k !in more then ExtendFrom(seals, more, k + 1)
    else if |seals| >= U16_MAX then None
    else ExtendFrom(Put(seals, k, more[k]), more, k + 1)
  }

  function Put(seals: SealMap, k: U16, seal: WTxoSeal): SealMap
    requires |seals| < U16_MAX
  {
    PutOne(seals, k, seal);
    seals[k := seal]
  }

  lemma PutOne(seals: map<U16, WTxoSeal>, k: U16, seal: WTxoSeal)
    ensures |seals[k := seal]| <= |seals| + 1
  {
    assert seals[k := seal].Keys == seals.Keys + {k};
    assert |seals.Keys + {k}| <= |seals.Keys| + 1;
    assert |seals.Keys| == |seals| && |seals[k := seal].Keys| == |seals[k := seal]|;
  }

  function Extend(seals: SealMap, more: map<U16, WTxoSeal>): Option<SealMap> { ExtendFrom(seals, more, 0) }

  /** The seals to be put whose keys are below `k`. */
  function Below(more: map<U16, WTxoSeal>, k: nat): map<U16, WTxoSeal> { map i | i in more && i < k :: more[i] }

  /** None of the seals to be put finds the map full. */
  predicate HasRoom(seals: map<U16, WTxoSeal>, more: map<U16, WTxoSeal>) {
    forall i :: i in more ==> |Growing(seals, more)(i)| < U16_MAX
  }

  /** The map when the seals below a key have been put. */
  function Growing(seals: map<U16, WTxoSeal>, more: map<U16, WTxoSeal>): nat -> map<U16, WTxoSeal> {
    (k: nat) => seals + Below(more, k)
  }

  lemma BelowNext(seals: map<U16, WTxoSeal>, more: map<U16, WTxoSeal>, k: U16)
    ensures seals + Below(more, k + 1) ==
      if k in more then (seals + Below(more, k))[k := more[k]] else seals + Below(more, k)
  {
    assert Below(more, k + 1) == if k in more then Below(more, k)[k := more[k]] else Below(more, k);
  }

  /** The maps reached one after the other. */
  ghost predicate Reaches(at: nat -> map<U16, WTxoSeal>, more: map<U16, WTxoSeal>) {
    forall k: U16 :: Grows(at, more, k)
  }

  predicate Grows(at: nat -> map<U16, WTxoSeal>, more: map<U16, WTxoSeal>, k: U16) {
    at(k + 1) == if k in more then at(k)[k := more[k]] else at(k)
  }

  lemma {:induction false} ExtendReaches(at: nat -> map<U16, WTxoSeal>, more: map<U16, WTxoSeal>, k: nat, now: SealMap)
    requires Reaches(at, more) && k <= U16_MAX + 1 && now == at(k)
    ensures ExtendFrom(now, more, k).Some? <==> forall i :: i in more && i >= k ==> |at(i)| < U16_MAX
    ensures ExtendFrom(now, more, k).Some? ==> ExtendFrom(now, more, k).value == at(U16_MAX + 1)
    decreases U16_MAX + 1 - k
  {
    if k <= U16_MAX {
      assert Grows(at, more, k);
      if k !in more {
        ExtendReaches(at, more, k + 1, now);
      } else if |now| < U16_MAX {
        ExtendReaches(at, more, k + 1, Put(now, k, more[k]));
      }
    }
  }

  lemma GrowingReaches(seals: map<U16, WTxoSeal>, more: map<U16, WTxoSeal>)
    ensures Reaches(Growing(seals, more), more)
  {
    var at := Growing(seals, more);
    forall k: U16 ensures Grows(at, more, k) {
      GrowingNext(seals, more, k);
    }
  }

  lemma GrowingNext(seals: map<U16, WTxoSeal>, more: map<U16, WTxoSeal>, k: U16)
    ensures Grows(Growing(seals, more), more, k)
  {
    BelowNext(seals, more, k);
  }

  lemma GrowingEnds(seals: map<U16, WTxoSeal>, more: map<U16, WTxoSeal>)
    ensures Growing(seals, more)(0) == seals && Growing(seals, more)(U16_MAX + 1) == seals + more
  {
    assert Below(more, 0) == map[] && Below(more, U16_MAX + 1) == more;
    assert seals + map[] == seals;
  }

  /** The wallet's seals override those of the stream, unless one of them finds the map full. */
  lemma ExtendIs(seals: SealMap, more: map<U16, WTxoSeal>)
    ensures Extend(seals, more).Some? <==> HasRoom(seals, more)
    ensures Extend(seals, more).Some? ==> Extend(seals, more).value == seals + more
  {
    GrowingReaches(seals, more);
    GrowingEnds(seals, more);
    ExtendReaches(Growing(seals, more), more, 0, seals);
  }

  // ---------------------------------------------------------------- one frame

  /** What one operation adds to a stream. */
  function EncFrame(l: Layout, os: OperationSeals): Bytes {
    l.operation.enc(os.operation) + l.seals.enc(os.definedSeals) + EncOption(l.attest, os.sealWitness)
  }

  /** A frame as the in-memory reader decodes it. */
  function DecFrame(l: Layout, bytes: Bytes): Option<(OperationSeals, Bytes)> {
    match l.operation.dec(bytes)
    case None => None
    case Some((op, rest)) =>
      match l.seals.dec(rest)
      case None => None
      case Some((seals, rest')) =>
        match DecOption(l.attest, rest')
        case None => None
        case Some((proof, rest'')) => Some((OperationSeals(op, seals, proof), rest''))
  }

  /** A frame as the streaming reader decodes it: seals of the wallet override those of the stream. */
  function ReadFrame(l: Layout, resolver: SealResolver, bytes: Bytes): Option<(OperationSeals, Bytes)> {
    match l.operation.dec(bytes)
    case None => None
    case Some((op, rest)) =>
      match l.seals.dec(rest)
      case None => None
      case Some((seals, rest')) =>
        match Extend(seals, resolver(op))
        case None => None
        case Some(extended) =>
          match DecOption(l.attest, rest')
          case None => None
          case Some((proof, rest'')) => Some((OperationSeals(op, extended, proof), rest''))
  }

  /** A frame that was written reads back with its operation, its witness, and its seals overridden by
      those of the wallet, unless one of these finds the map full. */
  lemma FrameRoundTrip(l: Layout, resolver: SealResolver, os: OperationSeals, rest: Bytes)
    requires RoundTrips(l.operation) && RoundTrips(l.seals) && RoundTrips(l.attest)
    ensures ReadFrame(l, resolver, EncFrame(l, os) + rest) ==
      if FitsSeals(resolver, os) then Some((Override(resolver, os), rest)) else None
  {
    ExtendIs(os.definedSeals, resolver(os.operation));
    var tail := EncOption(l.attest, os.sealWitness) + rest;
    var middle := l.seals.enc(os.definedSeals) + tail;
    assert EncFrame(l, os) + rest == l.operation.enc(os.operation) + middle;
    OptionRoundTrip(l.attest, os.sealWitness, rest);
  }

  lemma FramesAgree(l: Layout, bytes: Bytes)
    ensures ReadFrame(l, NO_SEALS, bytes) == DecFrame(l, bytes)
  {
    match l.operation.dec(bytes)
    case None =>
    case Some((op, rest)) =>
      match l.seals.dec(rest)
      case None =>
      case Some((seals, rest')) =>
        ExtendIs(seals, NO_SEALS(op));
        assert seals + NO_SEALS(op) == seals;
  }

  // ---------------------------------------------------------------- the streaming reader

  /** The remaining stream, and the operations still to come; the count is all ones before genesis. */
  datatype ReaderState = ReaderState(stream: Bytes, count: U32)

  datatype Next = End | Item(os: OperationSeals, state: ReaderState) | Failed

  /** Reads one frame from the front of a stream. */
  type FrameReader = Bytes -> Option<(OperationSeals, Bytes)>

  function Reader(l: Layout, resolver: SealResolver): FrameReader { bytes => ReadFrame(l, resolver, bytes) }

  function Step(read: FrameReader, s: ReaderState): Next {
    if s.count == 0 then End
    else match read(s.stream)
      case None => Failed
      case Some((os, rest)) =>
        if s.count == U32_MAX then
          match DecU32(rest)
          case None => Failed
          case Some((n, rest')) => Item(os, ReaderState(rest', n))
        else Item(os, ReaderState(rest, s.count - 1))
  }

  function Prepend(os: OperationSeals, r: Option<(seq<OperationSeals>, Bytes)>): Option<(seq<OperationSeals>, Bytes)> {
    match r
    case None => None
    case Some((more, rest)) => Some(([os] + more, rest))
  }

  /** All the operations a caller gets by reading until the reader has no more. */
  ghost function ReadAll(read: FrameReader, s: ReaderState): Option<(seq<OperationSeals>, Bytes)>
    decreases |s.stream|
  {
    match Step(read, s)
    case End => Some(([], s.stream))
    case Failed => None
    case Item(os, s') => if |s'.stream| < |s.stream| then Prepend(os, ReadAll(read, s')) else None
  }

  class OpReader {
    const layout: Layout
    const resolver: SealResolver
    var stream: Bytes
    var count: U32

    constructor (layout: Layout, resolver: SealResolver, stream: Bytes)
      ensures this.layout == layout && this.resolver == resolver
      ensures State() == ReaderState(stream, U32_MAX)
    {
      this.layout, this.resolver, this.stream := layout, resolver, stream;
      count := U32_MAX;
    }

    function State(): ReaderState
      reads this
    {
      ReaderState(stream, count)
    }

    /** Reads one operation. Once it answers that there are no more, it does so forever. */
    method ReadOperation() returns (r: Result<Option<OperationSeals>, ()>)
      modifies this
      ensures match Step(Reader(layout, resolver), old(State()))
        case End => r == Ok(None) && State() == old(State())
        case Item(os, s) => r == Ok(Some(os)) && State() == s
        case Failed => r == Err(()) && count == old(count)
    {
      if count == 0 {
        return Ok(None);
      }
      var operation := layout.operation.dec(stream);
      if operation.None? { return Err(()); }
      stream := operation.value.1;
      var seals := layout.seals.dec(stream);
      if seals.None? { return Err(()); }
      stream := seals.value.1;
      var definedSeals := Extend(seals.value.0, resolver(operation.value.0));
      if definedSeals.None? { return Err(()); }
      var proof := DecOption(layout.attest, stream);
      if proof.None? { return Err(()); }
      stream := proof.value.1;
      if count == U32_MAX {
        var n := DecU32(stream);
        if n.None? { return Err(()); }
        count, stream := n.value.0, n.value.1;
      } else {
        count := count - 1;
      }
      return Ok(Some(OperationSeals(operation.value.0, definedSeals.value, proof.value.0)));
    }
  }

  // ---------------------------------------------------------------- the in-memory reader

  datatype Header = Header(extensions: seq<Bytes>, semantics: int, sig: Option<int>, meta: int, codex: int,
                           genesis: Genesis, genesisSeals: SealMap, opCount: U32)

  datatype Consignment = Consignment(header: Header, operationSeals: seq<OperationSeals>)

  /** The fields both readers read alike before genesis. */
  datatype Preamble = Preamble(semantics: int, sig: Option<int>, meta: int, codex: int)

  function DecPreamble(l: Layout, bytes: Bytes): Option<(Preamble, Bytes)> {
    match l.semantics.dec(bytes)
    case None => None
    case Some((semantics, rest1)) =>
      match DecOption(l.sig, rest1)
      case None => None
      case Some((sig, rest2)) =>
        match DecReserved(rest2)
        case None => None
        case Some(rest3) =>
          match l.meta.dec(rest3)
          case None => None
          case Some((meta, rest4)) =>
            match l.codex.dec(rest4)
            case None => None
            case Some((codex, rest5)) => Some((Preamble(semantics, sig, meta, codex), rest5))
  }

  /** Genesis, its seals, the reserved byte and the count, as the in-memory reader decodes them. */
  function DecGenesis(l: Layout, bytes: Bytes): Option<((Genesis, SealMap, U32), Bytes)> {
    match l.genesis.dec(bytes)
    case None => None
    case Some((genesis, rest1)) =>
      match l.seals.dec(rest1)
      case None => None
      case Some((seals, rest2)) =>
        match DecReserved(rest2)
        case None => None
        case Some(rest3) =>
          match DecU32(rest3)
          case None => None
          case Some((n, rest4)) => Some(((genesis, seals, n), rest4))
  }

  function DecHeader(l: Layout, bytes: Bytes): Option<(Header, Bytes)> {
    if bytes == [] then None
    else match DecBlobs(bytes[0], bytes[1..])
      case None => None
      case Some((extensions, rest1)) =>
        match DecPreamble(l, rest1)
        case None => None
        case Some((p, rest2)) =>
          match DecGenesis(l, rest2)
          case None => None
          case Some(((genesis, seals, n), rest3)) =>
            Some((Header(extensions, p.semantics, p.sig, p.meta, p.codex, genesis, seals, n), rest3))
  }

  /** `n` frames in a row. */
  function Frames(read: FrameReader, n: nat, bytes: Bytes): Option<(seq<OperationSeals>, Bytes)> {
    if n == 0 then Some(([], bytes))
    else match read(bytes)
      case None => None
      case Some((os, rest)) => Prepend(os, Frames(read, n - 1, rest))
  }

  function DecFrames(l: Layout, n: nat, bytes: Bytes): Option<(seq<OperationSeals>, Bytes)> {
    Frames(b => DecFrame(l, b), n, bytes)
  }

  function DecConsignment(l: Layout, bytes: Bytes): Option<(Consignment, Bytes)> {
    match DecHeader(l, bytes)
    case None => None
    case Some((header, rest)) =>
      if header.opCount > MAX_CONSIGNMENT_OPS then None
      else match DecFrames(l, header.opCount, rest)
        case None => None
        case Some((ops, rest')) => Some((Consignment(header, ops), rest'))
  }

  /** Reading one more frame. */
  lemma {:induction false} FramesAppend(read: FrameReader, i: nat, n: nat, bytes: Bytes)
    requires i < n && Frames(read, i, bytes).Some?
    ensures var (ops, rest) := Frames(read, i, bytes).value;
      && (read(rest).None? ==> Frames(read, n, bytes).None?)
      && (read(rest).Some? ==> Frames(read, i + 1, bytes) == Some((ops + [read(rest).value.0], read(rest).value.1)))
  {
    if i == 0 {
      var next := read(bytes);
      if next.Some? {
        assert Frames(read, 0, next.value.1) == Some(([], next.value.1));
        assert [next.value.0] + [] == [] + [next.value.0];
      }
    } else {
      var (os, after) := read(bytes).value;
      FramesAppend(read, i - 1, n - 1, after);
      var (first, rest) := Frames(read, i - 1, after).value;
      if read(rest).Some? {
        assert [os] + (first + [read(rest).value.0]) == ([os] + first) + [read(rest).value.0];
      }
    }
  }

  /** Reads `n` frames one after the other. */
  method ReadFrames(l: Layout, n: nat, start: Bytes) returns (r: Option<(seq<OperationSeals>, Bytes)>)
    ensures r == DecFrames(l, n, start)
  {
    var read: FrameReader := b => DecFrame(l, b);
    var ops: seq<OperationSeals>, stream := [], start;
    for i := 0 to n
      invariant Frames(read, i, start) == Some((ops, stream))
    {
      FramesAppend(read, i, n, start);
      var frame := read(stream);
      if frame.None? {
        return None;
      }
      ops, stream := ops + [frame.value.0], frame.value.1;
    }
    return Some((ops, stream));
  }

  /** Decodes a consignment, frame by frame. */
  method StrictDecode(l: Layout, bytes: Bytes) returns (r: Option<(Consignment, Bytes)>)
    ensures r == DecConsignment(l, bytes)
  {
    var header := DecHeader(l, bytes);
    if header.None? { return None; }
    var (h, start) := header.value;
    if h.opCount > MAX_CONSIGNMENT_OPS { return None; }
    var ops := ReadFrames(l, h.opCount, start);
    if ops.None? { return None; }
    return Some((Consignment(h, ops.value.0), ops.value.1));
  }

  /** The operations of a consignment: genesis under the id computed from its codex, then the others. */
  function OperationsOf(l: Layout, c: Consignment): seq<OperationSeals> {
    [OperationSeals(c.header.genesis.ToOperation(l.codexId(c.header.codex)), c.header.genesisSeals, None)]
    + c.operationSeals
  }

  class InMemOps {
    var genesis: Option<OperationSeals>
    var operations: seq<OperationSeals>

    constructor IntoOperations(l: Layout, c: Consignment)
      ensures Pending() == OperationsOf(l, c)
    {
      genesis := Some(OperationSeals(c.header.genesis.ToOperation(l.codexId(c.header.codex)),
                                     c.header.genesisSeals, None));
      operations := c.operationSeals;
    }

    function Pending(): seq<OperationSeals>
      reads this
    {
      match genesis
      case Some(os) => [os] + operations
      case None => operations
    }

    method ReadOperation() returns (r: Option<OperationSeals>)
      modifies this
      ensures r == if old(Pending()) == [] then None else Some(old(Pending())[0])
      ensures Pending() == if old(Pending()) == [] then [] else old(Pending())[1..]
    {
      if genesis.Some? {
        r, genesis := genesis, None;
      } else if operations != [] {
        r, operations := Some(operations[0]), operations[1..];
      } else {
        r := None;
      }
    }
  }

  // ---------------------------------------------------------------- both readers

  /** What the caller of the in-memory reader gets from a stream. */
  function InMemory(l: Layout, bytes: Bytes): Option<(seq<OperationSeals>, Bytes)> {
    match DecConsignment(l, bytes)
    case None => None
    case Some((c, rest)) => Some((OperationsOf(l, c), rest))
  }

  /** Where the streaming reader starts, after the extension blocks and the fields before genesis. */
  function StreamStart(l: Layout, bytes: Bytes): Option<(Preamble, Bytes)> {
    if bytes == [] then None
    else match SkipBlobs(bytes[0], bytes[1..])
      case None => None
      case Some(rest) => DecPreamble(l, rest)
  }

  /** What the caller of the streaming reader gets from a stream. */
  ghost function Streaming(l: Layout, resolver: SealResolver, bytes: Bytes): Option<(seq<OperationSeals>, Bytes)> {
    match StreamStart(l, bytes)
    case None => None
    case Some((_, rest)) => ReadAll(Reader(l, resolver), ReaderState(rest, U32_MAX))
  }

  ghost predicate Readable(l: Layout) {
    Consumes(l.operation) && Consumes(l.seals) && Consumes(l.attest)
  }

  /** Reading a frame takes something off the stream. */
  ghost predicate Shrinks(read: FrameReader) {
    forall bytes :: read(bytes).Some? ==> |read(bytes).value.1| < |bytes|
  }

  /** Once the count is read, the streaming reader reads as many frames as it says. */
  lemma {:induction false} CountedFrames(read: FrameReader, n: U32, bytes: Bytes)
    requires Shrinks(read) && n < U32_MAX
    ensures ReadAll(read, ReaderState(bytes, n)) == Frames(read, n, bytes)
    decreases n
  {
    if n > 0 && read(bytes).Some? {
      CountedFrames(read, n - 1, read(bytes).value.1);
    }
  }

  /** Genesis, the count, and then as many frames. */
  lemma FirstThenCounted(read: FrameReader, bytes: Bytes, os: OperationSeals, counted: Bytes, n: U32, tail: Bytes)
    requires Shrinks(read) && n < U32_MAX
    requires read(bytes) == Some((os, counted)) && DecU32(counted) == Some((n, tail))
    ensures ReadAll(read, ReaderState(bytes, U32_MAX)) == Prepend(os, Frames(read, n, tail))
  {
    assert Step(read, ReaderState(bytes, U32_MAX)) == Item(os, ReaderState(tail, n));
    CountedFrames(read, n, tail);
  }

  lemma {:induction false} SameFrames(a: FrameReader, b: FrameReader, n: nat, bytes: Bytes)
    requires forall x :: a(x) == b(x)
    ensures Frames(a, n, bytes) == Frames(b, n, bytes)
  {
    if n > 0 && a(bytes).Some? {
      SameFrames(a, b, n - 1, a(bytes).value.1);
    }
  }

  /** Without seals of its own, the streaming reader reads frames as the in-memory reader does. */
  lemma ReaderIsDecoder(l: Layout)
    requires Readable(l)
    ensures forall bytes :: Reader(l, NO_SEALS)(bytes) == DecFrame(l, bytes)
    ensures Shrinks(Reader(l, NO_SEALS))
  {
    forall bytes ensures Reader(l, NO_SEALS)(bytes) == DecFrame(l, bytes) {
      FramesAgree(l, bytes);
    }
    ReaderShrinks(l, NO_SEALS);
  }

  lemma ReaderShrinks(l: Layout, resolver: SealResolver)
    requires Readable(l)
    ensures Shrinks(Reader(l, resolver))
  {
    forall bytes | Reader(l, resolver)(bytes).Some? ensures |Reader(l, resolver)(bytes).value.1| < |bytes| {
      FrameConsumes(l, bytes);
      assert Reader(l, resolver)(bytes).value.1 == DecFrame(l, bytes).value.1;
    }
  }

  lemma FrameConsumes(l: Layout, bytes: Bytes)
    requires Consumes(l.operation) && Consumes(l.seals) && Consumes(l.attest)
    ensures DecFrame(l, bytes).Some? ==> |DecFrame(l, bytes).value.1| < |bytes|
  {
  }

  /** The first frame and the count after it. */
  function FirstFrame(l: Layout, bytes: Bytes): Option<((OperationSeals, U32), Bytes)> {
    match DecFrame(l, bytes)
    case None => None
    case Some((os, rest)) =>
      match DecU32(rest)
      case None => None
      case Some((n, rest')) => Some(((os, n), rest'))
  }

  /** Neither inputs nor a witness. */
  predicate IsGenesis(os: OperationSeals) { os.operation.inputs == 0 && os.sealWitness.None? }

  /** The in-memory reader takes the first frame exactly when it is that of a genesis: without inputs
      and without a witness. */
  lemma GenesisIsFirstFrame(l: Layout, bytes: Bytes)
    requires l.SharedLayout()
    ensures DecGenesis(l, bytes).Some? <==>
            FirstFrame(l, bytes).Some? && IsGenesis(FirstFrame(l, bytes).value.0.0)
    ensures DecGenesis(l, bytes).Some? ==>
      var ((os, n), rest) := FirstFrame(l, bytes).value;
      DecGenesis(l, bytes).value == ((Genesis(os.operation.contractId, os.operation.payload), os.definedSeals, n), rest)
  {
  }

  /** What follows genesis, in a stream that the streaming reader can start on. */
  lemma StreamingUnfolds(l: Layout, bytes: Bytes)
    requires Readable(l)
    ensures var first := FirstFrame(l, bytes);
      && (first.None? ==> ReadAll(Reader(l, NO_SEALS), ReaderState(bytes, U32_MAX)).None?)
      && (first.Some? && first.value.0.1 < U32_MAX ==>
            ReadAll(Reader(l, NO_SEALS), ReaderState(bytes, U32_MAX))
            == Prepend(first.value.0.0, DecFrames(l, first.value.0.1, first.value.1)))
  {
    ReaderIsDecoder(l);
    var read := Reader(l, NO_SEALS);
    assert read(bytes) == DecFrame(l, bytes);
    var first := FirstFrame(l, bytes);
    if first.Some? && first.value.0.1 < U32_MAX {
      FirstThenCounted(read, bytes, first.value.0.0, DecFrame(l, bytes).value.1, first.value.0.1, first.value.1);
      SameFrames(read, b => DecFrame(l, b), first.value.0.1, first.value.1);
    }
  }

  /** The count the stream announces after genesis. */
  function AnnouncedCount(l: Layout, bytes: Bytes): Option<U32> {
    match StreamStart(l, bytes)
    case None => None
    case Some((_, rest)) =>
      match FirstFrame(l, rest)
      case None => None
      case Some(((_, n), _)) => Some(n)
  }

  lemma StartsAgree(l: Layout, bytes: Bytes)
    ensures DecHeader(l, bytes).Some? <==>
      StreamStart(l, bytes).Some? && DecGenesis(l, StreamStart(l, bytes).value.1).Some?
    ensures DecHeader(l, bytes).Some? ==>
      var (p, rest) := StreamStart(l, bytes).value;
      var ((genesis, seals, n), rest') := DecGenesis(l, rest).value;
      var (header, rest'') := DecHeader(l, bytes).value;
      && rest'' == rest' && header.codex == p.codex
      && header.genesis == genesis && header.genesisSeals == seals && header.opCount == n
  {
    if bytes != [] {
      SkipAgrees(bytes[0], bytes[1..]);
    }
  }

  /** The same operations, the first of them under contract `id`. */
  function Renamed(ops: seq<OperationSeals>, id: int): seq<OperationSeals> {
    if ops == [] then [] else [ops[0].(operation := ops[0].operation.(contractId := id))] + ops[1..]
  }

  /** The two readers agree on every stream, well-formed or not. The in-memory reader accepts exactly
      what the streaming reader accepts with at most 65535 operations announced and a first operation
      that has neither inputs nor a witness; both then yield the same operations and leave the same
      rest, except that the first is put under the id computed from the codex. */
  lemma ReadersAgree(l: Layout, bytes: Bytes)
    requires Readable(l) && l.SharedLayout()
    ensures InMemory(l, bytes).Some? <==>
      && Streaming(l, NO_SEALS, bytes).Some?
      && AnnouncedCount(l, bytes).Some? && AnnouncedCount(l, bytes).value <= 65535
      && Streaming(l, NO_SEALS, bytes).value.0 != []
      && IsGenesis(Streaming(l, NO_SEALS, bytes).value.0[0])
    ensures InMemory(l, bytes).Some? ==>
      var (ops, rest) := Streaming(l, NO_SEALS, bytes).value;
      var id := l.codexId(StreamStart(l, bytes).value.0.codex);
      InMemory(l, bytes).value == (Renamed(ops, id), rest)
  {
    StartsAgree(l, bytes);
    if StreamStart(l, bytes).Some? {
      var rest := StreamStart(l, bytes).value.1;
      GenesisIsFirstFrame(l, rest);
      StreamingUnfolds(l, rest);
      if FirstFrame(l, rest).Some? {
        var ((os, n), after) := FirstFrame(l, rest).value;
        if n <= MAX_CONSIGNMENT_OPS {
          FromFirstFrame(l, bytes, os, n, after);
          if DecFrames(l, n, after).Some? {
            RenamedFirst(os, DecFrames(l, n, after).value.0, l.codexId(StreamStart(l, bytes).value.0.codex));
          }
        }
      }
    }
  }

  lemma RenamedFirst(os: OperationSeals, more: seq<OperationSeals>, id: int)
    ensures ([os] + more)[0] == os && [os] + more != []
    ensures Renamed([os] + more, id) == [os.(operation := os.operation.(contractId := id))] + more
  {
    assert ([os] + more)[1..] == more;
  }

  lemma FromFirstFrame(l: Layout, bytes: Bytes, os: OperationSeals, n: U32, after: Bytes)
    requires Readable(l) && l.SharedLayout() && n <= MAX_CONSIGNMENT_OPS && StreamStart(l, bytes).Some?
    requires FirstFrame(l, StreamStart(l, bytes).value.1) == Some(((os, n), after))
    ensures var id := l.codexId(StreamStart(l, bytes).value.0.codex);
      match DecFrames(l, n, after)
      case None => InMemory(l, bytes).None? && Streaming(l, NO_SEALS, bytes).None?
      case Some((more, rest)) =>
        && Streaming(l, NO_SEALS, bytes) == Some(([os] + more, rest))
        && InMemory(l, bytes) ==
           if IsGenesis(os) then Some(([os.(operation := os.operation.(contractId := id))] + more, rest)) else None
  {
    StartsAgree(l, bytes);
    GenesisIsFirstFrame(l, StreamStart(l, bytes).value.1);
    StreamingUnfolds(l, StreamStart(l, bytes).value.1);
  }

  /** The two sequences are the same exactly when genesis names the id of its own codex. */
  lemma SameOperationsIff(l: Layout, bytes: Bytes)
    requires Readable(l) && l.SharedLayout() && InMemory(l, bytes).Some?
    ensures Streaming(l, NO_SEALS, bytes).Some? && Streaming(l, NO_SEALS, bytes).value.0 != []
    ensures Streaming(l, NO_SEALS, bytes) == InMemory(l, bytes) <==>
      Streaming(l, NO_SEALS, bytes).value.0[0].operation.contractId == l.codexId(StreamStart(l, bytes).value.0.codex)
  {
    ReadersAgree(l, bytes);
    var ops := Streaming(l, NO_SEALS, bytes).value.0;
    var id := l.codexId(StreamStart(l, bytes).value.0.codex);
    assert Renamed(ops, id)[0].operation.contractId == id;
    if ops[0].operation.contractId == id {
      assert Renamed(ops, id) == [ops[0]] + ops[1..] == ops;
    }
  }

  // ---------------------------------------------------------------- export and count

  function EncFrames(l: Layout, ops: seq<OperationSeals>): Bytes {
    if ops == [] then [] else EncFrame(l, ops[0]) + EncFrames(l, ops[1..])
  }

  /** The body written for a contract: genesis, the count, and the other operations. */
  function EncBody(l: Layout, genesis: OperationSeals, ops: seq<OperationSeals>): Bytes
    requires |ops| <= U32_MAX
  {
    EncFrame(l, genesis) + EncU32(|ops|) + EncFrames(l, ops)
  }

  function Override(resolver: SealResolver, os: OperationSeals): OperationSeals
    requires FitsSeals(resolver, os)
  {
    ExtendIs(os.definedSeals, resolver(os.operation));
    os.(definedSeals := os.definedSeals + resolver(os.operation))
  }

  function OverrideAll(resolver: SealResolver, ops: seq<OperationSeals>): (r: seq<OperationSeals>)
    requires forall os :: os in ops ==> FitsSeals(resolver, os)
    ensures |r| == |ops|
  {
    if ops == [] then [] else [Override(resolver, ops[0])] + OverrideAll(resolver, ops[1..])
  }

  predicate FitsSeals(resolver: SealResolver, os: OperationSeals) {
    HasRoom(os.definedSeals, resolver(os.operation))
  }

  ghost predicate Written(l: Layout) {
    RoundTrips(l.operation) && RoundTrips(l.seals) && RoundTrips(l.attest)
  }

  lemma {:induction false} CountedRoundTrip(l: Layout, resolver: SealResolver, ops: seq<OperationSeals>, rest: Bytes)
    requires Written(l) && forall os :: os in ops ==> FitsSeals(resolver, os)
    ensures Frames(Reader(l, resolver), |ops|, EncFrames(l, ops) + rest) == Some((OverrideAll(resolver, ops), rest))
  {
    if ops == [] {
      assert EncFrames(l, ops) + rest == rest;
    } else {
      var tail := EncFrames(l, ops[1..]) + rest;
      assert EncFrames(l, ops) + rest == EncFrame(l, ops[0]) + tail;
      assert ops[0] in ops;
      FrameRoundTrip(l, resolver, ops[0], tail);
      CountedRoundTrip(l, resolver, ops[1..], rest);
    }
  }

  /** An exported body of fewer than 2^32 - 1 operations reads back as genesis and exactly those
      operations, with the seals of the wallet put over theirs, and what follows is left untouched. */
  lemma BodyRoundTrip(l: Layout, resolver: SealResolver, genesis: OperationSeals, ops: seq<OperationSeals>, rest: Bytes)
    requires Written(l) && Readable(l) && |ops| < U32_MAX
    requires FitsSeals(resolver, genesis) && forall os :: os in ops ==> FitsSeals(resolver, os)
    ensures ReadAll(Reader(l, resolver), ReaderState(EncBody(l, genesis, ops) + rest, U32_MAX))
         == Some(([Override(resolver, genesis)] + OverrideAll(resolver, ops), rest))
  {
    var tail := EncFrames(l, ops) + rest;
    ReaderShrinks(l, resolver);
    BodyStart(l, resolver, genesis, ops, rest);
    CountedRoundTrip(l, resolver, ops, rest);
    FirstThenCounted(Reader(l, resolver), EncBody(l, genesis, ops) + rest, Override(resolver, genesis),
                     EncU32(|ops|) + tail, |ops|, tail);
  }

  lemma BodyStart(l: Layout, resolver: SealResolver, genesis: OperationSeals, ops: seq<OperationSeals>, rest: Bytes)
    requires Written(l) && |ops| <= U32_MAX && FitsSeals(resolver, genesis)
    ensures var counted := EncU32(|ops|) + (EncFrames(l, ops) + rest);
      && Reader(l, resolver)(EncBody(l, genesis, ops) + rest) == Some((Override(resolver, genesis), counted))
      && DecU32(counted) == Some((|ops|, EncFrames(l, ops) + rest))
  {
    var tail := EncFrames(l, ops) + rest;
    assert EncBody(l, genesis, ops) + rest == EncFrame(l, genesis) + (EncU32(|ops|) + tail);
    FrameRoundTrip(l, resolver, genesis, EncU32(|ops|) + tail);
    U32RoundTrip(|ops|, tail);
  }

  /** A count of all ones is taken for the mark before genesis: the reader is then back where it
      started, and reads another count, `m`, after the next operation. */
  lemma CountOfAllOnes(l: Layout, resolver: SealResolver, genesis: OperationSeals, os: OperationSeals, m: U32,
                       rest: Bytes)
    requires Written(l) && FitsSeals(resolver, genesis) && FitsSeals(resolver, os)
    ensures var bytes := EncFrame(l, os) + (EncU32(m) + rest);
      && Step(Reader(l, resolver), ReaderState(EncFrame(l, genesis) + (EncU32(U32_MAX) + bytes), U32_MAX))
         == Item(Override(resolver, genesis), ReaderState(bytes, U32_MAX))
      && Step(Reader(l, resolver), ReaderState(bytes, U32_MAX)) == Item(Override(resolver, os), ReaderState(rest, m))
  {
    var bytes := EncFrame(l, os) + (EncU32(m) + rest);
    FrameRoundTrip(l, resolver, genesis, EncU32(U32_MAX) + bytes);
    U32RoundTrip(U32_MAX, bytes);
    FrameRoundTrip(l, resolver, os, EncU32(m) + rest);
    U32RoundTrip(m, rest);
  }
}
