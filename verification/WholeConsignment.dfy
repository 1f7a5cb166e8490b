/** A whole consignment as it is written, and what each of the two readers makes of it (src/consignment.rs, and
    `consume_internal` of src/contract.rs). */
module WholeConsignments {
  import opened Wrappers
  import opened Seals
  import opened Codecs
  import opened Consignments

  ghost predicate HeaderWritten(l: Layout) {
    RoundTrips(l.semantics) && RoundTrips(l.sig) && RoundTrips(l.meta) && RoundTrips(l.codex) && RoundTrips(l.genesis)
  }

  /** At most 255 extension blocks of at most 65535 bytes, and as many operations as the header says. */
  predicate WellFormed(c: Consignment) {
    && |c.header.extensions| <= 255 && (forall b :: b in c.header.extensions ==> |b| <= U16_MAX)
    && |c.operationSeals| == c.header.opCount <= MAX_CONSIGNMENT_OPS
  }

  /** The fields before genesis: semantics, signature, a reserved byte, metadata and codex. */
  function EncPreamble(l: Layout, p: Preamble): Bytes {
    l.semantics.enc(p.semantics) + (EncOption(l.sig, p.sig) + ([0] + (l.meta.enc(p.meta) + l.codex.enc(p.codex))))
  }

  /** Genesis, its seals, a reserved byte in place of a witness, and the count. */
  function EncGenesis(l: Layout, genesis: Genesis, seals: SealMap, n: U32): Bytes {
    l.genesis.enc(genesis) + (l.seals.enc(seals) + ([0] + EncU32(n)))
  }

  function PreambleOf(h: Header): Preamble { Preamble(h.semantics, h.sig, h.meta, h.codex) }

  /** The extension blocks with their number, the preamble, genesis, and the operations. */
  function EncConsignment(l: Layout, c: Consignment): Bytes
    requires WellFormed(c)
  {
    var h := c.header;
    [|h.extensions|] + (EncBlobs(h.extensions) + (EncPreamble(l, PreambleOf(h)) + AfterPreamble(l, c)))
  }

  function AfterPreamble(l: Layout, c: Consignment): Bytes {
    EncGenesis(l, c.header.genesis, c.header.genesisSeals, c.header.opCount) + EncFrames(l, c.operationSeals)
  }

  lemma PreambleRoundTrip(l: Layout, p: Preamble, rest: Bytes)
    requires HeaderWritten(l)
    ensures DecPreamble(l, EncPreamble(l, p) + rest) == Some((p, rest))
  {
    var s5 := l.codex.enc(p.codex) + rest;
    var s4 := l.meta.enc(p.meta) + s5;
    var s3 := [0] + s4;
    var s2 := EncOption(l.sig, p.sig) + s3;
    assert EncPreamble(l, p) + rest == l.semantics.enc(p.semantics) + s2;
    OptionRoundTrip(l.sig, p.sig, s3);
    assert DecReserved(s3) == Some(s4);
    assert l.meta.dec(s4) == Some((p.meta, s5)) && l.codex.dec(s5) == Some((p.codex, rest));
  }

  lemma GenesisRoundTrip(l: Layout, genesis: Genesis, seals: SealMap, n: U32, rest: Bytes)
    requires HeaderWritten(l) && Written(l)
    ensures DecGenesis(l, EncGenesis(l, genesis, seals, n) + rest) == Some(((genesis, seals, n), rest))
  {
    var s3 := EncU32(n) + rest;
    var s2 := [0] + s3;
    var s1 := l.seals.enc(seals) + s2;
    assert EncGenesis(l, genesis, seals, n) + rest == l.genesis.enc(genesis) + s1;
    assert DecReserved(s2) == Some(s3);
    U32RoundTrip(n, rest);
    assert l.genesis.dec(l.genesis.enc(genesis) + s1) == Some((genesis, s1));
    assert l.seals.dec(s1) == Some((seals, s2));
  }

  /** Where both readers are after the extension blocks and the preamble. */
  lemma StartOf(l: Layout, c: Consignment, rest: Bytes)
    requires HeaderWritten(l) && WellFormed(c)
    ensures var bytes, start := EncConsignment(l, c) + rest, AfterPreamble(l, c) + rest;
      && bytes != [] && DecBlobs(bytes[0], bytes[1..]) == Some((c.header.extensions, FieldsOf(l, c, rest)))
      && DecPreamble(l, FieldsOf(l, c, rest)) == Some((PreambleOf(c.header), start))
      && StreamStart(l, bytes) == Some((PreambleOf(c.header), start))
  {
    var bytes := EncConsignment(l, c) + rest;
    BlobsOf(l, c, rest);
    PreambleRoundTrip(l, PreambleOf(c.header), AfterPreamble(l, c) + rest);
    SkipAgrees(bytes[0], bytes[1..]);
  }

  function FieldsOf(l: Layout, c: Consignment, rest: Bytes): Bytes {
    EncPreamble(l, PreambleOf(c.header)) + (AfterPreamble(l, c) + rest)
  }

  lemma BlobsOf(l: Layout, c: Consignment, rest: Bytes)
    requires WellFormed(c)
    ensures var bytes := EncConsignment(l, c) + rest;
      bytes != [] && DecBlobs(bytes[0], bytes[1..]) == Some((c.header.extensions, FieldsOf(l, c, rest)))
  {
    var bytes, fields := EncConsignment(l, c) + rest, FieldsOf(l, c, rest);
    Nested([|c.header.extensions|], EncBlobs(c.header.extensions), EncPreamble(l, PreambleOf(c.header)),
           AfterPreamble(l, c), rest);
    assert bytes[1..] == EncBlobs(c.header.extensions) + fields;
    BlobsRoundTrip(c.header.extensions, fields);
  }

  lemma Nested(a: Bytes, b: Bytes, c: Bytes, d: Bytes, rest: Bytes)
    ensures a + (b + (c + d)) + rest == a + (b + (c + (d + rest)))
  {
  }

  lemma GenesisStart(l: Layout, c: Consignment, rest: Bytes)
    requires HeaderWritten(l) && Written(l)
    ensures DecGenesis(l, AfterPreamble(l, c) + rest)
         == Some(((c.header.genesis, c.header.genesisSeals, c.header.opCount), EncFrames(l, c.operationSeals) + rest))
  {
    var tail := EncFrames(l, c.operationSeals) + rest;
    var h := c.header;
    assert AfterPreamble(l, c) + rest == EncGenesis(l, h.genesis, h.genesisSeals, h.opCount) + tail;
    GenesisRoundTrip(l, h.genesis, h.genesisSeals, h.opCount, tail);
  }

  lemma DecodesHeader(l: Layout, c: Consignment, rest: Bytes)
    requires HeaderWritten(l) && Written(l) && WellFormed(c)
    ensures DecHeader(l, EncConsignment(l, c) + rest) == Some((c.header, EncFrames(l, c.operationSeals) + rest))
  {
    StartOf(l, c, rest);
    GenesisStart(l, c, rest);
  }

  lemma DecodesFrames(l: Layout, ops: seq<OperationSeals>, rest: Bytes)
    requires Written(l)
    ensures DecFrames(l, |ops|, EncFrames(l, ops) + rest) == Some((ops, rest))
  {
    forall os, tail ensures DecFrame(l, EncFrame(l, os) + tail) == Some((os, tail)) {
      DecodesFrame(l, os, tail);
    }
    FramesWritten(l, b => DecFrame(l, b), ops, rest);
  }

  /** The in-memory reader gets the consignment back as it was written, and leaves what follows. */
  lemma DecodesWhole(l: Layout, c: Consignment, rest: Bytes)
    requires HeaderWritten(l) && Written(l) && WellFormed(c)
    ensures DecConsignment(l, EncConsignment(l, c) + rest) == Some((c, rest))
  {
    DecodesHeader(l, c, rest);
    DecodesFrames(l, c.operationSeals, rest);
  }

  lemma {:induction false} FramesWritten(l: Layout, read: FrameReader, ops: seq<OperationSeals>, rest: Bytes)
    requires forall os, tail :: read(EncFrame(l, os) + tail) == Some((os, tail))
    ensures Frames(read, |ops|, EncFrames(l, ops) + rest) == Some((ops, rest))
  {
    if ops == [] {
      assert EncFrames(l, ops) + rest == rest;
    } else {
      var tail := EncFrames(l, ops[1..]) + rest;
      assert EncFrames(l, ops) + rest == EncFrame(l, ops[0]) + tail;
      FramesWritten(l, read, ops[1..], rest);
      assert [ops[0]] + ops[1..] == ops;
    }
  }

  lemma DecodesFrame(l: Layout, os: OperationSeals, rest: Bytes)
    requires Written(l)
    ensures DecFrame(l, EncFrame(l, os) + rest) == Some((os, rest))
  {
    var tail := EncOption(l.attest, os.sealWitness) + rest;
    var middle := l.seals.enc(os.definedSeals) + tail;
    assert EncFrame(l, os) + rest == l.operation.enc(os.operation) + middle;
    assert l.operation.dec(l.operation.enc(os.operation) + middle) == Some((os.operation, middle));
    assert l.seals.dec(middle) == Some((os.definedSeals, tail));
    OptionRoundTrip(l.attest, os.sealWitness, rest);
  }

  /** Genesis as the streaming reader yields it: under the codex it names. */
  function FirstOf(c: Consignment): OperationSeals {
    OperationSeals(c.header.genesis.ToOperation(c.header.genesis.codexId), c.header.genesisSeals, None)
  }

  /** The streaming reader yields genesis and then the operations, with the seals of the wallet put over theirs,
      and leaves what follows. */
  lemma StreamsWhole(l: Layout, resolver: SealResolver, c: Consignment, rest: Bytes)
    requires HeaderWritten(l) && Written(l) && Readable(l) && l.SharedLayout() && WellFormed(c)
    requires FitsSeals(resolver, FirstOf(c)) && forall os :: os in c.operationSeals ==> FitsSeals(resolver, os)
    ensures Streaming(l, resolver, EncConsignment(l, c) + rest)
         == Some(([Override(resolver, FirstOf(c))] + OverrideAll(resolver, c.operationSeals), rest))
  {
    var start, tail := AfterPreamble(l, c) + rest, EncFrames(l, c.operationSeals) + rest;
    StartOf(l, c, rest);
    ReaderShrinks(l, resolver);
    var counted := EncU32(c.header.opCount) + tail;
    GenesisFrame(l, resolver, c, rest);
    U32RoundTrip(c.header.opCount, tail);
    CountedRoundTrip(l, resolver, c.operationSeals, rest);
    FirstThenCounted(Reader(l, resolver), start, Override(resolver, FirstOf(c)), counted, c.header.opCount, tail);
  }

  /** The streaming reader takes genesis for the first frame. */
  lemma GenesisFrame(l: Layout, resolver: SealResolver, c: Consignment, rest: Bytes)
    requires HeaderWritten(l) && Written(l) && l.SharedLayout() && FitsSeals(resolver, FirstOf(c))
    ensures ReadFrame(l, resolver, AfterPreamble(l, c) + rest)
         == Some((Override(resolver, FirstOf(c)), EncU32(c.header.opCount) + (EncFrames(l, c.operationSeals) + rest)))
  {
    var h := c.header;
    var s3 := EncU32(h.opCount) + (EncFrames(l, c.operationSeals) + rest);
    var s2 := [0] + s3;
    var s1 := l.seals.enc(h.genesisSeals) + s2;
    var start := l.genesis.enc(h.genesis) + s1;
    assert AfterPreamble(l, c) + rest == start;
    assert l.genesis.dec(start) == Some((h.genesis, s1));
    assert l.operation.dec(start) == Some((h.genesis.ToOperation(h.genesis.codexId), s1));
    assert l.seals.dec(s1) == Some((h.genesisSeals, s2));
    ReservedIsAbsent(l.attest, s2);
    assert s2[1..] == s3;
    ExtendIs(h.genesisSeals, resolver(FirstOf(c).operation));
  }
}
