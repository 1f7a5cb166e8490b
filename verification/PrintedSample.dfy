/** The printed form of one witness output, the one of the unit test of invoice/src/bp.rs. */
module PrintedSample {
  import opened Wrappers
  import opened Codecs
  import opened Base64
  import opened Invoices

  lemma EncodeTriple(b0: Byte, b1: Byte, b2: Byte, rest: Bytes)
    ensures Encode([b0, b1, b2] + rest) == Chars(Triple(b0, b1, b2)) + Encode(rest)
  {
    var b := [b0, b1, b2] + rest;
    assert b[3..] == rest;
    CharsConcat(Triple(b0, b1, b2), ToSextets(rest));
  }

  lemma CharsConcat(a: seq<Sextet>, b: seq<Sextet>)
    ensures Chars(a + b) == Chars(a) + Chars(b)
  {
  }

  // ---------------------------------------------------------------- chunks

  /** The eight characters of six bytes. */
  predicate Spells(chunk: string, b0: Byte, b1: Byte, b2: Byte, c0: Byte, c1: Byte, c2: Byte) {
    |chunk| == 8 && SpellsFour(chunk[..4], b0, b1, b2) && SpellsFour(chunk[4..], c0, c1, c2)
  }

  predicate SpellsFour(quad: string, b0: Byte, b1: Byte, b2: Byte) {
    && |quad| == 4 && ValueOf(quad[0]) == Some(b0 / 4) && ValueOf(quad[1]) == Some(b0 % 4 * 16 + b1 / 16)
    && ValueOf(quad[2]) == Some(b1 % 16 * 4 + b2 / 64) && ValueOf(quad[3]) == Some(b2 % 64)
  }

  lemma CharsSpelled(quad: string, b0: Byte, b1: Byte, b2: Byte)
    requires SpellsFour(quad, b0, b1, b2)
    ensures Chars(Triple(b0, b1, b2)) == quad
  {
  }

  /** Six bytes make a chunk of eight characters, and a dash if something follows. */
  lemma Chunk(chunk: string, b0: Byte, b1: Byte, b2: Byte, c0: Byte, c1: Byte, c2: Byte, rest: Bytes)
    requires rest != [] && Spells(chunk, b0, b1, b2, c0, c1, c2)
    ensures Dashed(Encode([b0, b1, b2, c0, c1, c2] + rest)) == chunk + ("-" + Dashed(Encode(rest)))
  {
    var x, y, z := chunk[..4], chunk[4..], Encode(rest);
    assert [b0, b1, b2, c0, c1, c2] + rest == [b0, b1, b2] + ([c0, c1, c2] + rest);
    EncodeTriple(b0, b1, b2, [c0, c1, c2] + rest);
    EncodeTriple(c0, c1, c2, rest);
    CharsSpelled(x, b0, b1, b2);
    CharsSpelled(y, c0, c1, c2);
    SomethingEncoded(rest);
    DashedMore(chunk, z);
    Halves(chunk, z);
  }

  lemma Halves(chunk: string, rest: string)
    requires |chunk| == 8
    ensures chunk[..4] + (chunk[4..] + rest) == chunk + rest
  {
  }

  lemma SomethingEncoded(b: Bytes)
    requires b != []
    ensures Encode(b) != ""
  {
    assert |ToSextets(b)| > 0;
  }

  lemma DashedMore(chunk: string, rest: string)
    requires |chunk| == 8 && rest != ""
    ensures Dashed(chunk + rest) == chunk + ("-" + Dashed(rest))
  {
  }

  lemma LastChunk(quad: string, b0: Byte, b1: Byte, b2: Byte)
    requires SpellsFour(quad, b0, b1, b2)
    ensures Dashed(Encode([b0, b1, b2])) == quad
  {
    EncodeTriple(b0, b1, b2, []);
    CharsSpelled(quad, b0, b1, b2);
    assert [b0, b1, b2] + [] == [b0, b1, b2] && Encode([]) == "" && quad + "" == quad;
  }

  // ---------------------------------------------------------------- the sample

  const SIX_ONES: Bytes := [1, 1, 1, 1, 1, 1]

  /** What follows the first ones of the key. */
  function Tail(): Bytes { SIX_ONES + (SIX_ONES + (SIX_ONES + (SIX_ONES + End()))) }

  function End(): Bytes { [1, 1, 1, 1, 1, 0x4c] + [0x0c, 0x0c, 0x76] }

  lemma OnesSpelled()
    ensures Spells("AQEBAQEB", 1, 1, 1, 1, 1, 1)
  {
  }

  lemma LastSpelled()
    ensures Spells("AQEBAQFM", 1, 1, 1, 1, 1, 0x4c) && SpellsFour("DAx2", 0x0c, 0x0c, 0x76)
  {
  }

  lemma FirstSpelled()
    ensures Spells("~sqtG6__", 0xfe, 0xca, 0xad, 0x1b, 0xaf, 0xbe)
  {
  }

  lemma SecondSpelled()
    ensures Spells("rd4gAQEB", 0xad, 0xde, 0x20, 1, 1, 1)
  {
  }

  lemma TailPrinted()
    ensures Dashed(Encode(Tail())) == "AQEBAQEB" + ("-" + ("AQEBAQEB" + ("-" + ("AQEBAQEB" + ("-" + ("AQEBAQEB"
              + ("-" + ("AQEBAQFM" + ("-" + "DAx2")))))))))
  {
    OnesSpelled();
    LastSpelled();
    LastChunk("DAx2", 0x0c, 0x0c, 0x76);
    Chunk("AQEBAQFM", 1, 1, 1, 1, 1, 0x4c, [0x0c, 0x0c, 0x76]);
    Chunk("AQEBAQEB", 1, 1, 1, 1, 1, 1, End());
    Chunk("AQEBAQEB", 1, 1, 1, 1, 1, 1, SIX_ONES + End());
    Chunk("AQEBAQEB", 1, 1, 1, 1, 1, 1, SIX_ONES + (SIX_ONES + End()));
    Chunk("AQEBAQEB", 1, 1, 1, 1, 1, 1, SIX_ONES + (SIX_ONES + (SIX_ONES + End())));
  }

  lemma HeadPrinted(rest: Bytes)
    requires rest != []
    ensures Dashed(Encode([0xfe, 0xca, 0xad, 0x1b, 0xaf, 0xbe] + ([0xad, 0xde, 0x20, 1, 1, 1] + rest)))
         == "~sqtG6__" + ("-" + ("rd4gAQEB" + ("-" + Dashed(Encode(rest)))))
  {
    FirstSpelled();
    SecondSpelled();
    Chunk("~sqtG6__", 0xfe, 0xca, 0xad, 0x1b, 0xaf, 0xbe, [0xad, 0xde, 0x20, 1, 1, 1] + rest);
    Chunk("rd4gAQEB", 0xad, 0xde, 0x20, 1, 1, 1, rest);
  }

  function Ones(n: nat): Bytes { seq(n, i => 1) }

  lemma LowByteFirst(low: Byte, rest: Bytes)
    ensures FromLe([low] + rest) == low + 256 * FromLe(rest)
  {
    assert ([low] + rest)[1..] == rest;
  }

  lemma HighSalt(b: Bytes)
    requires b == [0xaf, 0xbe, 0xad, 0xde]
    ensures FromLe(b) == 0xdead_beaf
  {
    LowByteFirst(0xde, []);
    LowByteFirst(0xad, [0xde]);
    LowByteFirst(0xbe, [0xad, 0xde]);
    LowByteFirst(0xaf, [0xbe, 0xad, 0xde]);
    assert [0xde] + [] == [0xde] && [0xad] + [0xde] == [0xad, 0xde];
    assert [0xbe] + [0xad, 0xde] == [0xbe, 0xad, 0xde] && [0xaf] + [0xbe, 0xad, 0xde] == b;
  }

  lemma FullSalt(high: Bytes)
    requires FromLe(high) == 0xdead_beaf
    ensures FromLe([0xfe] + ([0xca] + ([0xad] + ([0x1b] + high)))) == 0xdead_beaf_1bad_cafe
  {
    LowByteFirst(0x1b, high);
    LowByteFirst(0xad, [0x1b] + high);
    LowByteFirst(0xca, [0xad] + ([0x1b] + high));
    LowByteFirst(0xfe, [0xca] + ([0xad] + ([0x1b] + high)));
  }

  lemma SaltBytes(salt: nat)
    requires salt == 0xdead_beaf_1bad_cafe
    ensures ToLe(salt, 8) == [0xfe, 0xca, 0xad, 0x1b, 0xaf, 0xbe] + [0xad, 0xde]
  {
    var high := [0xaf, 0xbe, 0xad, 0xde];
    var b := [0xfe, 0xca, 0xad, 0x1b, 0xaf, 0xbe] + [0xad, 0xde];
    HighSalt(high);
    FullSalt(high);
    assert b == [0xfe] + ([0xca] + ([0xad] + ([0x1b] + high)));
    ToFromLe(b);
  }

  lemma KeyBytes()
    ensures [0xad, 0xde] + ([0x20] + Ones(32)) + [0x4c, 0x0c, 0x0c, 0x76] == [0xad, 0xde, 0x20, 1, 1, 1] + Tail()
  {
    assert Ones(32) == [1, 1, 1] + Ones(29) && Ones(29) == Ones(24) + Ones(5);
    assert Tail() == Ones(24) + End();
    assert End() == Ones(5) + [0x4c, 0x0c, 0x0c, 0x76];
  }

  lemma Contents(salt: U64, key: Bytes, sum: Bytes)
    requires salt == 0xdead_beaf_1bad_cafe && key == [0x20] + Ones(32) && sum == [0x4c, 0x0c, 0x0c, 0x76]
    ensures ToLe(salt, 8) + key + sum
         == [0xfe, 0xca, 0xad, 0x1b, 0xaf, 0xbe] + ([0xad, 0xde, 0x20, 1, 1, 1] + Tail())
  {
    SaltBytes(salt);
    KeyBytes();
  }

  /** A salt, a key of ones and the hash of the two give the text that the unit test expects. */
  lemma PrintedAsExpected(f: TextForm, w: WitnessOut)
    requires w.salt == 0xdead_beaf_1bad_cafe && f.address.enc(w.address) == [0x20] + Ones(32)
    requires [0x4c, 0x0c, 0x76] <= f.sha(w.salt, f.script(w.address))
    ensures PREFIX + Dashed(f.Text(w)) == "wout:"
              + ("~sqtG6__" + ("-" + ("rd4gAQEB" + ("-" + ("AQEBAQEB" + ("-" + ("AQEBAQEB" + ("-" + ("AQEBAQEB"
              + ("-" + ("AQEBAQEB" + ("-" + ("AQEBAQFM" + ("-" + "DAx2"))))))))))))))
  {
    ChecksumBytes(f, w, f.sha(w.salt, f.script(w.address)));
    Contents(w.salt, f.address.enc(w.address), f.Checksum(w));
    TailPrinted();
    HeadPrinted(Tail());
  }
}
