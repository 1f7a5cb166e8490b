/** Base64 without padding (section 4 and section 3.2 of RFC 4648) over the alphabet of letters, digits,
    `_` and `~`, decoding canonical text only (section 3.5 of RFC 4648). */
module Base64 {
  import opened Wrappers

  type Sextet = n: nat | n < 64

  function CharOf(v: Sextet): char {
    if v < 26 then 'A' + v as char
    else if v < 52 then 'a' + (v - 26) as char
    else if v < 62 then '0' + (v - 52) as char
    else if v == 62 then '_'
    else '~'
  }

  function ValueOf(c: char): (r: Option<Sextet>)
    ensures r.Some? <==> 'A' <= c <= 'Z' || 'a' <= c <= 'z' || '0' <= c <= '9' || c == '_' || c == '~'
    ensures r.Some? ==> CharOf(r.value) == c
  {
    if 'A' <= c <= 'Z' then Some((c - 'A') as nat)
    else if 'a' <= c <= 'z' then Some((c - 'a') as nat + 26)
    else if '0' <= c <= '9' then Some((c - '0') as nat + 52)
    else if c == '_' then Some(62)
    else if c == '~' then Some(63)
    else None
  }

  lemma ValueOfChar(v: Sextet)
    ensures ValueOf(CharOf(v)) == Some(v)
  {
  }

  function Triple(b0: Byte, b1: Byte, b2: Byte): (r: seq<Sextet>)
    ensures |r| == 4
  {
    [b0 / 4, Mix(b0 % 4, 16, b1 / 16), Mix(b1 % 16, 4, b2 / 64), b2 % 64]
  }

  function Mix(high: int, scale: int, low: int): int { high * scale + low }

  function Chars(vs: seq<Sextet>): (r: string)
    ensures |r| == |vs| && forall i :: 0 <= i < |vs| ==> r[i] == CharOf(vs[i])
  {
    seq(|vs|, i requires 0 <= i < |vs| => CharOf(vs[i]))
  }

  function ToSextets(b: seq<Byte>): seq<Sextet> {
    if b == [] then []
    else if |b| == 1 then Triple(b[0], 0, 0)[..2]
    else if |b| == 2 then Triple(b[0], b[1], 0)[..3]
    else Triple(b[0], b[1], b[2]) + ToSextets(b[3..])
  }

  function Encode(b: seq<Byte>): string { Chars(ToSextets(b)) }

  /** The three bytes of four sextets. */
  function Bytes3(v0: Sextet, v1: Sextet, v2: Sextet, v3: Sextet): (r: seq<Byte>)
    ensures |r| == 3
  {
    [Mix(v0, 4, v1 / 16), Mix(v1 % 16, 16, v2 / 4), Mix(v2 % 4, 64, v3)]
  }

  /** One sextet alone makes no byte, and the last sextet of a short group may have no stray bits. */
  function FromSextets(v: seq<Sextet>): Option<seq<Byte>> {
    if v == [] then Some([])
    else if |v| == 1 then None
    else if |v| == 2 then if v[1] % 16 == 0 then Some(Bytes3(v[0], v[1], 0, 0)[..1]) else None
    else if |v| == 3 then if v[2] % 4 == 0 then Some(Bytes3(v[0], v[1], v[2], 0)[..2]) else None
    else match FromSextets(v[4..])
      case None => None
      case Some(rest) => Some(Bytes3(v[0], v[1], v[2], v[3]) + rest)
  }

  function Values(s: string): Option<seq<Sextet>> {
    if forall i :: 0 <= i < |s| ==> ValueOf(s[i]).Some?
    then Some(seq(|s|, i requires 0 <= i < |s| && ValueOf(s[i]).Some? => ValueOf(s[i]).value))
    else None
  }

  function Decode(s: string): Option<seq<Byte>> {
    match Values(s)
    case None => None
    case Some(v) => FromSextets(v)
  }

  lemma ValuesOfChars(v: seq<Sextet>)
    ensures Values(Chars(v)) == Some(v)
  {
    var s := Chars(v);
    forall i | 0 <= i < |s| ensures ValueOf(s[i]) == Some(v[i]) {
      ValueOfChar(v[i]);
    }
    assert Values(s).value == v;
  }

  lemma MixSplits(high: nat, scale: nat, low: nat)
    requires (scale == 4 || scale == 16 || scale == 64) && low < scale
    ensures Mix(high, scale, low) / scale == high && Mix(high, scale, low) % scale == low
  {
  }

  lemma SplitMixes(n: nat, scale: nat)
    requires scale == 4 || scale == 16 || scale == 64
    ensures Mix(n / scale, scale, n % scale) == n
  {
  }

  lemma TripleRoundTrip(b0: Byte, b1: Byte, b2: Byte)
    ensures var v := Triple(b0, b1, b2); Bytes3(v[0], v[1], v[2], v[3]) == [b0, b1, b2]
  {
    MixSplits(b0 % 4, 16, b1 / 16);
    MixSplits(b1 % 16, 4, b2 / 64);
    SplitMixes(b0, 4);
    SplitMixes(b1, 16);
    SplitMixes(b2, 64);
  }

  lemma Bytes3RoundTrip(v0: Sextet, v1: Sextet, v2: Sextet, v3: Sextet)
    ensures var b := Bytes3(v0, v1, v2, v3); Triple(b[0], b[1], b[2]) == [v0, v1, v2, v3]
  {
    MixSplits(v0, 4, v1 / 16);
    MixSplits(v1 % 16, 16, v2 / 4);
    MixSplits(v2 % 4, 64, v3);
    SplitMixes(v1, 16);
    SplitMixes(v2, 4);
  }

  lemma OneByte(b: seq<Byte>)
    requires |b| == 1
    ensures FromSextets(ToSextets(b)) == Some(b)
  {
    var v := Triple(b[0], 0, 0);
    TripleRoundTrip(b[0], 0, 0);
    MixSplits(b[0] % 4, 16, 0);
    FromTwo(v, b);
  }

  lemma FromTwo(v: seq<Sextet>, b: seq<Byte>)
    requires |v| == 4 && |b| == 1 && v[1] % 16 == 0 && Bytes3(v[0], v[1], v[2], v[3]) == [b[0], 0, 0]
    ensures FromSextets(v[..2]) == Some(b)
  {
    assert Bytes3(v[0], v[1], 0, 0)[..1] == b;
  }

  lemma TwoBytes(b: seq<Byte>)
    requires |b| == 2
    ensures FromSextets(ToSextets(b)) == Some(b)
  {
    var v := Triple(b[0], b[1], 0);
    TripleRoundTrip(b[0], b[1], 0);
    MixSplits(b[1] % 16, 4, 0);
    FromThree(v, b);
  }

  lemma FromThree(v: seq<Sextet>, b: seq<Byte>)
    requires |v| == 4 && |b| == 2 && v[2] % 4 == 0 && Bytes3(v[0], v[1], v[2], v[3]) == [b[0], b[1], 0]
    ensures FromSextets(v[..3]) == Some(b)
  {
    assert Bytes3(v[0], v[1], v[2], 0)[..2] == b;
  }

  lemma ShortSextets(v: seq<Sextet>)
    requires |v| <= 3 && FromSextets(v).Some?
    ensures ToSextets(FromSextets(v).value) == v
  {
    if |v| == 2 {
      Bytes3RoundTrip(v[0], v[1], 0, 0);
      assert Bytes3(v[0], v[1], 0, 0)[1..] == [0, 0];
    } else if |v| == 3 {
      Bytes3RoundTrip(v[0], v[1], v[2], 0);
      assert Bytes3(v[0], v[1], v[2], 0)[2..] == [0];
    }
  }

  lemma {:induction false} SextetsOfBytes(b: seq<Byte>)
    ensures FromSextets(ToSextets(b)) == Some(b)
  {
    if |b| == 1 {
      OneByte(b);
    } else if |b| == 2 {
      TwoBytes(b);
    } else if |b| > 2 {
      SextetsOfBytes(b[3..]);
      TripleRoundTrip(b[0], b[1], b[2]);
      assert ToSextets(b)[4..] == ToSextets(b[3..]);
      assert [b[0], b[1], b[2]] + b[3..] == b;
    }
  }

  lemma {:induction false} BytesOfSextets(v: seq<Sextet>)
    requires FromSextets(v).Some?
    ensures ToSextets(FromSextets(v).value) == v
  {
    if |v| <= 3 {
      ShortSextets(v);
    } else {
      var rest := FromSextets(v[4..]).value;
      BytesOfSextets(v[4..]);
      Bytes3RoundTrip(v[0], v[1], v[2], v[3]);
      var b := Bytes3(v[0], v[1], v[2], v[3]);
      assert (b + rest)[3..] == rest;
      assert [v[0], v[1], v[2], v[3]] + v[4..] == v;
    }
  }

  /** Decoding undoes encoding, for every byte string. */
  lemma DecodeAfterEncode(b: seq<Byte>)
    ensures Decode(Encode(b)) == Some(b)
  {
    ValuesOfChars(ToSextets(b));
    SextetsOfBytes(b);
  }

  /** Only the encoding of a byte string decodes to it. */
  lemma EncodeAfterDecode(s: string)
    requires Decode(s).Some?
    ensures Encode(Decode(s).value) == s
  {
    BytesOfSextets(Values(s).value);
  }

  lemma EncodedChars(b: seq<Byte>)
    ensures forall c :: c in Encode(b) ==> ValueOf(c).Some?
  {
  }
}
