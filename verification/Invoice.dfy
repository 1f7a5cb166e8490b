/** Witness outputs of an invoice and their text form (invoice/src/bp.rs). */
module Invoices {
  import opened Wrappers
  import opened Codecs
  import opened Base64

  /** The kind of an address, and a hash or a key of at most 32 bytes. */
  type Payload = b: Bytes | |b| <= 33

  datatype Address = Address(payload: Payload)
  datatype Script = Script(bytes: int)
  datatype WitnessOut = WitnessOut(salt: U64, address: Address)

  datatype ParseError = NoPrefix | NoChecksum | InvalidChecksum | NotBase64 | TooLong | Encoding

  const PREFIX := "wout:"

  /** The layout of an address, its script, and the hash behind the checksum, which are defined elsewhere. */
  datatype TextForm = TextForm(address: Codec<Address>, script: Address -> Script, sha: (U64, Script) -> Bytes) {

    /** Decoding undoes encoding, and an address has no other encoding. */
    ghost predicate Assumed() {
      && RoundTrips(address)
      && forall bytes :: address.dec(bytes).Some? ==>
           bytes == address.enc(address.dec(bytes).value.0) + address.dec(bytes).value.1
    }

    /** The serialized value fits the buffer: printing panics otherwise. */
    predicate Printable(w: WitnessOut) { |Serialized(w)| <= 255 }

    /** The first three bytes of the hash, the second one twice. */
    function Checksum(w: WitnessOut): (r: Bytes)
      ensures |r| == 4
    {
      var h := sha(w.salt, script(w.address)) + [0, 0, 0];
      [h[0], h[1], h[1], h[2]]
    }

    function Serialized(w: WitnessOut): Bytes { ToLe(w.salt, 8) + address.enc(w.address) }

    /** What is printed after the prefix, before dashes are put in. */
    function Text(w: WitnessOut): string { Encode(Serialized(w) + Checksum(w)) }

    function Deserialize(data: Bytes): Option<WitnessOut> {
      if |data| < 8 then None
      else match address.dec(data[8..])
        case Some((a, rest)) => if rest == []
          then (FromLeBound(data[..8]); Some(WitnessOut(FromLe(data[..8]), a))) else None
        case None => None
    }

    function Parse(s: string): Result<WitnessOut, ParseError> {
      if !(PREFIX <= s) then Err(NoPrefix)
      else match Decode(Undash(s[|PREFIX|..]))
        case None => Err(NotBase64)
        case Some(decoded) =>
          if |decoded| < 4 then Err(NoChecksum)
          else
            var n := |decoded| - 4;
            if n > 255 then Err(TooLong)
            else match Deserialize(decoded[..n])
              case None => Err(Encoding)
              case Some(w) => if decoded[n..] != Checksum(w) then Err(InvalidChecksum) else Ok(w)
    }
  }

  // ---------------------------------------------------------------- little-endian integers

  function ToLe(n: nat, k: nat): (r: Bytes)
    ensures |r| == k
  {
    if k == 0 then [] else [n % 256] + ToLe(n / 256, k - 1)
  }

  function FromLe(b: Bytes): nat {
    if b == [] then 0 else b[0] + 256 * FromLe(b[1..])
  }

  lemma {:induction false} FromToLe(n: nat, k: nat)
    requires n < Limit(k)
    ensures FromLe(ToLe(n, k)) == n
  {
    if k > 0 {
      FromToLe(n / 256, k - 1);
      assert ToLe(n, k)[1..] == ToLe(n / 256, k - 1);
    }
  }

  lemma {:induction false} ToFromLe(b: Bytes)
    ensures FromLe(b) < Limit(|b|) && ToLe(FromLe(b), |b|) == b
  {
    if b != [] {
      ToFromLe(b[1..]);
      var n := FromLe(b);
      assert n % 256 == b[0] && n / 256 == FromLe(b[1..]);
    }
  }

  lemma FromLeBound(b: Bytes)
    requires |b| == 8
    ensures FromLe(b) <= U64_MAX
  {
    ToFromLe(b);
    LimitEight();
  }

  // ---------------------------------------------------------------- dashes

  function Undash(s: string): string {
    if s == "" then "" else (if s[0] == '-' then "" else [s[0]]) + Undash(s[1..])
  }

  /** A dash after every eight characters but the last ones. */
  function Dashed(s: string): string {
    if |s| <= 8 then s else s[..8] + "-" + Dashed(s[8..])
  }

  lemma {:induction false} UndashConcat(a: string, b: string)
    ensures Undash(a + b) == Undash(a) + Undash(b)
  {
    if a == "" {
      assert a + b == b;
    } else {
      assert (a + b)[1..] == a[1..] + b;
      UndashConcat(a[1..], b);
    }
  }

  lemma {:induction false} UndashPlain(s: string)
    requires '-' !in s
    ensures Undash(s) == s
  {
    if s != "" {
      assert s[0] in s;
      assert forall c :: c in s[1..] ==> c in s;
      UndashPlain(s[1..]);
      assert [s[0]] + s[1..] == s;
    }
  }

  lemma {:induction false} UndashDashed(s: string)
    requires '-' !in s
    ensures Undash(Dashed(s)) == s
  {
    if |s| <= 8 {
      UndashPlain(s);
    } else {
      assert '-' !in s[..8] && '-' !in s[8..] by {
        assert forall c :: c in s[..8] || c in s[8..] ==> c in s;
      }
      UndashPlain(s[..8]);
      UndashDashed(s[8..]);
      UndashConcat(s[..8], "-");
      UndashConcat(s[..8] + "-", Dashed(s[8..]));
      assert Undash("-") == "";
      assert s[..8] + "" + s[8..] == s;
    }
  }

  // ---------------------------------------------------------------- printing

  lemma {:induction false} DashedChunks(s: string, k: nat)
    requires 8 * k < |s|
    ensures Dashed(s) == Dashed(s[..8 * k]) + (if k > 0 then "-" else "") + Dashed(s[8 * k..])
    decreases k
  {
    if k == 0 {
      assert s[0..] == s && s[..0] == "";
    } else if k == 1 {
      assert Dashed(s[..8]) == s[..8];
    } else {
      DashedChunks(s[8..], k - 1);
      assert s[8..][..8 * (k - 1)] == s[8..8 * k];
      assert s[8..][8 * (k - 1)..] == s[8 * k..];
      assert s[..8 * k][..8] == s[..8] && s[..8 * k][8..] == s[8..8 * k];
      Regroup(s[..8], Dashed(s[8..8 * k]), Dashed(s[8 * k..]));
    }
  }

  lemma Regroup(a: string, b: string, c: string)
    ensures a + "-" + (b + "-" + c) == (a + "-" + b) + "-" + c
  {
  }

  /** Writes the prefix and the text, a chunk of eight characters at a time. */
  method Print(f: TextForm, w: WitnessOut) returns (s: string)
    requires f.Printable(w)
    ensures s == PREFIX + Dashed(f.Text(w))
  {
    var encoded := Encode(f.Serialized(w) + f.Checksum(w));
    var written := "";
    var k := 0;
    while 8 * k < |encoded|
      invariant 8 * k < |encoded| ==> written == (if k > 0 then Dashed(encoded[..8 * k]) + "-" else "")
      invariant 8 * k >= |encoded| ==> written == Dashed(encoded)
      decreases |encoded| - 8 * k
    {
      var end := if 8 * (k + 1) < |encoded| then 8 * (k + 1) else |encoded|;
      var chunk := encoded[8 * k..end];
      DashedChunks(encoded, k);
      if end < |encoded| {
        DashedChunks(encoded[..end], k);
        assert encoded[..end][..8 * k] == encoded[..8 * k] && encoded[..end][8 * k..] == chunk;
        written := written + chunk + "-";
      } else {
        assert encoded[8 * k..] == chunk;
        written := written + chunk;
      }
      k := k + 1;
    }
    return PREFIX + written;
  }

  // ---------------------------------------------------------------- print and parse

  lemma DeserializeRoundTrip(f: TextForm, w: WitnessOut)
    requires f.Assumed()
    ensures f.Deserialize(f.Serialized(w)) == Some(w)
  {
    var data := f.Serialized(w);
    assert data[..8] == ToLe(w.salt, 8) && data[8..] == f.address.enc(w.address);
    assert data[8..] == f.address.enc(w.address) + [];
    LimitEight();
    FromToLe(w.salt, 8);
  }

  lemma SerializeRoundTrip(f: TextForm, data: Bytes)
    requires f.Assumed() && f.Deserialize(data).Some?
    ensures f.Serialized(f.Deserialize(data).value) == data
  {
    ToFromLe(data[..8]);
    var (a, rest) := f.address.dec(data[8..]).value;
    assert data[8..] == f.address.enc(a) + rest == f.address.enc(a);
    assert data[..8] + data[8..] == data;
  }

  /** A string parses to a witness output exactly when that can be printed and the string has the prefix
      and is, dashes removed, the text printed: nothing else is accepted, and every placing of dashes is. */
  lemma ParsesIff(f: TextForm, s: string, w: WitnessOut)
    requires f.Assumed()
    ensures f.Parse(s) == Ok(w) <==> f.Printable(w) && PREFIX <= s && Undash(s[|PREFIX|..]) == f.Text(w)
  {
    var data, sum := f.Serialized(w), f.Checksum(w);
    if PREFIX <= s {
      var text := Undash(s[|PREFIX|..]);
      if f.Printable(w) && text == f.Text(w) {
        DecodeAfterEncode(data + sum);
        assert (data + sum)[..|data|] == data && (data + sum)[|data|..] == sum;
        DeserializeRoundTrip(f, w);
      }
      if f.Parse(s) == Ok(w) {
        EncodeAfterDecode(text);
        var decoded := Decode(text).value;
        var n := |decoded| - 4;
        SerializeRoundTrip(f, decoded[..n]);
        assert decoded[..n] + decoded[n..] == decoded;
      }
    }
  }

  lemma ChecksumBytes(f: TextForm, w: WitnessOut, hash: Bytes)
    requires hash == f.sha(w.salt, f.script(w.address)) && |hash| >= 3
    ensures f.Checksum(w) == [hash[0], hash[1], hash[1], hash[2]]
  {
  }

  /** A value under another checksum than its own is refused for that. */
  lemma WrongChecksum(f: TextForm, s: string, w: WitnessOut, sum: Bytes)
    requires f.Assumed() && f.Printable(w) && |sum| == 4
    requires PREFIX <= s && Undash(s[|PREFIX|..]) == Encode(f.Serialized(w) + sum)
    ensures sum != f.Checksum(w) ==> f.Parse(s) == Err(InvalidChecksum)
  {
    var data := f.Serialized(w);
    DecodeAfterEncode(data + sum);
    assert (data + sum)[..|data|] == data && (data + sum)[|data|..] == sum;
    DeserializeRoundTrip(f, w);
  }

  /** Parsing the printed form returns the witness output, for every salt and printable address. */
  lemma ParseAfterPrint(f: TextForm, w: WitnessOut)
    requires f.Assumed() && f.Printable(w)
    ensures f.Parse(PREFIX + Dashed(f.Text(w))) == Ok(w)
  {
    var s := PREFIX + Dashed(f.Text(w));
    assert s[|PREFIX|..] == Dashed(f.Text(w));
    EncodedChars(f.Serialized(w) + f.Checksum(w));
    assert '-' !in f.Text(w);
    UndashDashed(f.Text(w));
    ParsesIff(f, s, w);
  }

  // ---------------------------------------------------------------- an address layout

  /** The payload after its length. */
  function PlainAddress(): Codec<Address> {
    Codec((a: Address) => [|a.payload|] + a.payload,
          bytes => if bytes == [] || bytes[0] > 33 || |bytes| <= bytes[0] then None
                   else Some((Address(bytes[1..1 + bytes[0]]), bytes[1 + bytes[0]..])))
  }

  /** With it everything assumed of a text form holds, and every witness output can be printed. */
  lemma PlainAddressMeets(f: TextForm)
    requires f.address == PlainAddress()
    ensures f.Assumed() && forall w :: f.Printable(w)
  {
    forall a: Address, rest ensures f.address.dec(f.address.enc(a) + rest) == Some((a, rest)) {
      var bytes := [|a.payload|] + a.payload + rest;
      assert bytes[1..1 + bytes[0]] == a.payload && bytes[1 + bytes[0]..] == rest;
    }
    forall bytes | f.address.dec(bytes).Some?
      ensures bytes == f.address.enc(f.address.dec(bytes).value.0) + f.address.dec(bytes).value.1
    {
      var n := bytes[0];
      assert bytes == [n] + bytes[1..1 + n] + bytes[1 + n..];
    }
  }
}
