/** Byte streams and the codecs of the fields that make up a consignment. */
module Codecs {
  import opened Wrappers
  import opened Seals

  type Bytes = seq<Byte>

  /** An encoder, and a decoder from the front of a stream that returns what is left. */
  datatype Codec<!T> = Codec(enc: T -> Bytes, dec: Bytes -> Option<(T, Bytes)>)

  /** Decoding undoes encoding, whatever follows. */
  ghost predicate RoundTrips<T(!new)>(c: Codec<T>) {
    forall x, rest :: c.dec(c.enc(x) + rest) == Some((x, rest))
  }

  /** Decoding takes at least one byte from the front of the stream. */
  ghost predicate Consumes<T(!new)>(c: Codec<T>) {
    forall bytes :: c.dec(bytes).Some? ==> |c.dec(bytes).value.1| < |bytes|
  }

  // ---------------------------------------------------------------- fixed layouts

  function Word(b0: int, b1: int, b2: int, b3: int): int {
    b0 + 0x100 * (b1 + 0x100 * (b2 + 0x100 * b3))
  }

  /** Four bytes, least significant first. */
  function EncU32(n: U32): (r: Bytes)
    ensures |r| == 4
  {
    [n % 0x100, n / 0x100 % 0x100, n / 0x1_0000 % 0x100, n / 0x100_0000]
  }

  function DecU32(bytes: Bytes): (r: Option<(U32, Bytes)>)
    ensures r.Some? ==> |r.value.1| + 4 == |bytes|
  {
    if |bytes| < 4 then None else Some((Word(bytes[0], bytes[1], bytes[2], bytes[3]), bytes[4..]))
  }

  lemma U32RoundTrip(n: U32, rest: Bytes)
    ensures DecU32(EncU32(n) + rest) == Some((n, rest))
  {
    var bytes := EncU32(n) + rest;
    assert bytes[4..] == rest;
    var q := n / 0x100;
    assert n / 0x1_0000 == q / 0x100 && n / 0x100_0000 == q / 0x100 / 0x100;
  }

  function HalfWord(b0: int, b1: int): int { b0 + 0x100 * b1 }

  function DecU16(bytes: Bytes): Option<(U16, Bytes)> {
    if |bytes| < 2 then None else Some((HalfWord(bytes[0], bytes[1]), bytes[2..]))
  }

  /** Two bytes, least significant first. */
  function EncU16(n: U16): (r: Bytes)
    ensures |r| == 2
  {
    [n % 0x100, n / 0x100]
  }

  lemma U16RoundTrip(n: U16, rest: Bytes)
    ensures DecU16(EncU16(n) + rest) == Some((n, rest))
  {
    assert (EncU16(n) + rest)[2..] == rest;
  }

  lemma ByteOrder()
    ensures EncU16(0x0102) == [2, 1] && EncU32(0x0102_0304) == [4, 3, 2, 1]
  {
  }

  /** A reserved byte, which must be zero. */
  function DecReserved(bytes: Bytes): Option<Bytes> {
    if |bytes| < 1 || bytes[0] != 0 then None else Some(bytes[1..])
  }

  /** An optional value: a byte that is zero or one, then the value if it is one. */
  function EncOption<T>(c: Codec<T>, x: Option<T>): Bytes {
    match x
    case None => [0]
    case Some(v) => [1] + c.enc(v)
  }

  function DecOption<T>(c: Codec<T>, bytes: Bytes): Option<(Option<T>, Bytes)> {
    if |bytes| < 1 then None
    else if bytes[0] == 0 then Some((None, bytes[1..]))
    else if bytes[0] != 1 then None
    else match c.dec(bytes[1..])
      case None => None
      case Some((v, rest)) => Some((Some(v), rest))
  }

  lemma OptionRoundTrip<T(!new)>(c: Codec<T>, x: Option<T>, rest: Bytes)
    requires RoundTrips(c)
    ensures DecOption(c, EncOption(c, x) + rest) == Some((x, rest))
  {
    match x
    case None => assert (EncOption(c, x) + rest)[1..] == rest;
    case Some(v) => assert (EncOption(c, x) + rest)[1..] == c.enc(v) + rest;
  }

  /** Only zero and one are taken for the byte before an optional value. */
  lemma OptionFlags<T>(c: Codec<T>, bytes: Bytes)
    ensures DecOption(c, bytes).Some? <==>
            bytes != [] && (bytes[0] == 0 || (bytes[0] == 1 && c.dec(bytes[1..]).Some?))
    ensures DecOption(c, bytes).Some? ==> (DecOption(c, bytes).value.0.Some? <==> bytes[0] == 1)
  {
  }

  /** A reserved byte is read where, and only where, an absent optional value is. */
  lemma ReservedIsAbsent<T>(c: Codec<T>, bytes: Bytes)
    ensures DecReserved(bytes).Some? <==> DecOption(c, bytes).Some? && DecOption(c, bytes).value.0.None?
    ensures DecReserved(bytes).Some? ==> DecOption(c, bytes).value.1 == DecReserved(bytes).value
  {
  }

  // ---------------------------------------------------------------- extension blocks

  /** A blob of at most 65535 bytes, after its length. */
  function DecBlob(bytes: Bytes): Option<(Bytes, Bytes)> {
    match DecU16(bytes)
    case None => None
    case Some((n, rest)) => if n <= |rest| then Some((rest[..n], rest[n..])) else None
  }

  /** The extension blocks as the in-memory reader keeps them. */
  function DecBlobs(n: nat, bytes: Bytes): Option<(seq<Bytes>, Bytes)> {
    if n == 0 then Some(([], bytes))
    else match DecBlob(bytes)
      case None => None
      case Some((blob, rest)) =>
        match DecBlobs(n - 1, rest)
        case None => None
        case Some((blobs, rest')) => Some(([blob] + blobs, rest'))
  }

  type Blob = b: Bytes | |b| <= U16_MAX

  function EncBlobs(blobs: seq<Blob>): Bytes {
    if blobs == [] then [] else EncU16(|blobs[0]|) + blobs[0] + EncBlobs(blobs[1..])
  }

  lemma {:induction false} BlobsRoundTrip(blobs: seq<Blob>, rest: Bytes)
    ensures DecBlobs(|blobs|, EncBlobs(blobs) + rest) == Some((blobs, rest))
  {
    if blobs == [] {
      assert EncBlobs(blobs) + rest == rest;
    } else {
      var blob, tail := blobs[0], EncBlobs(blobs[1..]) + rest;
      assert EncBlobs(blobs) + rest == EncU16(|blob|) + (blob + tail);
      U16RoundTrip(|blob|, blob + tail);
      assert DecBlob(EncBlobs(blobs) + rest) == Some((blob, tail));
      BlobsRoundTrip(blobs[1..], rest);
      assert [blob] + blobs[1..] == blobs;
    }
  }

  /** The extension blocks as the streaming reader skips them: a length, then that many bytes. */
  function SkipBlobs(n: nat, bytes: Bytes): Option<Bytes> {
    if n == 0 then Some(bytes)
    else match DecU16(bytes)
      case None => None
      case Some((len, rest)) => if len <= |rest| then SkipBlobs(n - 1, rest[len..]) else None
  }

  lemma {:induction false} SkipAgrees(n: nat, bytes: Bytes)
    ensures SkipBlobs(n, bytes) == match DecBlobs(n, bytes) case None => None case Some((_, rest)) => Some(rest)
  {
    if n > 0 && DecBlob(bytes).Some? {
      SkipAgrees(n - 1, DecBlob(bytes).value.1);
    }
  }
}
