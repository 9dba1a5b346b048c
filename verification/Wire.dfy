/** Chunk frames: a length-prefixed descriptor followed by a body. */
module Wire {
  import opened Bytes
  import Fields

  const MAX_CHUNK_DESCRIPTOR_BYTES: nat := 1024 * 1024
  const CHECKSUM_BYTES: nat := 32

  /** The longest encoded descriptor for which every parity body passes the receiver's size test. */
  const DESCRIPTOR_BOUND: nat := 49148

  datatype Compression = Uncompressed | Zstd(level: int)

  datatype Descriptor = Descriptor(
    index: nat, offset: nat, compressedSize: nat, uncompressedSize: nat, checksum: Bytes,
    wasCompressed: bool, isParity: bool, parityIndex: nat, fecGroup: nat)

  /** The manifest fields that the data path reads. */
  datatype Manifest = Manifest(
    totalSize: nat, chunkSize: nat, numChunks: nat, compression: Compression,
    dataShards: nat, parityShards: nat)

  /** The libraries the protocol is built on: BLAKE3, bincode, zstd and the field of the erasure code. */
  datatype Codecs = Codecs(
    hash: Bytes -> Bytes,
    encode: Descriptor -> Bytes,
    decode: Bytes -> Option<Descriptor>,
    zip: (Bytes, int) -> Bytes,
    unzip: Bytes -> Option<Bytes>,
    field: Fields.Field<byte>)

  /** The descriptor fits the integer widths of its fields. */
  ghost predicate InRange(d: Descriptor) {
    && d.index < U64_LIMIT && d.offset < U64_LIMIT && d.parityIndex < U64_LIMIT && d.fecGroup < U64_LIMIT
    && d.compressedSize < U32_LIMIT && d.uncompressedSize < U32_LIMIT
    && |d.checksum| == CHECKSUM_BYTES
  }

  ghost predicate Lawful(c: Codecs) {
    && (forall b :: |c.hash(b)| == CHECKSUM_BYTES)
    && (forall d :: InRange(d) ==> c.decode(c.encode(d)) == Some(d) && 1 <= |c.encode(d)| <= DESCRIPTOR_BOUND)
    && (forall b, level :: c.unzip(c.zip(b, level)) == Some(b))
    && Fields.Lawful(c.field)
  }

  function CheckFrameLen(len: nat, max: nat): Result<()> {
    if len == 0 || len > max then Err else Ok(())
  }

  /** True when the first bytes are those of a format that does not compress further. */
  predicate LikelyCompressed(b: Bytes) {
    |b| >= 4 &&
    var m := b[..4];
    || m == [0x50, 0x4B, 0x03, 0x04] || m[..2] == [0x1F, 0x8B] || m == [0x28, 0xB5, 0x2F, 0xFD]
    || m == [0x04, 0x22, 0x4D, 0x18] || m == [0x89, 0x48, 0x44, 0x46] || m == [0x72, 0x6F, 0x6F, 0x74]
    || m[..3] == [0x42, 0x5A, 0x68] || m == [0x37, 0x7A, 0xBC, 0xAF]
  }

  function MaybeCompress(c: Codecs, input: Bytes, mode: Compression): (r: Bytes)
    ensures |r| <= |input|
  {
    match mode
    case Uncompressed => input
    case Zstd(level) =>
      if LikelyCompressed(input) then input
      else
        var z := c.zip(input, level);
        if |z| >= |input| then input else z
  }

  function MaybeDecompress(c: Codecs, input: Bytes, mode: Compression): Option<Bytes> {
    match mode
    case Uncompressed => Some(input)
    case Zstd(_) => c.unzip(input)
  }

  /** The marks of ZIP, GZIP, Zstandard, LZ4, HDF5, ROOT, BZIP2 and 7-Zip. */
  const MARKS: seq<Bytes> := [
    [0x50, 0x4B, 0x03, 0x04], [0x1F, 0x8B], [0x28, 0xB5, 0x2F, 0xFD], [0x04, 0x22, 0x4D, 0x18],
    [0x89, 0x48, 0x44, 0x46], [0x72, 0x6F, 0x6F, 0x74], [0x42, 0x5A, 0x68], [0x37, 0x7A, 0xBC, 0xAF]]

  predicate Marked(b: Bytes) { |b| >= 4 && exists i :: 0 <= i < |MARKS| && MARKS[i] <= b }

  lemma MarksDetected(b: Bytes)
    ensures LikelyCompressed(b) <==> Marked(b)
  {
    if |b| >= 4 {
      forall i | 0 <= i < |MARKS| ensures MARKS[i] <= b <==> b[..|MARKS[i]|] == MARKS[i] {}
      assert b[..4][..2] == b[..2] && b[..4][..3] == b[..3];
      if LikelyCompressed(b) {
        var m := b[..4];
        assert MARKS[0] <= b || MARKS[1] <= b || MARKS[2] <= b || MARKS[3] <= b
            || MARKS[4] <= b || MARKS[5] <= b || MARKS[6] <= b || MARKS[7] <= b;
      }
    }
  }

  /** Compression takes the shorter of a body and its compressed form, and leaves marked formats alone. */
  lemma TakesTheShorter(c: Codecs, input: Bytes, level: int)
    ensures MaybeCompress(c, input, Uncompressed) == input
    ensures var r, z := MaybeCompress(c, input, Zstd(level)), c.zip(input, level);
            if Marked(input) then r == input
            else (r == z || r == input) && |r| <= |z| && |r| <= |input| && (|z| < |input| ==> r == z)
  {
    MarksDetected(input);
    hide LikelyCompressed, Marked;
  }

  /** What the receiver gets back by decompressing exactly when the body got shorter. */
  function Unpack(c: Codecs, body: Bytes, wasCompressed: bool, mode: Compression): Option<Bytes> {
    if wasCompressed then MaybeDecompress(c, body, mode) else Some(body)
  }

  /** The length comparison tells a compressed body from a passed-through one. */
  lemma CompressionRoundTrip(c: Codecs, raw: Bytes, mode: Compression)
    requires Lawful(c)
    ensures var body := MaybeCompress(c, raw, mode); Unpack(c, body, |body| < |raw|, mode) == Some(raw)
  {}

  function Frame(c: Codecs, d: Descriptor, body: Bytes): (w: Bytes)
    ensures |w| == 4 + |c.encode(d)| + |body|
  {
    Be32(|c.encode(d)|) + c.encode(d) + body
  }

  /** The descriptor at the front of `wire` and its encoded length. */
  function ParseHeader(c: Codecs, wire: Bytes): (r: Result<(Descriptor, nat)>)
    ensures r.Ok? ==> 4 + r.value.1 <= |wire|
  {
    if |wire| < 4 then Err
    else
      var len := FromBe32(wire);
      if CheckFrameLen(len, MAX_CHUNK_DESCRIPTOR_BYTES).Err? then Err
      else if |wire| < 4 + len then Err
      else
        match c.decode(wire[4..4 + len])
        case None => Err
        case Some(d) => Ok((d, len))
  }

  /** Bytes past the end of a frame, such as the zeros of a padded shard, do not disturb the parse. */
  /** A frame is parsed if and only if its descriptor is not empty and takes at most a mebibyte. */
  lemma HeaderLimit(c: Codecs, d: Descriptor, body: Bytes, tail: Bytes)
    requires c.decode(c.encode(d)) == Some(d) && |c.encode(d)| < U32_LIMIT
    ensures ParseHeader(c, Frame(c, d, body) + tail).Ok? <==> 1 <= |c.encode(d)| <= 1024 * 1024
  {
    var w, len := Frame(c, d, body) + tail, |c.encode(d)|;
    assert w == Be32(len) + (c.encode(d) + body + tail);
    Be32RoundTrip(len, c.encode(d) + body + tail);
    if 1 <= len <= 1024 * 1024 { ParseFrame(c, d, body, tail); }
  }

  lemma ParseFrame(c: Codecs, d: Descriptor, body: Bytes, tail: Bytes)
    requires c.decode(c.encode(d)) == Some(d) && 1 <= |c.encode(d)| <= MAX_CHUNK_DESCRIPTOR_BYTES
    ensures var w := Frame(c, d, body) + tail; var len := |c.encode(d)|;
            ParseHeader(c, w) == Ok((d, len)) && w[4 + len..4 + len + |body|] == body
  {
    var w, len := Frame(c, d, body) + tail, |c.encode(d)|;
    assert w == Be32(len) + (c.encode(d) + body + tail);
    Be32RoundTrip(len, c.encode(d) + body + tail);
    assert w[4..4 + len] == c.encode(d);
    assert w[4 + len..4 + len + |body|] == body;
  }
}
