/** Codecs that satisfy the laws assumed of the libraries, so that the theorems are about something. */
module Samples {
  import opened Bytes
  import opened Wire
  import opened Source
  import opened Receiver
  import opened Safety
  import Tower

  function Power(k: nat): nat { if k == 0 then 1 else 256 * Power(k - 1) }

  /** The `k` lowest base-256 digits, least significant first, as bincode writes integers. */
  function Digits(n: nat, k: nat): (b: Bytes)
    ensures |b| == k
  {
    if k == 0 then [] else [n % 256] + Digits(n / 256, k - 1)
  }

  function Value(b: Bytes): nat { if b == [] then 0 else b[0] + 256 * Value(b[1..]) }

  lemma {:induction false} DigitsRoundTrip(n: nat, k: nat)
    requires n < Power(k)
    ensures Value(Digits(n, k)) == n
  {
    if k > 0 { DigitsRoundTrip(n / 256, k - 1); }
  }

  lemma Widths()
    ensures Power(4) == U32_LIMIT && Power(8) == U64_LIMIT
  {
    assert Power(2) == 65536;
    assert Power(4) == 256 * (256 * Power(2));
    assert Power(6) == 256 * (256 * Power(4));
    assert Power(8) == 256 * (256 * Power(6));
  }

  function Flag(b: bool): byte { if b then 1 else 0 }

  function Encode(d: Descriptor): Bytes {
    Digits(d.index, 8) + (Digits(d.offset, 8) + (Digits(d.compressedSize, 4) + (Digits(d.uncompressedSize, 4) +
    (Digits(d.parityIndex, 8) + (Digits(d.fecGroup, 8) + ([Flag(d.wasCompressed), Flag(d.isParity)] + d.checksum))))))
  }

  function Decode(b: Bytes): Option<Descriptor> {
    if |b| != 42 + CHECKSUM_BYTES then None
    else Some(Descriptor(Value(b[..8]), Value(b[8..][..8]), Value(b[8..][8..][..4]), Value(b[8..][8..][4..][..4]),
                         b[42..], b[40] == 1, b[41] == 1,
                         Value(b[8..][8..][4..][4..][..8]), Value(b[8..][8..][4..][4..][8..][..8])))
  }

  lemma Split(a: Bytes, b: Bytes)
    ensures (a + b)[..|a|] == a && (a + b)[|a|..] == b
  {}

  lemma EncodeRoundTrip(d: Descriptor)
    requires InRange(d)
    ensures Decode(Encode(d)) == Some(d) && |Encode(d)| == 42 + CHECKSUM_BYTES
  {
    Widths();
    DigitsRoundTrip(d.index, 8);
    DigitsRoundTrip(d.offset, 8);
    DigitsRoundTrip(d.compressedSize, 4);
    DigitsRoundTrip(d.uncompressedSize, 4);
    DigitsRoundTrip(d.parityIndex, 8);
    DigitsRoundTrip(d.fecGroup, 8);
    hide Digits, Value, Power;
    var b7 := [Flag(d.wasCompressed), Flag(d.isParity)] + d.checksum;
    var b6 := Digits(d.fecGroup, 8) + b7;
    var b5 := Digits(d.parityIndex, 8) + b6;
    var b4 := Digits(d.uncompressedSize, 4) + b5;
    var b3 := Digits(d.compressedSize, 4) + b4;
    var b2 := Digits(d.offset, 8) + b3;
    var b1 := Digits(d.index, 8) + b2;
    Split(Digits(d.index, 8), b2);
    Split(Digits(d.offset, 8), b3);
    Split(Digits(d.compressedSize, 4), b4);
    Split(Digits(d.uncompressedSize, 4), b5);
    Split(Digits(d.parityIndex, 8), b6);
    Split(Digits(d.fecGroup, 8), b7);
    assert b1[40..] == b7;
    assert b1[40] == b1[40..][0] && b1[41] == b1[40..][1] && b1[42..] == b1[40..][2..] == d.checksum;
  }

  function SampleCodecs(): Codecs {
    Codecs((b: Bytes) => Zeros(CHECKSUM_BYTES), Encode, Decode, (b: Bytes, level: int) => b, (b: Bytes) => Some(b),
            Tower.GF)
  }

  lemma SampleLawful()
    ensures Lawful(SampleCodecs())
  {
    var c := SampleCodecs();
    Tower.GFLawful();
    assert forall b :: |c.hash(b)| == CHECKSUM_BYTES;
    forall d | InRange(d) ensures c.decode(c.encode(d)) == Some(d) && 1 <= |c.encode(d)| <= DESCRIPTOR_BOUND {
      EncodeRoundTrip(d);
      assert c.encode(d) == Encode(d) && c.decode(Encode(d)) == Decode(Encode(d));
    }
    assert forall b, level :: c.unzip(c.zip(b, level)) == Some(b);
  }

  /** A transfer of any file below 2^63 bytes with the dimensions a sender plans is a valid one. */
  lemma TransfersExist(source: Bytes, chunkSize: nat, mode: Compression, dataShards: nat, parityShards: nat)
    requires 0 < chunkSize < U32_LIMIT - DESCRIPTOR_BOUND - 4 && |source| < U64_LIMIT / 2
    requires 0 < dataShards && dataShards + parityShards <= 256
    ensures Valid(Transfer(SampleCodecs(), source, chunkSize, mode, dataShards, parityShards))
  {
    SampleLawful();
    hide Lawful, SampleCodecs;
  }

  /** A frame whose declared body exceeds the limit is refused and changes nothing. */
  lemma LongBodyRefused(k: Config, s: Recv, d: Descriptor, body: Bytes)
    requires Accepts(k) && k.codecs.decode(k.codecs.encode(d)) == Some(d)
    requires 1 <= |k.codecs.encode(d)| <= MAX_CHUNK_DESCRIPTOR_BYTES && d.compressedSize > MaxBody(k.manifest)
    ensures Ingest(k, s, Frame(k.codecs, d, body)) == (s, Err)
  {
    ParseFrame(k.codecs, d, body, []);
    assert Frame(k.codecs, d, body) + [] == Frame(k.codecs, d, body);
  }

  /** Descriptors of one length that decode to themselves. */
  ghost predicate FixedLength(c: Codecs, len: nat) {
    && (forall b :: |c.hash(b)| == CHECKSUM_BYTES)
    && forall d :: InRange(d) ==> c.decode(c.encode(d)) == Some(d) && |c.encode(d)| == len
  }

  /** The frames of a full group of such a codec are all as long as a header and a chunk. */
  lemma FixedGroupLen(t: Transfer, len: nat)
    requires FixedLength(t.codecs, len) && t.compression == Uncompressed && 0 < t.dataShards <= 256
    requires 0 < t.chunkSize < U32_LIMIT && FullGroup(t, 0) && |t.source| == t.dataShards * t.chunkSize < U64_LIMIT
    ensures GroupLen(t, 0) == 4 + len + t.chunkSize
  {
    var frames := GroupFrames(t, 0);
    forall slot | 0 <= slot < t.dataShards ensures |frames[slot]| == 4 + len + t.chunkSize {
      FixedFrameLen(t, len, slot);
    }
    assert |frames[0]| == 4 + len + t.chunkSize;
  }

  lemma FixedFrameLen(t: Transfer, len: nat, i: nat)
    requires FixedLength(t.codecs, len) && t.compression == Uncompressed && 0 < t.dataShards
    requires 0 < t.chunkSize < U32_LIMIT && i < t.dataShards && |t.source| == t.dataShards * t.chunkSize < U64_LIMIT
    ensures ChunkAt(t, 0, i) == i && |DataFrame(t, i)| == 4 + len + t.chunkSize
  {
    Arith.MulIsProduct(t.dataShards, t.chunkSize);
    Arith.MulStep(i, t.dataShards, t.chunkSize);
    Arith.MulAtLeast(i, t.chunkSize);
    Arith.DivAtMost(i, t.dataShards);
    assert InRange(DataDescriptor(t, i));
  }

  /** The bound on descriptors is the largest one: with descriptors one byte longer, the receiver refuses
      the parity of a group of full 16 KiB chunks. */
  lemma BoundIsTight(t: Transfer, verify: bool, s: Recv)
    requires FixedLength(t.codecs, DESCRIPTOR_BOUND + 1) && t.compression == Uncompressed
    requires t.chunkSize == 16384 && t.dataShards == 1 && t.parityShards == 1 && |t.source| == 16384
    ensures Accepts(ConfigOf(t, verify))
    ensures Ingest(ConfigOf(t, verify), s, ParityFrame(t, 0, 0, 1)) == (s, Err)
  {
    Arith.MulIsProduct(16384, 4);
    OneFullGroup(t);
    FixedGroupLen(t, DESCRIPTOR_BOUND + 1);
    var body := ParityBody(t, 0, 0);
    ParityFieldsInRange(t.codecs, 0, 0, 1, body);
    LongBodyRefused(ConfigOf(t, verify), s, ParityDescriptor(t.codecs, 0, 0, 1, body), body);
  }

  lemma OneFullGroup(t: Transfer)
    requires t.chunkSize == 16384 && t.dataShards == 1 && |t.source| == 16384
    ensures NumChunks(t) == 1 && FullGroup(t, 0)
  {
    ChunkRange(t, 0);
    ChunkRange(t, 1);
    assert Start(t, 0) == 0 && Start(t, 1) == 16384;
    assert Arith.Mul(1, 1) == 1;
  }

  function LongEncode(d: Descriptor): Bytes { Encode(d) + Zeros(DESCRIPTOR_BOUND + 1 - 42 - CHECKSUM_BYTES) }

  function LongDecode(b: Bytes): Option<Descriptor> {
    if |b| != DESCRIPTOR_BOUND + 1 then None else Decode(b[..42 + CHECKSUM_BYTES])
  }

  lemma LongRoundTrip(d: Descriptor)
    requires InRange(d)
    ensures LongDecode(LongEncode(d)) == Some(d) && |LongEncode(d)| == DESCRIPTOR_BOUND + 1
  {
    EncodeRoundTrip(d);
    hide Encode, Decode;
    Split(Encode(d), Zeros(DESCRIPTOR_BOUND + 1 - 42 - CHECKSUM_BYTES));
  }

  function LongCodecs(): Codecs {
    Codecs((b: Bytes) => Zeros(CHECKSUM_BYTES), LongEncode, LongDecode, (b: Bytes, level: int) => b, (b: Bytes) => Some(b),
           Tower.GF)
  }

  /** Codecs with descriptors of that length exist. */
  lemma LongDescriptorsExist()
    ensures FixedLength(LongCodecs(), DESCRIPTOR_BOUND + 1)
  {
    var c := LongCodecs();
    hide LongEncode, LongDecode, InRange, Tower.GF;
    assert forall b :: |c.hash(b)| == CHECKSUM_BYTES;
    forall d | InRange(d) ensures c.decode(c.encode(d)) == Some(d) && |c.encode(d)| == DESCRIPTOR_BOUND + 1 {
      LongRoundTrip(d);
      assert c.encode(d) == LongEncode(d) && c.decode(LongEncode(d)) == LongDecode(LongEncode(d));
    }
  }
}
