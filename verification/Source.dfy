/** What a sender puts on the wire for a file: data frames, and parity frames of full groups. */
module Source {
  import opened Bytes
  import opened Wire
  import opened ReedSolomon
  import opened Arith

  datatype Transfer = Transfer(
    codecs: Codecs, source: Bytes, chunkSize: nat, compression: Compression,
    dataShards: nat, parityShards: nat)

  ghost predicate Valid(t: Transfer) {
    && Lawful(t.codecs)
    && 0 < t.chunkSize && t.chunkSize + 4 + DESCRIPTOR_BOUND < U32_LIMIT
    && |t.source| < U64_LIMIT / 2
    && 0 < t.dataShards && t.dataShards + t.parityShards <= MAX_SHARDS
  }

  function NumChunks(t: Transfer): nat
    requires t.chunkSize > 0
  {
    Div(|t.source| + t.chunkSize - 1, t.chunkSize)
  }

  function ManifestOf(t: Transfer): Manifest
    requires t.chunkSize > 0
  {
    Manifest(|t.source|, t.chunkSize % U32_LIMIT, NumChunks(t), t.compression, t.dataShards, t.parityShards)
  }

  function Start(t: Transfer, i: nat): nat { Mul(i, t.chunkSize) }

  function End(t: Transfer, i: nat): nat { Min(Start(t, i + 1), |t.source|) }

  /** The bytes of chunk `i`, empty past the end of the file. */
  function ChunkBytes(t: Transfer, i: nat): Bytes {
    if Start(t, i) >= |t.source| then [] else t.source[Start(t, i)..][..Min(|t.source| - Start(t, i), t.chunkSize)]
  }

  lemma StartMonotone(t: Transfer, i: nat, j: nat)
    requires i <= j
    ensures Start(t, i) <= Start(t, j)
    ensures i < j ==> Start(t, i + 1) <= Start(t, j)
    ensures Start(t, i + 1) == Start(t, i) + t.chunkSize
  {
    MulMonotone(i, j, t.chunkSize);
    if i < j { MulStep(i, j, t.chunkSize); }
  }

  /** The chunks below NumChunks are exactly the non-empty ones. */
  lemma ChunkRange(t: Transfer, i: nat)
    requires t.chunkSize > 0
    ensures i < NumChunks(t) <==> Start(t, i) < |t.source|
    ensures i < NumChunks(t) ==>
              Start(t, i) < End(t, i) <= |t.source| && ChunkBytes(t, i) == t.source[Start(t, i)..End(t, i)]
  {
    var n := NumChunks(t);
    StartMonotone(t, i, i);
    if i < n { StartMonotone(t, i, n); } else { StartMonotone(t, n, i); }
  }

  /** Every byte of the file lies in one chunk. */
  lemma ChunkOfByte(t: Transfer, k: nat)
    requires t.chunkSize > 0 && k < |t.source|
    ensures var i := Div(k, t.chunkSize); i < NumChunks(t) && Start(t, i) <= k < End(t, i)
  {
    var i := Div(k, t.chunkSize);
    StartMonotone(t, i, i);
    ChunkRange(t, i);
  }

  function DataDescriptor(t: Transfer, i: nat): Descriptor
    requires t.dataShards > 0
  {
    var raw := ChunkBytes(t, i);
    var body := MaybeCompress(t.codecs, raw, t.compression);
    Descriptor(i, Start(t, i), |body| % U32_LIMIT, |raw| % U32_LIMIT, t.codecs.hash(body),
               |body| < |raw|, false, 0, Div(i, t.dataShards))
  }

  function DataBody(t: Transfer, i: nat): Bytes { MaybeCompress(t.codecs, ChunkBytes(t, i), t.compression) }

  function DataFrame(t: Transfer, i: nat): (w: Bytes)
    requires t.dataShards > 0
    ensures |w| > 0
  {
    Frame(t.codecs, DataDescriptor(t, i), DataBody(t, i))
  }

  lemma DataDescriptorInRange(t: Transfer, i: nat)
    requires Valid(t) && i < NumChunks(t)
    ensures InRange(DataDescriptor(t, i))
    ensures DataDescriptor(t, i).compressedSize == |DataBody(t, i)| <= t.chunkSize
  {
    ChunkRange(t, i);
    StartMonotone(t, i, i);
    MulAtLeast(i, t.chunkSize);
    DivAtMost(i, t.dataShards);
  }

  /** What a data frame says of its chunk. It is compressed exactly when that makes it shorter and it is not of a
      compressed format already. */
  lemma DescriptorTells(t: Transfer, i: nat)
    requires Valid(t) && i < NumChunks(t)
    ensures var d, raw, body := DataDescriptor(t, i), ChunkBytes(t, i), DataBody(t, i);
            && d.index == i && d.offset == Start(t, i) && d.fecGroup == Div(i, t.dataShards) && !d.isParity
            && d.uncompressedSize == |raw| && d.compressedSize == |body| && d.checksum == t.codecs.hash(body)
            && (d.wasCompressed <==>
                  t.compression.Zstd? && !Marked(raw) && |t.codecs.zip(raw, t.compression.level)| < |raw|)
            && body == if d.wasCompressed then t.codecs.zip(raw, t.compression.level) else raw
  {
    DataDescriptorInRange(t, i);
    ChunkRange(t, i);
    StartMonotone(t, i, i);
    if t.compression.Zstd? { TakesTheShorter(t.codecs, ChunkBytes(t, i), t.compression.level); }
    hide Marked, Lawful;
  }

  /** A group whose chunks all exist; only such a group has parity. */
  predicate FullGroup(t: Transfer, g: nat)
    requires t.chunkSize > 0
  {
    Mul(g + 1, t.dataShards) <= NumChunks(t)
  }

  function ChunkAt(t: Transfer, g: nat, slot: nat): nat { Mul(g, t.dataShards) + slot }

  lemma GroupOfChunk(t: Transfer, g: nat, slot: nat)
    requires slot < t.dataShards
    ensures Div(ChunkAt(t, g, slot), t.dataShards) == g
    ensures t.chunkSize > 0 && FullGroup(t, g) ==> ChunkAt(t, g, slot) < NumChunks(t)
  {
    DivUnique(ChunkAt(t, g, slot), t.dataShards, g);
  }

  function MaxLen(ws: seq<Bytes>): (m: nat)
    ensures forall i :: 0 <= i < |ws| ==> |ws[i]| <= m
    ensures ws == [] || exists i :: 0 <= i < |ws| && |ws[i]| == m
  {
    if ws == [] then 0 else Max(|ws[0]|, MaxLen(ws[1..]))
  }

  function GroupFrames(t: Transfer, g: nat): (ws: seq<Bytes>)
    requires t.dataShards > 0
    ensures |ws| == t.dataShards
    ensures forall slot :: 0 <= slot < t.dataShards ==> ws[slot] == DataFrame(t, ChunkAt(t, g, slot))
  {
    seq(t.dataShards, slot requires 0 <= slot < t.dataShards => DataFrame(t, ChunkAt(t, g, slot)))
  }

  function PadAll(ws: seq<Bytes>, len: nat): (rows: seq<Bytes>)
    ensures |rows| == |ws| && Rectangular(rows, len)
    ensures forall i :: 0 <= i < |ws| ==> rows[i] == Resize(ws[i], len)
  {
    seq(|ws|, i requires 0 <= i < |ws| => Resize(ws[i], len))
  }

  function GroupLen(t: Transfer, g: nat): nat
    requires t.dataShards > 0
  {
    MaxLen(GroupFrames(t, g))
  }

  function GroupRows(t: Transfer, g: nat): (rows: seq<Bytes>)
    requires t.dataShards > 0
    ensures |rows| == t.dataShards && Rectangular(rows, GroupLen(t, g))
  {
    PadAll(GroupFrames(t, g), GroupLen(t, g))
  }

  /** The body of parity frame `i` of group `g`. */
  function ParityBody(t: Transfer, g: nat, i: nat): (row: Bytes)
    requires 0 < t.dataShards && t.dataShards + i < MAX_SHARDS
    ensures |row| == GroupLen(t, g)
  {
    ParityRow(t.codecs.field, GroupRows(t, g), i, GroupLen(t, g))
  }

  /** The index field of a parity descriptor: counted down from the top, so that it names no chunk. */
  function ParityIndexField(g: nat, i: nat, p: nat): nat {
    SatSub(SatSub(U64_LIMIT - 1, SatMul(g, p + 16)), i)
  }

  /** It names no chunk of the file if and only if the count down from the top stays above the chunks, and two parity
      frames of encoders with the same count then have different indices. */
  lemma ParityIndexApart(g: nat, i: nat, p: nat, chunks: nat)
    requires 0 < chunks < U64_LIMIT
    ensures ParityIndexField(g, i, p) >= chunks <==> Mul(g, p + 16) + i + chunks < U64_LIMIT
  {}

  lemma ParityIndexUnique(g: nat, i: nat, h: nat, j: nat, p: nat)
    requires i < p && j < p && Mul(g, p + 16) + i < U64_LIMIT && Mul(h, p + 16) + j < U64_LIMIT
    requires ParityIndexField(g, i, p) == ParityIndexField(h, j, p)
    ensures g == h && i == j
  {
    if g < h { MulStep(g, h, p + 16); }
    if h < g { MulStep(h, g, p + 16); }
  }

  function ParityDescriptor(c: Codecs, g: nat, i: nat, p: nat, body: Bytes): Descriptor {
    Descriptor(ParityIndexField(g, i, p), 0, |body| % U32_LIMIT, |body| % U32_LIMIT, c.hash(body), false, true, i, g)
  }

  /** Parity frame `i` of group `g`, as an encoder with `p` parity rows emits it. */
  function ParityFrame(t: Transfer, g: nat, i: nat, p: nat): Bytes
    requires 0 < t.dataShards && t.dataShards + i < MAX_SHARDS
  {
    var body := ParityBody(t, g, i);
    Frame(t.codecs, ParityDescriptor(t.codecs, g, i, p, body), body)
  }

  lemma GroupBounded(t: Transfer, g: nat)
    requires 0 < t.chunkSize && 0 < t.dataShards && FullGroup(t, g)
    ensures g < NumChunks(t)
  {
    MulAtLeast(g + 1, t.dataShards);
  }

  /** A parity row is as long as the longest frame of its group. */
  lemma GroupLenBound(t: Transfer, g: nat)
    requires Valid(t) && FullGroup(t, g)
    ensures GroupLen(t, g) <= 4 + DESCRIPTOR_BOUND + t.chunkSize
  {
    var frames := GroupFrames(t, g);
    forall slot | 0 <= slot < t.dataShards ensures |frames[slot]| <= 4 + DESCRIPTOR_BOUND + t.chunkSize {
      GroupOfChunk(t, g, slot);
      DataDescriptorInRange(t, ChunkAt(t, g, slot));
    }
  }

  lemma ParityFields(c: Codecs, g: nat, i: nat, p: nat, body: Bytes)
    requires |body| < U32_LIMIT
    ensures var d := ParityDescriptor(c, g, i, p, body);
            && d.compressedSize == d.uncompressedSize == |body| && !d.wasCompressed && d.checksum == c.hash(body)
            && d.offset == 0 && d.isParity && d.parityIndex == i && d.fecGroup == g
  {}

  /** What a parity frame says of itself: a row as long as the longest frame of its group, uncompressed, without a
      place in the file. */
  lemma ParityDescriptorTells(t: Transfer, g: nat, i: nat, p: nat)
    requires Valid(t) && FullGroup(t, g) && i < t.parityShards
    ensures var body := ParityBody(t, g, i); var d := ParityDescriptor(t.codecs, g, i, p, body);
            && |body| == GroupLen(t, g) && d.compressedSize == d.uncompressedSize == |body| && !d.wasCompressed
            && d.checksum == t.codecs.hash(body) && d.offset == 0
            && d.isParity && d.parityIndex == i && d.fecGroup == g
  {
    hide Lawful, DataFrame, GroupLen, GroupRows, ParityRow, ParityBody, ParityDescriptor, FullGroup;
    GroupLenBound(t, g);
    ParityFields(t.codecs, g, i, p, ParityBody(t, g, i));
  }
}
