/** Parity for one block of data packets. */
module Encoder {
  import opened Bytes
  import opened Arith
  import opened Wire
  import opened ReedSolomon
  import opened Source
  import opened Packets

  datatype Fec = Fec(dataShards: nat, parityShards: nat)

  function Payloads(ps: seq<Packet>): (r: seq<Bytes>)
    ensures |r| == |ps| && forall i :: 0 <= i < |ps| ==> r[i] == ps[i].payload
  {
    seq(|ps|, i requires 0 <= i < |ps| => ps[i].payload)
  }

  function MaxPriority(ps: seq<Packet>): (m: nat)
    ensures forall i :: 0 <= i < |ps| ==> ps[i].priority <= m
    ensures ps != [] ==> exists i :: 0 <= i < |ps| && ps[i].priority == m
  {
    if ps == [] then 0 else Max(ps[0].priority, MaxPriority(ps[1..]))
  }

  function FirstDeadline(ps: seq<Packet>): (d: Option<nat>)
    ensures forall i :: 0 <= i < |ps| && ps[i].deadline.Some? ==> d.Some? && d.value <= ps[i].deadline.value
    ensures d.Some? ==> exists i :: 0 <= i < |ps| && ps[i].deadline == d
  {
    if ps == [] then None
    else
      match (ps[0].deadline, FirstDeadline(ps[1..]))
      case (None, r) => r
      case (d, None) => d
      case (Some(a), Some(b)) => Some(Min(a, b))
  }

  /** Parity packet `i` of a block sorted by number. */
  function ParityPacket(c: Codecs, block: seq<Packet>, p: nat, i: nat): (r: Packet)
    requires 0 < |block| && |block| + i < MAX_SHARDS
    ensures r.isParity && r.group == block[0].group && r.parityIndex == i
  {
    var g, len := block[0].group, MaxLen(Payloads(block));
    var row := ParityRow(c.field, PadAll(Payloads(block), len), i, len);
    var payload := Frame(c, ParityDescriptor(c, g, i, p, row), row);
    Packet(U64_LIMIT - 1 - i, SatAdd(block[|block| - 1].number, 1 + i), payload, true, MaxPriority(block),
           FirstDeadline(block), |payload|, g, false, i)
  }

  /** Parity is as urgent as the most urgent packet of its block, and is numbered after the block. */
  lemma ParityUrgency(c: Codecs, block: seq<Packet>, p: nat, i: nat)
    requires 0 < |block| && |block| + i < MAX_SHARDS && Increasing(block)
    ensures var r := ParityPacket(c, block, p, i);
            && (forall j :: 0 <= j < |block| ==> block[j].priority <= r.priority)
            && (exists j :: 0 <= j < |block| && block[j].priority == r.priority)
            && (forall j :: 0 <= j < |block| && block[j].deadline.Some? ==>
                  r.deadline.Some? && r.deadline.value <= block[j].deadline.value)
            && (r.deadline.Some? ==> exists j :: 0 <= j < |block| && block[j].deadline == r.deadline)
            && r.size == |r.payload|
            && forall j :: 0 <= j < |block| ==> block[j].number < r.number || r.number == U64_LIMIT - 1
  {
    hide Payloads, MaxLen, ParityRow, PadAll, Frame, ParityDescriptor, MaxPriority, FirstDeadline;
    var r := ParityPacket(c, block, p, i);
    assert r.priority == MaxPriority(block) && r.deadline == FirstDeadline(block);
    var j :| 0 <= j < |block| && block[j].priority == r.priority;
    assert forall j :: 0 <= j < |block| ==> block[j].number <= block[|block| - 1].number;
  }

  function ParityPackets(c: Codecs, block: seq<Packet>, p: nat): (r: seq<Packet>)
    requires 0 < |block| && |block| + p <= MAX_SHARDS
    ensures |r| == p && forall i :: 0 <= i < p ==> r[i] == ParityPacket(c, block, p, i)
  {
    seq(p, i requires 0 <= i < p => ParityPacket(c, block, p, i))
  }

  /** The block that the encoder sends: the data packets by number, then the parity packets. */
  function Encoded(c: Codecs, fec: Fec, data: seq<Packet>): seq<Packet> {
    var n, p := Max(fec.dataShards, 1), fec.parityShards;
    if p == 0 || |data| < n then data
    else
      var block := SortByNumber(data[..n]);
      assert |multiset(block)| == |block| == n;
      if MaxLen(Payloads(block)) == 0 then block
      else if n + p > MAX_SHARDS then data
      else block + ParityPackets(c, block, p)
  }

  method EncodeParity(c: Codecs, block: seq<Packet>, p: nat) returns (parity: seq<Packet>)
    requires 0 < |block| && |block| + p <= MAX_SHARDS
    ensures parity == ParityPackets(c, block, p)
  {
    hide *;
    parity := [];
    for i := 0 to p
      invariant |parity| == i && forall j :: 0 <= j < i ==> parity[j] == ParityPacket(c, block, p, j)
    {
      parity := parity + [ParityPacket(c, block, p, i)];
    }
  }

  method EncodeBlock(c: Codecs, fec: Fec, data: seq<Packet>) returns (out: seq<Packet>)
    ensures out == Encoded(c, fec, data)
  {
    var n, p := Max(fec.dataShards, 1), fec.parityShards;
    if data == [] { return []; }
    if p == 0 || |data| < n { return data; }
    var block := SortByNumber(data[..n]);
    assert |multiset(block)| == |block| == n;
    if MaxLen(Payloads(block)) == 0 { return block; }
    if n + p > MAX_SHARDS { return data; }
    var parity := EncodeParity(c, block, p);
    return block + parity;
  }

  /** The arrival order of a full block makes no difference to what is sent for it. */
  lemma OrderIndependent(c: Codecs, fec: Fec, a: seq<Packet>, b: seq<Packet>)
    requires fec.parityShards > 0 && |a| == Max(fec.dataShards, 1) && |a| + fec.parityShards <= MAX_SHARDS
    requires multiset(a) == multiset(b) && DistinctNumbers(a)
    ensures Encoded(c, fec, a) == Encoded(c, fec, b)
  {
    assert |multiset(a)| == |a| && |multiset(b)| == |b|;
    assert a[..|a|] == a && b[..|b|] == b;
    DistinctPermuted(a, b);
    SortIncreasing(a);
    SortIncreasing(b);
    IncreasingUnique(SortByNumber(a), SortByNumber(b));
  }

  lemma {:induction false} NoDataCopies(ps: seq<Packet>, q: nat)
    requires forall i :: 0 <= i < |ps| ==> ps[i].isParity
    ensures Copies(ps, q) == 0
  {
    if ps != [] { NoDataCopies(ps[1..], q); }
  }

  /** Encoding one block neither loses, repeats nor invents data packets. */
  lemma EncodedKeepsData(c: Codecs, fec: Fec, data: seq<Packet>, q: nat)
    requires |data| == Max(fec.dataShards, 1)
    ensures Copies(Encoded(c, fec, data), q) == Copies(data, q)
  {
    var n, p := |data|, fec.parityShards;
    assert data[..n] == data;
    var block := SortByNumber(data);
    assert |multiset(block)| == |block| == n;
    CopiesPermuted(block, data, q);
    if p > 0 && MaxLen(Payloads(block)) > 0 && n + p <= MAX_SHARDS {
      var parity := ParityPackets(c, block, p);
      NoDataCopies(parity, q);
      CopiesAppend(block, parity, q);
    }
  }

  /** A packet that carries chunk `number` of the transfer. */
  ghost predicate IsDataPacket(t: Transfer, p: Packet)
    requires t.chunkSize > 0 && t.dataShards > 0
  {
    && !p.isParity && p.number < NumChunks(t)
    && p.payload == DataFrame(t, p.number) && p.group == Div(p.number, t.dataShards)
  }

  /** A packet that carries the frame of its number, which a report may have made up: past the end of the file
      that is the frame of an empty chunk. */
  ghost predicate IsPlainPacket(t: Transfer, p: Packet)
    requires t.dataShards > 0
  {
    && !p.isParity && p.payload == DataFrame(t, p.number) && p.group == Div(p.number, t.dataShards)
    && p.number + t.dataShards < U64_LIMIT
  }

  /** A packet that carries a parity row of a full group, one of at most `most`. */
  ghost predicate IsParityPacket(t: Transfer, most: nat, p: Packet)
    requires Valid(t) && most <= t.parityShards
  {
    && p.isParity && FullGroup(t, p.group)
    && exists rows :: p.parityIndex < rows <= most && p.payload == ParityFrame(t, p.group, p.parityIndex, rows)
  }

  /** `block` holds the packets of all chunks of group `g`, in order. */
  ghost predicate GroupBlock(t: Transfer, g: nat, block: seq<Packet>)
    requires t.chunkSize > 0 && t.dataShards > 0
  {
    && |block| == t.dataShards
    && forall i :: 0 <= i < |block| ==> block[i].number == ChunkAt(t, g, i) && IsDataPacket(t, block[i])
  }

  /** Parity of a group block is the parity of the group. */
  lemma GroupParity(t: Transfer, g: nat, block: seq<Packet>, p: nat, i: nat)
    requires Valid(t) && GroupBlock(t, g, block) && i < p <= t.parityShards
    ensures var r := ParityPacket(t.codecs, block, p, i);
            IsParityPacket(t, p, r) && r.group == g && r.payload == ParityFrame(t, g, i, p)
  {
    assert Payloads(block) == GroupFrames(t, g);
    GroupOfChunk(t, g, 0);
    LastChunk(t, g, block);
    var r := ParityPacket(t.codecs, block, p, i);
    assert r.payload == ParityFrame(t, g, i, p);
  }

  lemma LastChunk(t: Transfer, g: nat, block: seq<Packet>)
    requires Valid(t) && GroupBlock(t, g, block)
    ensures FullGroup(t, g)
  {
    assert block[t.dataShards - 1].number < NumChunks(t);
    assert Mul(g + 1, t.dataShards) == Mul(g, t.dataShards) + t.dataShards;
  }

  lemma BlockFacts(t: Transfer, g: nat, block: seq<Packet>, x: nat)
    requires Valid(t) && GroupBlock(t, g, block) && x < t.dataShards
    ensures block != [] && |block| == t.dataShards && !block[x].isParity && MaxLen(Payloads(block)) > 0
  {
    assert IsDataPacket(t, block[0]) && IsDataPacket(t, block[x]);
    assert |Payloads(block)[0]| > 0;
  }

  lemma EncodedGroup(t: Transfer, g: nat, block: seq<Packet>, p: nat)
    requires Valid(t) && GroupBlock(t, g, block) && p <= t.parityShards
    ensures Encoded(t.codecs, Fec(t.dataShards, p), block) == block + ParityPackets(t.codecs, block, p)
  {
    IncreasingBlock(t, g, block);
    SortIncreasing(block);
    IncreasingUnique(SortByNumber(block), block);
    BlockFacts(t, g, block, 0);
    EncodedSorted(t.codecs, Fec(t.dataShards, p), block);
  }

  lemma EncodedSorted(c: Codecs, fec: Fec, block: seq<Packet>)
    requires 0 < |block| == fec.dataShards && |block| + fec.parityShards <= MAX_SHARDS
    requires SortByNumber(block) == block && MaxLen(Payloads(block)) > 0
    ensures Encoded(c, fec, block) == block + ParityPackets(c, block, fec.parityShards)
  {
    assert block[..|block|] == block;
    hide ParityPacket, SortByNumber, MaxLen, ParityPackets;
    assert fec.parityShards == 0 ==> block + ParityPackets(c, block, fec.parityShards) == block;
  }

  ghost predicate SentFor(t: Transfer, g: nat, block: seq<Packet>, most: nat, r: Packet)
    requires Valid(t) && most <= t.parityShards
  {
    if r.isParity then IsParityPacket(t, most, r) && r.group == g else r in block
  }

  lemma DataSent(t: Transfer, g: nat, block: seq<Packet>, p: nat, x: nat)
    requires Valid(t) && GroupBlock(t, g, block) && x < t.dataShards && p <= t.parityShards
    ensures |block| == t.dataShards && SentFor(t, g, block, p, block[x])
  {
    BlockFacts(t, g, block, x);
    hide IsParityPacket, GroupBlock, Lawful;
  }

  lemma ParitySent(t: Transfer, g: nat, block: seq<Packet>, p: nat, i: nat)
    requires Valid(t) && GroupBlock(t, g, block) && i < p <= t.parityShards
    ensures block != [] && |block| + i < MAX_SHARDS && SentFor(t, g, block, p, ParityPacket(t.codecs, block, p, i))
  {
    GroupParity(t, g, block, p, i);
    hide IsParityPacket, Lawful;
  }

  /** What the encoder sends for a group block: its data packets, and parity rows of that group whose
      index lies below the receiver's parity count. */
  lemma EncodedHonest(t: Transfer, g: nat, block: seq<Packet>, p: nat)
    requires Valid(t) && GroupBlock(t, g, block) && p <= t.parityShards
    ensures forall r :: r in Encoded(t.codecs, Fec(t.dataShards, p), block) ==> SentFor(t, g, block, p, r)
  {
    var parity := ParityPackets(t.codecs, block, p);
    EncodedGroup(t, g, block, p);
    BlockFacts(t, g, block, 0);
    hide *;
    forall r | r in block + parity ensures SentFor(t, g, block, p, r) {
      if r in block {
        var x :| 0 <= x < |block| && block[x] == r;
        DataSent(t, g, block, p, x);
      } else {
        var i :| 0 <= i < |parity| && parity[i] == r;
        ParitySent(t, g, block, p, i);
      }
    }
  }

  lemma IncreasingBlock(t: Transfer, g: nat, block: seq<Packet>)
    requires t.chunkSize > 0 && t.dataShards > 0 && GroupBlock(t, g, block)
    ensures Increasing(block) && DistinctNumbers(block)
  {}
}
