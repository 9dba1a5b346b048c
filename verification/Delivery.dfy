/** Whole runs of the receiver: what any delivery of the sender's frames leads to. */
module Delivery {
  import opened Bytes
  import opened Arith
  import opened Wire
  import opened ReedSolomon
  import opened Source
  import opened Receiver
  import opened Safety

  ghost predicate ShardKept(t: Transfer, s: Recv, key: Key)
    requires t.dataShards > 0
  {
    var g := GroupOf(t, key);
    Complete(t, s.received, g)
    || (g in s.groups && SlotOf(t, key) < |s.groups[g]| && s.groups[g][SlotOf(t, key)].Some?)
  }

  /** A group that could be recovered has been. */
  ghost predicate Settled(t: Transfer, s: Recv)
    requires t.chunkSize > 0
  {
    forall g :: g in s.groups && RecoveryReady(ManifestOf(t), s.groups[g]) ==> Complete(t, s.received, g)
  }

  /** The receiver is good, has used every delivered data frame, and keeps every delivered shard
      of a group it has not completed. */
  ghost predicate Inv(t: Transfer, s: Recv, delivered: set<Key>)
    requires Valid(t)
  {
    && Good(t, s)
    && Settled(t, s)
    && (forall key :: key in delivered ==> IsKey(t, key))
    && (forall key :: key in delivered && key.Data? ==> key.i in s.received)
    && (t.parityShards > 0 ==> forall key :: key in delivered ==> ShardKept(t, s, key))
  }

  lemma DataSlot(t: Transfer, i: nat)
    requires Valid(t) && i < NumChunks(t)
    ensures var g, slot := GroupOf(t, Data(i)), SlotOf(t, Data(i));
            && slot < t.dataShards && ChunkAt(t, g, slot) == i
            && SatSub(i, SatMul(g, Max(t.dataShards, 1))) == slot
  {
    NumChunksBounded(t);
  }

  lemma StoreKeepsGood(t: Transfer, s: Recv, g: nat, slot: nat, shard: Bytes)
    requires Valid(t) && Good(t, s) && FitsSlot(t, s.received, g, slot, shard)
    ensures Good(t, s.(groups := StoreShard(ManifestOf(t), s.groups, g, slot, shard)))
  {
    hide DataFrame, ParityBody, Lawful, FullGroup, ChunkAt, Safe, NumChunks;
    var groups := StoreShard(ManifestOf(t), s.groups, g, slot, shard);
    assert |groups[g]| == t.dataShards + t.parityShards;
    forall x | 0 <= x < |groups[g]| ensures GoodSlot(t, s.received, g, groups[g], x) {
      if x != slot && g in s.groups { assert GoodSlot(t, s.received, g, s.groups[g], x); }
    }
  }

  /** `shard` is what slot `slot` of group `g` is for. */
  ghost predicate FitsSlot(t: Transfer, received: set<nat>, g: nat, slot: nat, shard: Bytes)
    requires Valid(t)
  {
    slot < t.dataShards + t.parityShards &&
    if slot < t.dataShards
    then ChunkAt(t, g, slot) in received && shard == DataFrame(t, ChunkAt(t, g, slot))
    else FullGroup(t, g) && shard == ParityBody(t, g, slot - t.dataShards)
  }

  /** Storing the shard of `key` in a good state and recovering keeps the invariant. */
  lemma StoreAndRecoverKeepsInv(t: Transfer, verify: bool, s: Recv, delivered: set<Key>, key: Key, g: nat,
          slot: nat, shard: Bytes)
    requires Valid(t) && t.parityShards > 0 && IsKey(t, key) && Inv(t, s, delivered)
    requires g == GroupOf(t, key) && slot == SlotOf(t, key)
    requires FitsSlot(t, s.received, g, slot, shard) && (key.Data? ==> key.i in s.received)
    ensures Accepted(t, s, delivered, key, StoreAndRecover(ConfigOf(t, verify), s, g, slot, shard))
  {
    var s0 := s.(groups := StoreShard(ManifestOf(t), s.groups, g, slot, shard));
    StoreKeepsGood(t, s, g, slot, shard);
    TryRecoverHonest(t, verify, s0, g);
    StoredKept(t, s, delivered, key, shard, s0, TryRecover(ConfigOf(t, verify), s0, g).0);
  }

  lemma StoredKept(t: Transfer, s: Recv, delivered: set<Key>, key: Key, shard: Bytes, s0: Recv, s1: Recv)
    requires Valid(t) && t.parityShards > 0 && IsKey(t, key) && Inv(t, s, delivered)
    requires SlotOf(t, key) < t.dataShards + t.parityShards && (key.Data? ==> key.i in s.received)
    requires s0 == s.(groups := StoreShard(ManifestOf(t), s.groups, GroupOf(t, key), SlotOf(t, key), shard))
    requires Good(t, s0) && RecoverPost(t, s0, GroupOf(t, key), s1)
    ensures Inv(t, s1, delivered + {key})
  {
    var g, slot := GroupOf(t, key), SlotOf(t, key);
    assert s0.groups[g][slot].Some?;
    forall k | k in delivered ensures ShardKept(t, s1, k) {
      assert ShardKept(t, s, k);
    }
    forall h | h in s1.groups && RecoveryReady(ManifestOf(t), s1.groups[h]) ensures Complete(t, s1.received, h) {
      if h != g { assert Complete(t, s.received, h); }
    }
  }

  lemma Parses(c: Codecs, d: Descriptor, body: Bytes)
    requires Lawful(c) && InRange(d)
    ensures var w, len := Frame(c, d, body), |c.encode(d)|;
            ParseHeader(c, w) == Ok((d, len)) && |w| == 4 + len + |body| && w[4 + len..4 + len + |body|] == body
  {
    ParseFrame(c, d, body, []);
    assert Frame(c, d, body) + [] == Frame(c, d, body);
  }

  lemma SmallSum(n: nat, i: nat)
    requires n + i < MAX_SHARDS
    ensures SatAdd(i, n) == n + i
  {}

  /** The receiver looks at four fields of a parity descriptor only. */
  lemma IngestParityBody(t: Transfer, verify: bool, s: Recv, d: Descriptor, body: Bytes)
    requires Valid(t) && InRange(d) && d.isParity && d.compressedSize == |body| <= MaxBody(ManifestOf(t))
    requires d.checksum == t.codecs.hash(body) && t.parityShards > 0 && d.parityIndex < t.parityShards
    ensures Ingest(ConfigOf(t, verify), s, Frame(t.codecs, d, body))
         == StoreAndRecover(ConfigOf(t, verify), s, d.fecGroup, t.dataShards + d.parityIndex, body)
  {
    hide StoreAndRecover, Persist, MaxBody, Frame, ParseHeader, Lawful, InRange, NumChunks, SatAdd;
    Parses(t.codecs, d, body);
    SmallSum(t.dataShards, d.parityIndex);
  }

  /** The descriptor and the body of a parity frame. */
  lemma ParityParts(t: Transfer, g: nat, i: nat, p: nat) returns (d: Descriptor, body: Bytes)
    requires Valid(t) && FullGroup(t, g) && i < p <= t.parityShards
    ensures t.dataShards + i < MAX_SHARDS && 0 < t.dataShards && 0 < t.chunkSize
    ensures body == ParityBody(t, g, i) && ParityFrame(t, g, i, p) == Frame(t.codecs, d, body)
    ensures InRange(d) && d.isParity && d.compressedSize == |body| <= MaxBody(ManifestOf(t))
    ensures d.checksum == t.codecs.hash(body) && d.parityIndex == i && d.fecGroup == g
  {
    body := ParityBody(t, g, i);
    d := ParityDescriptor(t.codecs, g, i, p, body);
    ParityDescriptorInRange(t, g, i, p);
    BodyFits(t, Parity(g, i, p));
    hide GroupRows, GroupFrames, ParityBody, GroupLen, MaxBody, InRange, Lawful, NumChunks;
  }

  /** What ingesting a frame of the sender comes down to. */
  lemma IngestParityFrame(t: Transfer, verify: bool, s: Recv, g: nat, i: nat, p: nat)
    requires Valid(t) && FullGroup(t, g) && i < p <= t.parityShards
    ensures Ingest(ConfigOf(t, verify), s, ParityFrame(t, g, i, p))
         == StoreAndRecover(ConfigOf(t, verify), s, g, t.dataShards + i, ParityBody(t, g, i))
  {
    hide *;
    var d, body := ParityParts(t, g, i, p);
    IngestParityBody(t, verify, s, d, body);
  }

  lemma IngestDataFrame(t: Transfer, verify: bool, s: Recv, i: nat)
    requires Valid(t) && i < NumChunks(t) && Safe(t, s.file, s.received)
    ensures var k, g := ConfigOf(t, verify), GroupOf(t, Data(i));
            var s1 := Persist(k, s, DataFrame(t, i)).0;
            Ingest(k, s, DataFrame(t, i))
            == if t.parityShards == 0 then (s1, Ok(g)) else StoreAndRecover(k, s1, g, SlotOf(t, Data(i)), DataFrame(t, i))
  {
    hide StoreAndRecover, Persist;
    var d, body := DataDescriptor(t, i), DataBody(t, i);
    DataDescriptorInRange(t, i);
    ParseFrame(t.codecs, d, body, []);
    assert DataFrame(t, i) + [] == DataFrame(t, i);
    BodyFits(t, Data(i));
    PersistHonest(t, verify, s, i, []);
    DataSlot(t, i);
  }

  /** The state after writing the chunk of a data frame. */
  lemma PersistKeepsInv(t: Transfer, verify: bool, s: Recv, delivered: set<Key>, i: nat)
    requires Valid(t) && i < NumChunks(t) && Inv(t, s, delivered)
    ensures var s1 := Persist(ConfigOf(t, verify), s, DataFrame(t, i)).0;
            s1.groups == s.groups && s1.received == s.received + {i} && Inv(t, s1, delivered)
                    && OnlySource(t, s.file, s1.file)
  {
    PersistHonest(t, verify, s, i, []);
    assert DataFrame(t, i) + [] == DataFrame(t, i);
    var s1 := Persist(ConfigOf(t, verify), s, DataFrame(t, i)).0;
    GoodGrows(t, s, s1);
    GrowKeepsInv(t, s, delivered, s1);
  }

  lemma DataFitsSlot(t: Transfer, received: set<nat>, i: nat)
    requires Valid(t) && i < NumChunks(t) && i in received
    ensures FitsSlot(t, received, GroupOf(t, Data(i)), SlotOf(t, Data(i)), DataFrame(t, i))
  {
    DataSlot(t, i);
  }

  lemma ParityFitsSlot(t: Transfer, received: set<nat>, g: nat, i: nat)
    requires Valid(t) && FullGroup(t, g) && i < t.parityShards
    ensures FitsSlot(t, received, g, t.dataShards + i, ParityBody(t, g, i))
  {}

  lemma GrowKeepsInv(t: Transfer, s: Recv, delivered: set<Key>, s1: Recv)
    requires Valid(t) && Inv(t, s, delivered) && Good(t, s1) && s.received <= s1.received && s1.groups == s.groups
    ensures Inv(t, s1, delivered)
  {
    if t.parityShards > 0 {
      forall key | key in delivered ensures ShardKept(t, s1, key) { assert ShardKept(t, s, key); }
    }
  }

  /** The outcome of one frame: accepted, nothing forgotten, the invariant kept. */
  ghost predicate Accepted(t: Transfer, s: Recv, delivered: set<Key>, key: Key, out: (Recv, Result<nat>))
    requires Valid(t)
  {
    && out.1 == Ok(GroupOf(t, key)) && s.received <= out.0.received && Inv(t, out.0, delivered + {key})
    && OnlySource(t, s.file, out.0.file)
  }

  lemma IngestDataHonest(t: Transfer, verify: bool, s: Recv, delivered: set<Key>, i: nat)
    requires Valid(t) && i < NumChunks(t) && Inv(t, s, delivered)
    ensures Accepted(t, s, delivered, Data(i), Ingest(ConfigOf(t, verify), s, DataFrame(t, i)))
  {
    assert Safe(t, s.file, s.received);
    hide Inv, Ingest, StoreAndRecover, Persist, FitsSlot, Safe, OnlySource;
    IngestDataFrame(t, verify, s, i);
    PersistKeepsInv(t, verify, s, delivered, i);
    var s1 := Persist(ConfigOf(t, verify), s, DataFrame(t, i)).0;
    if t.parityShards > 0 {
      DataFitsSlot(t, s1.received, i);
      StoreAndRecoverKeepsInv(t, verify, s1, delivered, Data(i), GroupOf(t, Data(i)), SlotOf(t, Data(i)),
              DataFrame(t, i));
      OnlySourceThen(t, s.file, s1.file, Ingest(ConfigOf(t, verify), s, DataFrame(t, i)).0.file);
    } else {
      DeliverData(t, s1, delivered, i);
    }
  }

  lemma ParityKey(t: Transfer, g: nat, i: nat, p: nat)
    requires Valid(t) && IsKey(t, Parity(g, i, p))
    ensures GroupOf(t, Parity(g, i, p)) == g && SlotOf(t, Parity(g, i, p)) == t.dataShards + i
    ensures FullGroup(t, g) && i < p <= t.parityShards && 0 < t.dataShards && t.dataShards + t.parityShards <= MAX_SHARDS
  {}

  lemma IngestParityHonest(t: Transfer, verify: bool, s: Recv, delivered: set<Key>, g: nat, i: nat, p: nat)
    requires Valid(t) && IsKey(t, Parity(g, i, p)) && Inv(t, s, delivered)
    ensures Accepted(t, s, delivered, Parity(g, i, p), Ingest(ConfigOf(t, verify), s, ParityFrame(t, g, i, p)))
  {
    hide *;
    var key := Parity(g, i, p);
    ParityKey(t, g, i, p);
    IngestParityFrame(t, verify, s, g, i, p);
    ParityFitsSlot(t, s.received, g, i);
    StoreAndRecoverKeepsInv(t, verify, s, delivered, key, g, t.dataShards + i, ParityBody(t, g, i));
  }

  /** Every frame of the sender is accepted, and the invariant survives it. */
  lemma IngestHonest(t: Transfer, verify: bool, s: Recv, delivered: set<Key>, key: Key)
    requires Valid(t) && IsKey(t, key) && Inv(t, s, delivered)
    ensures Accepted(t, s, delivered, key, Ingest(ConfigOf(t, verify), s, FrameOf(t, key)))
  {
    hide Inv, Ingest, Accepted;
    match key
    case Data(i) => IngestDataHonest(t, verify, s, delivered, i);
    case Parity(g, i, p) => IngestParityHonest(t, verify, s, delivered, g, i, p);
  }

  lemma DeliverData(t: Transfer, s: Recv, delivered: set<Key>, i: nat)
    requires Valid(t) && t.parityShards == 0 && i in s.received && Inv(t, s, delivered)
    ensures Inv(t, s, delivered + {Data(i)})
  {}

  /** The receiver before the first frame. */
  function Fresh(t: Transfer): Recv { Recv(Zeros(|t.source|), {}, map[]) }

  lemma FreshInv(t: Transfer)
    requires Valid(t)
    ensures Inv(t, Fresh(t), {})
  {}

  /** Ingests frames one after the other, stopping at the first error. */
  function IngestAll(k: Config, s: Recv, wires: seq<Bytes>): (Recv, Result<()>)
    requires Accepts(k)
    decreases |wires|
  {
    if wires == [] then (s, Ok(()))
    else
      match Ingest(k, s, wires[0])
      case (s1, Err) => (s1, Err)
      case (s1, Ok(_)) => IngestAll(k, s1, wires[1..])
  }

  ghost predicate AreKeys(t: Transfer, keys: seq<Key>)
    requires t.chunkSize > 0
  {
    forall i :: 0 <= i < |keys| ==> IsKey(t, keys[i])
  }

  ghost function FramesOf(t: Transfer, keys: seq<Key>): (ws: seq<Bytes>)
    requires Valid(t) && AreKeys(t, keys)
    ensures |ws| == |keys|
  {
    seq(|keys|, i requires 0 <= i < |keys| => FrameOf(t, keys[i]))
  }

  ghost function KeySet(keys: seq<Key>): set<Key> { set key | key in keys }

  lemma FirstFrame(t: Transfer, verify: bool, s: Recv, keys: seq<Key>)
    requires Valid(t) && AreKeys(t, keys) && keys != []
    requires Ingest(ConfigOf(t, verify), s, FrameOf(t, keys[0])).1.Ok?
    ensures IsKey(t, keys[0]) && AreKeys(t, keys[1..])
    ensures IngestAll(ConfigOf(t, verify), s, FramesOf(t, keys))
         == IngestAll(ConfigOf(t, verify), Ingest(ConfigOf(t, verify), s, FrameOf(t, keys[0])).0, FramesOf(t, keys[1..]))
  {
    hide Ingest, FrameOf;
    assert FramesOf(t, keys)[1..] == FramesOf(t, keys[1..]);
  }

  lemma KeySetStep(delivered: set<Key>, keys: seq<Key>)
    ensures keys == [] ==> delivered + KeySet(keys) == delivered
    ensures keys != [] ==> delivered + {keys[0]} + KeySet(keys[1..]) == delivered + KeySet(keys)
  {
    if keys != [] { assert keys == [keys[0]] + keys[1..]; }
  }

  /** Any sequence of the sender's frames (lost, repeated, reordered, data or parity) is accepted
      and keeps the invariant. */
  lemma {:induction false} RunKeepsInv(t: Transfer, verify: bool, s: Recv, delivered: set<Key>, keys: seq<Key>)
    requires Valid(t) && AreKeys(t, keys) && Inv(t, s, delivered)
    ensures var (s1, r) := IngestAll(ConfigOf(t, verify), s, FramesOf(t, keys));
            r.Ok? && s.received <= s1.received && Inv(t, s1, delivered + KeySet(keys))
    decreases |keys|
  {
    hide Inv, Ingest, FrameOf, KeySet, FramesOf;
    KeySetStep(delivered, keys);
    if keys != [] {
      IngestHonest(t, verify, s, delivered, keys[0]);
      FirstFrame(t, verify, s, keys);
      RunKeepsInv(t, verify, Ingest(ConfigOf(t, verify), s, FrameOf(t, keys[0])).0, delivered + {keys[0]}, keys[1..]);
      hide IngestAll;
    }
  }

  lemma FileHolds(t: Transfer, file: Bytes)
    requires t.chunkSize > 0 && |file| == |t.source| && forall i :: 0 <= i < NumChunks(t) ==> Holds(t, file, i)
    ensures file == t.source
  {
    forall k | 0 <= k < |t.source| ensures file[k] == t.source[k] {
      ChunkOfByte(t, k);
      assert Holds(t, file, Div(k, t.chunkSize));
    }
  }

  /** Once as many indices are received as there are chunks, the part file is the source file. */
  lemma AllReceived(t: Transfer, file: Bytes, received: set<nat>)
    requires t.chunkSize > 0 && Safe(t, file, received) && |received| >= NumChunks(t)
    ensures received == Below(NumChunks(t)) && file == t.source
  {
    var all := Below(NumChunks(t));
    if i :| i in all && i !in received {
      SubsetSize(received, all - {i});
      assert false;
    }
    FileHolds(t, file);
  }

  /** End-to-end safety: for every delivery sequence, what is counted as received is source bytes in
      place, and a full count means the whole file. */
  lemma EndToEnd(t: Transfer, verify: bool, keys: seq<Key>)
    requires Valid(t) && AreKeys(t, keys)
    ensures var (s, r) := IngestAll(ConfigOf(t, verify), Fresh(t), FramesOf(t, keys));
            && r.Ok?
            && Safe(t, s.file, s.received)
            && (|s.received| >= NumChunks(t) ==> s.file == t.source)
  {
    FreshInv(t);
    RunKeepsInv(t, verify, Fresh(t), {}, keys);
    var s := IngestAll(ConfigOf(t, verify), Fresh(t), FramesOf(t, keys)).0;
    if |s.received| >= NumChunks(t) { AllReceived(t, s.file, s.received); }
  }

  /** The distinct slots of group `g` among the delivered frames. */
  ghost function SlotsOf(t: Transfer, g: nat, keys: set<Key>): set<nat>
    requires t.dataShards > 0
  {
    set key | key in keys && GroupOf(t, key) == g :: SlotOf(t, key)
  }

  /** As many distinct shards as the group has data shards, one of them data, complete the group. */
  lemma EnoughShardsComplete(t: Transfer, s: Recv, delivered: set<Key>, g: nat, i: nat)
    requires Valid(t) && t.parityShards > 0 && Inv(t, s, delivered)
    requires Data(i) in delivered && GroupOf(t, Data(i)) == g
    requires |SlotsOf(t, g, delivered)| >= t.dataShards
    ensures Complete(t, s.received, g)
  {
    if !Complete(t, s.received, g) {
      assert ShardKept(t, s, Data(i));
      DataSlot(t, i);
      var group := s.groups[g];
      forall slot | slot in SlotsOf(t, g, delivered) ensures slot in Present(group) {
        var key :| key in delivered && GroupOf(t, key) == g && SlotOf(t, key) == slot;
        assert ShardKept(t, s, key);
      }
      SubsetSize(SlotsOf(t, g, delivered), Present(group));
      assert RecoveryReady(ManifestOf(t), group);
    }
  }

  /** Erasure recovery: whatever else arrives and in whatever order, such a group ends up in the file. */
  lemma FecCompleteness(t: Transfer, verify: bool, keys: seq<Key>, g: nat, i: nat)
    requires Valid(t) && t.parityShards > 0 && AreKeys(t, keys)
    requires Data(i) in keys && GroupOf(t, Data(i)) == g
    requires |SlotsOf(t, g, KeySet(keys))| >= t.dataShards
    ensures var s := IngestAll(ConfigOf(t, verify), Fresh(t), FramesOf(t, keys)).0;
            forall slot :: 0 <= slot < t.dataShards ==>
              ChunkAt(t, g, slot) in s.received && Holds(t, s.file, ChunkAt(t, g, slot))
  {
    FreshInv(t);
    RunKeepsInv(t, verify, Fresh(t), {}, keys);
    var s := IngestAll(ConfigOf(t, verify), Fresh(t), FramesOf(t, keys)).0;
    assert {} + KeySet(keys) == KeySet(keys);
    EnoughShardsComplete(t, s, KeySet(keys), g, i);
  }
}
