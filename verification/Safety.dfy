/** Frames of one sender, in any order and number, only ever put source bytes into the part file. */
module Safety {
  import opened Bytes
  import opened Arith
  import opened Wire
  import opened ReedSolomon
  import opened Source
  import opened Receiver

  function ConfigOf(t: Transfer, verify: bool): Config
    requires t.chunkSize > 0
  {
    Config(t.codecs, ManifestOf(t), verify)
  }

  /** The part file holds chunk `i`. */
  ghost predicate Holds(t: Transfer, file: Bytes, i: nat) {
    End(t, i) <= |file| && forall k :: Start(t, i) <= k < End(t, i) ==> file[k] == t.source[k]
  }

  /** Every index counted as received is a chunk that the part file holds. */
  ghost predicate Safe(t: Transfer, file: Bytes, received: set<nat>)
    requires t.chunkSize > 0
  {
    |file| == |t.source| && forall i :: i in received ==> i < NumChunks(t) && Holds(t, file, i)
  }

  /** Where `after` differs from `before`, it has the source bytes. */
  ghost predicate OnlySource(t: Transfer, before: Bytes, after: Bytes) {
    && |after| == |before| == |t.source|
    && forall k :: 0 <= k < |before| ==> after[k] == before[k] || after[k] == t.source[k]
  }

  /** The files differ at most in the range of chunk `i`. */
  ghost predicate SameOutside(t: Transfer, before: Bytes, after: Bytes, i: nat) {
    && |after| == |before|
    && forall k :: 0 <= k < |before| && !(Start(t, i) <= k < End(t, i)) ==> after[k] == before[k]
  }

  lemma OnlySourceThen(t: Transfer, a: Bytes, b: Bytes, c: Bytes)
    requires OnlySource(t, a, b) && OnlySource(t, b, c)
    ensures OnlySource(t, a, c)
  {}

  lemma SourceUnchanged(t: Transfer, file: Bytes)
    requires |file| == |t.source|
    ensures OnlySource(t, file, file)
  {}

  lemma OnlySourceHolds(t: Transfer, before: Bytes, after: Bytes, i: nat)
    requires OnlySource(t, before, after) && Holds(t, before, i)
    ensures Holds(t, after, i)
  {}

  lemma WriteKeepsSafe(t: Transfer, file: Bytes, received: set<nat>, i: nat)
    requires t.chunkSize > 0 && Safe(t, file, received) && i < NumChunks(t)
    ensures Safe(t, WriteAt(file, Start(t, i), ChunkBytes(t, i)), received + {i})
    ensures OnlySource(t, file, WriteAt(file, Start(t, i), ChunkBytes(t, i)))
    ensures SameOutside(t, file, WriteAt(file, Start(t, i), ChunkBytes(t, i)), i)
  {
    var file' := WriteAt(file, Start(t, i), ChunkBytes(t, i));
    ChunkRange(t, i);
    assert Holds(t, file', i);
    forall j | j in received && j != i ensures Holds(t, file', j) {
      if j < i { StartMonotone(t, j, i); } else { StartMonotone(t, i, j); }
    }
  }

  /** A data frame, even one padded with further bytes, is persisted as its chunk. */
  lemma PersistHonest(t: Transfer, verify: bool, s: Recv, i: nat, tail: Bytes)
    requires Valid(t) && i < NumChunks(t) && Safe(t, s.file, s.received)
    ensures var (s1, r) := Persist(ConfigOf(t, verify), s, DataFrame(t, i) + tail);
            && r.Ok? && s1.groups == s.groups && s1.received == s.received + {i}
            && Safe(t, s1.file, s1.received) && OnlySource(t, s.file, s1.file) && SameOutside(t, s.file, s1.file, i)
  {
    var d, body := DataDescriptor(t, i), DataBody(t, i);
    DataDescriptorInRange(t, i);
    ParseFrame(t.codecs, d, body, tail);
    CompressionRoundTrip(t.codecs, ChunkBytes(t, i), t.compression);
    if i in s.received {
      assert s.received + {i} == s.received;
    } else {
      WriteKeepsSafe(t, s.file, s.received, i);
    }
  }

  /** What the shard slots may hold: frames of received chunks, and parity rows of full groups. */
  ghost predicate GoodSlot(t: Transfer, received: set<nat>, g: nat, group: Group, slot: nat)
    requires 0 < t.chunkSize && 0 < t.dataShards && t.dataShards + t.parityShards <= MAX_SHARDS
    requires slot < |group| == t.dataShards + t.parityShards
  {
    group[slot].Some? ==>
      if slot < t.dataShards then
        && ChunkAt(t, g, slot) in received
        && group[slot].value == DataFrame(t, ChunkAt(t, g, slot))
      else
        FullGroup(t, g) && group[slot].value == ParityBody(t, g, slot - t.dataShards)
  }

  ghost predicate GoodGroup(t: Transfer, received: set<nat>, g: nat, group: Group)
    requires 0 < t.chunkSize && 0 < t.dataShards && t.dataShards + t.parityShards <= MAX_SHARDS
  {
    && |group| == t.dataShards + t.parityShards
    && forall slot :: 0 <= slot < |group| ==> GoodSlot(t, received, g, group, slot)
  }

  ghost predicate Good(t: Transfer, s: Recv)
    requires 0 < t.chunkSize && 0 < t.dataShards && t.dataShards + t.parityShards <= MAX_SHARDS
  {
    Safe(t, s.file, s.received) && forall g :: g in s.groups ==> GoodGroup(t, s.received, g, s.groups[g])
  }

  /** All chunks of the group are received. */
  ghost predicate Complete(t: Transfer, received: set<nat>, g: nat) {
    forall slot :: 0 <= slot < t.dataShards ==> ChunkAt(t, g, slot) in received
  }

  lemma ChunkIndexExact(t: Transfer, g: nat, slot: nat)
    requires Valid(t) && slot < t.dataShards && FullGroup(t, g)
    ensures ChunkIndex(ManifestOf(t), g, slot) == ChunkAt(t, g, slot) < NumChunks(t) < U64_LIMIT
  {
    GroupOfChunk(t, g, slot);
    var i := ChunkAt(t, g, slot);
    NumChunksBounded(t);
  }

  lemma NumChunksBounded(t: Transfer)
    requires Valid(t)
    ensures NumChunks(t) <= |t.source| < U64_LIMIT / 2
  {
    if NumChunks(t) > 0 {
      var i := NumChunks(t) - 1;
      ChunkRange(t, i);
      MulAtLeast(i, t.chunkSize);
    }
  }

  /** A group that is ready while a data slot is empty holds a parity row, so it is a full group. */
  lemma ReadyHasParity(t: Transfer, group: Group, slot: nat) returns (q: nat)
    requires slot < t.dataShards && |group| == t.dataShards + t.parityShards
    requires group[slot].None? && |Present(group)| >= t.dataShards
    ensures t.dataShards <= q < |group| && group[q].Some?
  {
    if forall i :: t.dataShards <= i < |group| ==> group[i].None? {
      assert Present(group) <= Below(t.dataShards) - {slot};
      SubsetSize(Present(group), Below(t.dataShards) - {slot});
      assert false;
    }
    q :| t.dataShards <= q < |group| && group[q].Some?;
  }

  lemma DataRow(t: Transfer, g: nat, slot: nat)
    requires 0 < t.dataShards <= MAX_SHARDS && slot < t.dataShards
    ensures var len, frame := GroupLen(t, g), DataFrame(t, ChunkAt(t, g, slot));
            |frame| <= len && Resize(frame, len) == CodeRow(t.codecs.field, GroupRows(t, g), slot, len)
  {
    hide DataFrame, Resize;
    assert GroupFrames(t, g)[slot] == DataFrame(t, ChunkAt(t, g, slot));
  }

  lemma ParityIsRow(t: Transfer, g: nat, i: nat)
    requires 0 < t.dataShards && t.dataShards + i < MAX_SHARDS
    ensures Resize(ParityBody(t, g, i), GroupLen(t, g))
         == CodeRow(t.codecs.field, GroupRows(t, g), t.dataShards + i, GroupLen(t, g))
  {
    hide DataFrame, ParityRow, GroupRows, GroupLen;
    var row := ParityBody(t, g, i);
    assert row + Zeros(0) == row;
  }

  /** A shard held in a good group, padded to the group's length, is its row of the codeword. */
  lemma ShardIsCodeRow(t: Transfer, received: set<nat>, g: nat, group: Group, i: nat)
    requires Valid(t) && GoodGroup(t, received, g, group) && i < |group| && group[i].Some?
    ensures var len, shard := GroupLen(t, g), group[i].value;
            && |shard| <= len && (i >= t.dataShards ==> |shard| == len)
            && Resize(shard, len) == CodeRow(t.codecs.field, GroupRows(t, g), i, len)
  {
    hide DataFrame, ParityBody, GroupRows, GroupLen, CodeRow, Lawful, Resize, FullGroup, NumChunks;
    assert GoodSlot(t, received, g, group, i);
    if i < t.dataShards {
      DataRow(t, g, i);
    } else {
      ParityIsRow(t, g, i - t.dataShards);
    }
  }

  /** With a parity row present, the longest shard is as long as the rows the sender padded. */
  lemma PaddedLength(t: Transfer, received: set<nat>, g: nat, group: Group, q: nat)
    requires Valid(t) && GoodGroup(t, received, g, group) && t.dataShards <= q < |group| && group[q].Some?
    ensures MaxPresentLen(group) == GroupLen(t, g) > 0
  {
    assert |GroupFrames(t, g)[0]| > 0;
    forall i | 0 <= i < |group| && group[i].Some? ensures |group[i].value| <= GroupLen(t, g) {
      ShardIsCodeRow(t, received, g, group, i);
    }
    ShardIsCodeRow(t, received, g, group, q);
    hide GoodGroup, GroupLen, CodeRow, Lawful, GroupFrames;
  }

  /** With a parity row present, the receiver pads its shards to the length the sender padded to. */
  lemma ShardsFormCodeword(t: Transfer, s: Recv, g: nat, q: nat)
    requires Valid(t) && Good(t, s) && g in s.groups
    requires t.dataShards <= q < |s.groups[g]| && s.groups[g][q].Some?
    ensures var group := s.groups[g]; var len := MaxPresentLen(group);
            && len == GroupLen(t, g) > 0
            && FromCodeword(t.codecs.field, PadPresent(group, len), GroupRows(t, g), len)
            && Present(PadPresent(group, len)) == Present(group)
  {
    var group, len := s.groups[g], GroupLen(t, g);
    assert GoodGroup(t, s.received, g, group) && |group| <= MAX_SHARDS;
    PaddedLength(t, s.received, g, group, q);
    var shards := PadPresent(group, len);
    hide GoodGroup, CodeRow, GroupLen, Lawful, PadPresent, MaxPresentLen, Safe;
    forall i | 0 <= i < |shards| && shards[i].Some?
      ensures shards[i].value == CodeRow(t.codecs.field, GroupRows(t, g), i, len)
    {
      ShardIsCodeRow(t, s.received, g, group, i);
    }
  }

  lemma ReconstructHonest(t: Transfer, s: Recv, g: nat, verify: bool)
    requires Valid(t) && Good(t, s) && g in s.groups && t.parityShards > 0
    requires Missing(ManifestOf(t), s.groups[g], g, s.received) != []
    requires RecoveryReady(ManifestOf(t), s.groups[g])
    ensures FullGroup(t, g)
    ensures RecoveredRows(ConfigOf(t, verify), s, g) == Some(GroupRows(t, g))
  {
    var group := s.groups[g];
    var slot := Missing(ManifestOf(t), group, g, s.received)[0];
    var q := ReadyHasParity(t, group, slot);
    assert GoodSlot(t, s.received, g, group, q);
    ShardsFormCodeword(t, s, g, q);
    var len := GroupLen(t, g);
    ReconstructCorrect(t.codecs.field, GroupRows(t, g), PadPresent(group, len), len);
  }

  /** A recovered row parses as the frame of its chunk and is persisted as that chunk. */
  lemma RecoverRow(t: Transfer, verify: bool, s: Recv, g: nat, slot: nat)
    requires Valid(t) && FullGroup(t, g) && Safe(t, s.file, s.received) && slot < t.dataShards
    ensures var k, row := ConfigOf(t, verify), GroupRows(t, g)[slot];
            var h, (s1, r) := ParseHeader(t.codecs, row), Persist(k, s, row);
            && h.Ok? && h.value.0.index == ChunkIndex(k.manifest, g, slot) == ChunkAt(t, g, slot)
            && r.Ok? && s1.received == s.received + {ChunkAt(t, g, slot)}
            && Safe(t, s1.file, s1.received) && OnlySource(t, s.file, s1.file)
  {
    var i := ChunkAt(t, g, slot);
    assert GroupFrames(t, g)[slot] == DataFrame(t, i);
    var tail := Zeros(GroupLen(t, g) - |DataFrame(t, i)|);
    assert GroupRows(t, g)[slot] == DataFrame(t, i) + tail;
    ChunkIndexExact(t, g, slot);
    DataDescriptorInRange(t, i);
    ParseFrame(t.codecs, DataDescriptor(t, i), DataBody(t, i), tail);
    PersistHonest(t, verify, s, i, tail);
  }

  ghost predicate OnlyGroupAdded(t: Transfer, g: nat, before: set<nat>, after: set<nat>)
    requires t.dataShards > 0
  {
    forall i :: i in after ==> i in before || Div(i, t.dataShards) == g
  }

  /** What persisting the recovered rows of the slots does. */
  ghost predicate SlotsRecovered(t: Transfer, g: nat, slots: seq<nat>, s: Recv, out: (Recv, Result<bool>))
    requires t.chunkSize > 0 && t.dataShards > 0
  {
    var (s1, r) := out;
    && r == Ok(slots != [])
    && s.received <= s1.received
    && (forall i :: 0 <= i < |slots| ==> ChunkAt(t, g, slots[i]) in s1.received)
    && OnlyGroupAdded(t, g, s.received, s1.received)
    && Safe(t, s1.file, s1.received) && OnlySource(t, s.file, s1.file)
  }

  lemma FirstSlot(t: Transfer, verify: bool, s: Recv, g: nat, slots: seq<nat>)
    requires Valid(t) && FullGroup(t, g) && Safe(t, s.file, s.received) && slots != []
    requires forall i :: 0 <= i < |slots| ==> slots[i] < t.dataShards
    ensures var k, rows := ConfigOf(t, verify), GroupRows(t, g);
            var s1 := Persist(k, s, rows[slots[0]]).0;
            var (s2, r) := RecoverSlots(k, s1, g, rows, slots[1..]);
            && s1.received == s.received + {ChunkAt(t, g, slots[0])}
            && Safe(t, s1.file, s1.received) && OnlySource(t, s.file, s1.file)
            && (r.Ok? ==> RecoverSlots(k, s, g, rows, slots) == (s2, Ok(true)))
  {
    RecoverRow(t, verify, s, g, slots[0]);
    hide Persist, ParseHeader, OnlySource, Safe, Lawful;
  }

  lemma ValidShape(t: Transfer, verify: bool)
    requires Valid(t)
    ensures 0 < t.chunkSize && 0 < t.dataShards && t.dataShards + t.parityShards <= MAX_SHARDS
    ensures Accepts(ConfigOf(t, verify))
  {}

  lemma RecoveredOk(t: Transfer, g: nat, slots: seq<nat>, s: Recv, out: (Recv, Result<bool>))
    requires t.chunkSize > 0 && t.dataShards > 0 && SlotsRecovered(t, g, slots, s, out)
    ensures out.1.Ok?
  {}

  lemma OneSlotMore(t: Transfer, g: nat, slots: seq<nat>, s: Recv, s1: Recv, out: (Recv, Result<bool>))
    requires t.chunkSize > 0 && t.dataShards > 0 && slots != [] && slots[0] < t.dataShards
    requires s1.received == s.received + {ChunkAt(t, g, slots[0])} && OnlySource(t, s.file, s1.file)
    requires SlotsRecovered(t, g, slots[1..], s1, out)
    ensures SlotsRecovered(t, g, slots, s, (out.0, Ok(true)))
  {
    hide OnlySource, Safe, ChunkAt;
    GroupOfChunk(t, g, slots[0]);
    OnlySourceThen(t, s.file, s1.file, out.0.file);
    forall i | 0 <= i < |slots| ensures ChunkAt(t, g, slots[i]) in out.0.received {
      if i > 0 { assert slots[i] == slots[1..][i - 1]; }
    }
  }

  lemma {:induction false} RecoverSlotsHonest(t: Transfer, verify: bool, s: Recv, g: nat, slots: seq<nat>)
    requires Valid(t) && FullGroup(t, g) && Safe(t, s.file, s.received)
    requires forall i :: 0 <= i < |slots| ==> slots[i] < t.dataShards
    ensures SlotsRecovered(t, g, slots, s, RecoverSlots(ConfigOf(t, verify), s, g, GroupRows(t, g), slots))
    decreases |slots|
  {
    if slots == [] {
      SourceUnchanged(t, s.file);
      hide Persist, ParseHeader, OnlySource, Safe, Lawful;
    } else {
      hide *;
      ValidShape(t, verify);
      var k, rows := ConfigOf(t, verify), GroupRows(t, g);
      FirstSlot(t, verify, s, g, slots);
      var s1 := Persist(k, s, rows[slots[0]]).0;
      RecoverSlotsHonest(t, verify, s1, g, slots[1..]);
      var out := RecoverSlots(k, s1, g, rows, slots[1..]);
      RecoveredOk(t, g, slots[1..], s1, out);
      OneSlotMore(t, g, slots, s, s1, out);
    }
  }

  /** What one recovery attempt does to a good state. */
  ghost predicate RecoverPost(t: Transfer, s: Recv, g: nat, s1: Recv)
    requires 0 < t.chunkSize && 0 < t.dataShards && t.dataShards + t.parityShards <= MAX_SHARDS
  {
    && Good(t, s1)
    && s.received <= s1.received && OnlyGroupAdded(t, g, s.received, s1.received) && OnlySource(t, s.file, s1.file)
    && (s1.received == s.received || (g in s.groups && RecoveryReady(ManifestOf(t), s.groups[g])))
    && (forall h :: h != g ==> (h in s1.groups <==> h in s.groups))
    && (forall h :: h in s1.groups ==> h in s.groups && s1.groups[h] == s.groups[h])
    && (g in s.groups && g !in s1.groups ==> Complete(t, s1.received, g))
    && (g in s.groups && RecoveryReady(ManifestOf(t), s.groups[g]) ==> Complete(t, s1.received, g))
  }

  lemma RecoveredSlot(t: Transfer, s: Recv, g: nat, received: set<nat>, slot: nat)
    requires Valid(t) && Good(t, s) && g in s.groups && FullGroup(t, g) && slot < t.dataShards && s.received <= received
    requires var missing := Missing(ManifestOf(t), s.groups[g], g, s.received);
             forall i :: 0 <= i < |missing| ==> ChunkAt(t, g, missing[i]) in received
    ensures ChunkAt(t, g, slot) in received && !MissingAt(ManifestOf(t), s.groups[g], g, received, slot)
  {
    ChunkIndexExact(t, g, slot);
    if MissingAt(ManifestOf(t), s.groups[g], g, s.received, slot) {
      assert slot in Missing(ManifestOf(t), s.groups[g], g, s.received);
    } else {
      assert GoodSlot(t, s.received, g, s.groups[g], slot);
    }
  }

  lemma {:induction false} NoneMissing(m: Manifest, group: Group, g: nat, received: set<nat>, slot: nat)
    requires slot <= m.dataShards
    requires forall x :: slot <= x < m.dataShards ==> !MissingAt(m, group, g, received, x)
    ensures MissingFrom(m, group, g, received, slot) == []
    decreases m.dataShards - slot
  {
    if slot < m.dataShards { NoneMissing(m, group, g, received, slot + 1); }
  }

  lemma RecoveredGroup(t: Transfer, s: Recv, g: nat, s1: Recv)
    requires Valid(t) && Good(t, s) && g in s.groups && FullGroup(t, g)
    requires s.received <= s1.received && s1.groups == s.groups && Safe(t, s1.file, s1.received)
    requires var missing := Missing(ManifestOf(t), s.groups[g], g, s.received);
             forall i :: 0 <= i < |missing| ==> ChunkAt(t, g, missing[i]) in s1.received
    ensures Good(t, s1) && Complete(t, s1.received, g)
    ensures Missing(ManifestOf(t), s.groups[g], g, s1.received) == []
  {
    forall slot | 0 <= slot < t.dataShards
      ensures ChunkAt(t, g, slot) in s1.received && !MissingAt(ManifestOf(t), s.groups[g], g, s1.received, slot)
    {
      RecoveredSlot(t, s, g, s1.received, slot);
    }
    NoneMissing(ManifestOf(t), s.groups[g], g, s1.received, 0);
    GoodGrows(t, s, s1);
  }

  /** A ready group with missing slots is completed, and then nothing is missing any more. */
  lemma RecoverCompletes(t: Transfer, verify: bool, s: Recv, g: nat)
    requires Valid(t) && Good(t, s) && g in s.groups && t.parityShards > 0
    requires Missing(ManifestOf(t), s.groups[g], g, s.received) != []
    requires RecoveryReady(ManifestOf(t), s.groups[g])
    ensures RecoveredRows(ConfigOf(t, verify), s, g) == Some(GroupRows(t, g))
    ensures var missing := Missing(ManifestOf(t), s.groups[g], g, s.received);
            var (s1, r) := RecoverSlots(ConfigOf(t, verify), s, g, GroupRows(t, g), missing);
            && r == Ok(true) && s.received <= s1.received && OnlyGroupAdded(t, g, s.received, s1.received)
            && Good(t, s1) && Complete(t, s1.received, g) && OnlySource(t, s.file, s1.file)
            && Missing(ManifestOf(t), s.groups[g], g, s1.received) == []
  {
    var missing := Missing(ManifestOf(t), s.groups[g], g, s.received);
    ReconstructHonest(t, s, g, verify);
    RecoverSlotsHonest(t, verify, s, g, missing);
    RecoveredGroup(t, s, g, RecoverSlots(ConfigOf(t, verify), s, g, GroupRows(t, g), missing).0);
  }

  /** Without a ready group that misses a slot, nothing is recovered. */
  lemma NothingToRecover(t: Transfer, verify: bool, s: Recv, g: nat)
    requires Valid(t) && t.parityShards > 0
    requires g in s.groups && RecoveryReady(ManifestOf(t), s.groups[g]) ==>
             Missing(ManifestOf(t), s.groups[g], g, s.received) == []
    ensures TryRecover(ConfigOf(t, verify), s, g) == (s, Ok(()))
  {
    hide RecoverSlots, RecoveryReady, Missing, MaxPresentLen, ReconstructData;
  }

  /** A recovery that persists all missing slots drops the group. */
  lemma RecoveryRemoves(k: Config, s: Recv, g: nat, rows: seq<Bytes>, s1: Recv)
    requires FecOn(k.manifest) && Accepts(k) && g in s.groups && RecoveredRows(k, s, g) == Some(rows)
    requires RecoverSlots(k, s, g, rows, Missing(k.manifest, s.groups[g], g, s.received)) == (s1, Ok(true))
    requires Missing(k.manifest, s.groups[g], g, s1.received) == []
    ensures TryRecover(k, s, g) == (s1.(groups := s1.groups - {g}), Ok(()))
  {
    hide RecoveredRows, RecoverSlots, Missing;
  }

  lemma TryRecoverCompletes(t: Transfer, verify: bool, s: Recv, g: nat)
    requires Valid(t) && Good(t, s) && t.parityShards > 0 && g in s.groups && RecoveryReady(ManifestOf(t), s.groups[g])
    requires Missing(ManifestOf(t), s.groups[g], g, s.received) != []
    ensures var (s1, r) := TryRecover(ConfigOf(t, verify), s, g);
            r.Ok? && RecoverPost(t, s, g, s1)
  {
    RecoverCompletes(t, verify, s, g);
    var missing := Missing(ManifestOf(t), s.groups[g], g, s.received);
    var s1 := RecoverSlots(ConfigOf(t, verify), s, g, GroupRows(t, g), missing).0;
    RecoveryRemoves(ConfigOf(t, verify), s, g, GroupRows(t, g), s1);
    hide TryRecover, RecoverSlots, RecoveredRows, RecoveryReady, Missing, GoodGroup, Safe, OnlySource;
    GroupRemoved(t, s, g, s1);
  }

  lemma GroupRemoved(t: Transfer, s: Recv, g: nat, s1: Recv)
    requires Valid(t) && Good(t, s1) && g in s.groups && RecoveryReady(ManifestOf(t), s.groups[g])
    requires s.received <= s1.received && OnlyGroupAdded(t, g, s.received, s1.received) && s1.groups == s.groups
    requires Complete(t, s1.received, g) && OnlySource(t, s.file, s1.file)
    ensures RecoverPost(t, s, g, s1.(groups := s1.groups - {g}))
  {
    hide RecoveryReady, GoodGroup, Safe, OnlyGroupAdded, Complete, OnlySource;
  }

  lemma TryRecoverHonest(t: Transfer, verify: bool, s: Recv, g: nat)
    requires Valid(t) && Good(t, s) && t.parityShards > 0
    ensures var (s1, r) := TryRecover(ConfigOf(t, verify), s, g);
            r.Ok? && RecoverPost(t, s, g, s1)
  {
    SourceUnchanged(t, s.file);
    hide TryRecover, RecoveryReady, Missing, GoodGroup, Safe, OnlySource;
    if g in s.groups && RecoveryReady(ManifestOf(t), s.groups[g]) {
      if Missing(ManifestOf(t), s.groups[g], g, s.received) == [] {
        NothingMissing(t, s, g);
        NothingToRecover(t, verify, s, g);
      } else {
        TryRecoverCompletes(t, verify, s, g);
      }
    } else {
      NothingToRecover(t, verify, s, g);
    }
  }

  lemma GoodGrows(t: Transfer, s: Recv, s1: Recv)
    requires Valid(t) && Good(t, s) && Safe(t, s1.file, s1.received) && s.received <= s1.received && s1.groups == s.groups
    ensures Good(t, s1)
  {
    forall g | g in s.groups ensures GoodGroup(t, s1.received, g, s.groups[g]) {
      forall slot | 0 <= slot < |s.groups[g]| ensures GoodSlot(t, s1.received, g, s.groups[g], slot) {
        assert GoodSlot(t, s.received, g, s.groups[g], slot);
      }
    }
  }

  lemma IndexNotSaturated(t: Transfer, g: nat, slot: nat)
    requires Valid(t) && ChunkIndex(ManifestOf(t), g, slot) < NumChunks(t)
    ensures ChunkIndex(ManifestOf(t), g, slot) == ChunkAt(t, g, slot)
  {
    NumChunksBounded(t);
    hide Lawful, NumChunks;
  }

  /** A group with no missing slot is complete, since each of its data shards was persisted. */
  lemma NothingMissing(t: Transfer, s: Recv, g: nat)
    requires Valid(t) && Good(t, s) && g in s.groups
    requires Missing(ManifestOf(t), s.groups[g], g, s.received) == []
    ensures Complete(t, s.received, g)
  {
    hide Lawful, NumChunks, ChunkIndex, ChunkAt, DataFrame, ParityBody, Holds, FullGroup;
    var group := s.groups[g];
    forall slot | 0 <= slot < t.dataShards ensures ChunkAt(t, g, slot) in s.received {
      assert !MissingAt(ManifestOf(t), group, g, s.received, slot);
      assert GoodSlot(t, s.received, g, group, slot);
      if ChunkIndex(ManifestOf(t), g, slot) in s.received { IndexNotSaturated(t, g, slot); }
    }
  }

  /** The frames a sender may emit, by what they carry; `p` is the parity count of the encoder used. */
  datatype Key = Data(i: nat) | Parity(g: nat, i: nat, p: nat)

  ghost predicate IsKey(t: Transfer, key: Key)
    requires t.chunkSize > 0
  {
    match key
    case Data(i) => i < NumChunks(t)
    case Parity(g, i, p) => FullGroup(t, g) && i < p <= t.parityShards
  }

  ghost function FrameOf(t: Transfer, key: Key): Bytes
    requires Valid(t) && IsKey(t, key)
  {
    match key
    case Data(i) => DataFrame(t, i)
    case Parity(g, i, p) => ParityFrame(t, g, i, p)
  }

  /** The group of a frame and its slot in that group. */
  ghost function GroupOf(t: Transfer, key: Key): nat
    requires t.dataShards > 0
  {
    match key
    case Data(i) => Div(i, t.dataShards)
    case Parity(g, _, _) => g
  }

  ghost function SlotOf(t: Transfer, key: Key): nat
    requires t.dataShards > 0
  {
    match key
    case Data(i) => i - Mul(Div(i, t.dataShards), t.dataShards)
    case Parity(_, i, _) => t.dataShards + i
  }

  lemma ParityIndexBounded(g: nat, i: nat, p: nat)
    ensures ParityIndexField(g, i, p) < U64_LIMIT
  {}

  lemma ParityFieldsInRange(c: Codecs, g: nat, i: nat, p: nat, body: Bytes)
    requires g < U64_LIMIT && i < U64_LIMIT && |body| < U32_LIMIT && |c.hash(body)| == CHECKSUM_BYTES
    ensures var d := ParityDescriptor(c, g, i, p, body); InRange(d) && d.compressedSize == |body|
  {
    ParityIndexBounded(g, i, p);
  }

  lemma ParityDescriptorInRange(t: Transfer, g: nat, i: nat, p: nat)
    requires Valid(t) && FullGroup(t, g) && i < p <= t.parityShards
    ensures var body := ParityBody(t, g, i); var d := ParityDescriptor(t.codecs, g, i, p, body);
            InRange(d) && d.compressedSize == |body|
  {
    GroupLenBound(t, g);
    GroupBounded(t, g);
    NumChunksBounded(t);
    ParityFieldsInRange(t.codecs, g, i, p, ParityBody(t, g, i));
  }

  // 4 * n >= n + 4 + DESCRIPTOR_BOUND once n passes 16384; below that the floor of 64 KiB suffices.
  lemma MaxBodyBound(n: nat)
    requires n + 4 + DESCRIPTOR_BOUND < U32_LIMIT
    ensures n % U32_LIMIT == n && n + 4 + DESCRIPTOR_BOUND <= Max(SatMul(n % U32_LIMIT, 4), 64 * 1024)
  {
    MulIsProduct(n, 4);
  }

  /** The receiver's size limit admits every frame of the sender, for every chunk size. */
  lemma BodyFits(t: Transfer, key: Key)
    requires Valid(t) && IsKey(t, key)
    ensures var len := if key.Data? then |DataBody(t, key.i)| else GroupLen(t, key.g);
            len <= MaxBody(ManifestOf(t))
  {
    MaxBodyBound(t.chunkSize);
    match key
    case Data(i) => DataDescriptorInRange(t, i);
    case Parity(g, _, _) => GroupLenBound(t, g);
  }
}
