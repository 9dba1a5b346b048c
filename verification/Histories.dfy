/** Histories of crashes and restarts: which starts are safe for all of them, and how the resume file goes stale. */
module Histories {
  import opened Bytes
  import opened Wire
  import opened Source
  import opened Receiver
  import opened Safety
  import opened Delivery
  import opened Session
  import opened Runs
  import opened Resume

  /** What a chunk range of one session misses in the range of the same index of another is zero in the source. */
  ghost predicate RangesFit(t: Transfer, u: Transfer)
    requires t.chunkSize > 0 && u.chunkSize > 0 && u.source == t.source
  {
    forall i: nat :: i < NumChunks(t) ==> RangeFits(t, u, i)
  }

  ghost predicate RangeFits(t: Transfer, u: Transfer, i: nat)
    requires t.chunkSize > 0 && u.chunkSize > 0 && u.source == t.source
  {
    && i < NumChunks(u)
    && forall k :: Start(u, i) <= k < End(u, i) && !(Start(t, i) <= k < End(t, i)) ==> t.source[k] == 0
  }

  /** The history ends with a part file that a session of `t` has left. */
  ghost predicate LeavesFile(hs: seq<Host>, t: Transfer) {
    hs != [] && var last := hs[|hs| - 1]; last.Down? && last.t == t && last.disk.part.Some?
  }

  /** A session may resume whatever safe histories have left if and only if its ranges fit those of the session
      before it. */
  lemma SizesDecide(o: Original, k: Settings, t: Transfer, u: Transfer)
    requires PlanOf(o, t) && PlanOf(o, u)
    ensures (forall hs: seq<Host> :: IsHistory(o, k, hs) && LeavesFile(hs, t) ==> MayBegin(u, hs[|hs| - 1].disk, true))
            <==> RangesFit(t, u)
  {
    hide IsHistory, MayBegin, RangeFits, Lawful, NumChunks;
    if RangesFit(t, u) {
      forall hs: seq<Host> | IsHistory(o, k, hs) && LeavesFile(hs, t) ensures MayBegin(u, hs[|hs| - 1].disk, true) {
        FitSuffices(o, k, t, u, hs);
      }
    } else {
      var c: nat :| c < NumChunks(t) && !RangeFits(t, u, c);
      var hs := FitNeeded(o, k, t, u, c);
    }
  }

  lemma FitSuffices(o: Original, k: Settings, t: Transfer, u: Transfer, hs: seq<Host>)
    requires PlanOf(o, t) && PlanOf(o, u) && RangesFit(t, u) && IsHistory(o, k, hs) && LeavesFile(hs, t)
    ensures MayBegin(u, hs[|hs| - 1].disk, true)
  {
    HistoryInv(o, k, hs, |hs| - 1);
    hide IsHistory, Lawful, NumChunks;
    var d := hs[|hs| - 1].disk;
    forall i | i in d.saved ensures KeepsChunk(u, d.part.value, i) { FitKeeps(t, u, d.part.value, i); }
  }

  lemma FitKeeps(t: Transfer, u: Transfer, part: Bytes, i: nat)
    requires t.chunkSize > 0 && u.chunkSize > 0 && u.source == t.source && RangeFits(t, u, i)
    requires Clean(t, part) && Holds(t, part, i)
    ensures KeepsChunk(u, part, i)
  {
    ChunkRange(u, i);
  }

  /** A history that receives the one chunk whose ranges do not fit. */
  lemma FitNeeded(o: Original, k: Settings, t: Transfer, u: Transfer, c: nat) returns (hs: seq<Host>)
    requires PlanOf(o, t) && PlanOf(o, u) && c < NumChunks(t) && !RangeFits(t, u, c)
    ensures IsHistory(o, k, hs) && LeavesFile(hs, t) && !MayBegin(u, hs[|hs| - 1].disk, true)
  {
    hide HostNext, AnyNext, Lawful, NumChunks, Begin, With, MayBegin, RangeFits, OneReceived;
    var s := FirstSession(o, t, k, c);
    BeginIs(t, Disk(None, {}));
    var d := Disk(Some(s.recv.file), {c});
    hs := [Down(Disk(None, {}), t), Begin(t, Disk(None, {}), true), Up(t, s, true), Down(d, t)];
    WithFor(t, k, true);
    NotKept(t, u, With(k, t, true), c, s);
  }

  lemma BeginIs(t: Transfer, d: Disk)
    ensures Begin(t, d, true).t == t
  {}

  lemma NotKept(t: Transfer, u: Transfer, k: Settings, c: nat, s: State)
    requires Valid(t) && Valid(u) && u.source == t.source && c < NumChunks(t) && !RangeFits(t, u, c)
    requires Accepts(k.config) && OneReceived(t, k, c, s)
    ensures !MayBegin(u, Disk(Some(s.recv.file), {c}), true)
  {
    hide EventStep, Lawful, NumChunks, Holds;
    ChunkRange(u, c);
    var d := Disk(Some(s.recv.file), {c});
    assert c in d.saved;
    if c < NumChunks(u) {
      var k :| Start(u, c) <= k < End(u, c) && !(Start(t, c) <= k < End(t, c)) && t.source[k] != 0;
      assert ByteAt(d.part.value, k) == Zeros(|t.source|)[k] == 0;
    }
    assert !KeepsChunk(u, d.part.value, c);
  }

  /** Sizes that agree fit, and when the source has no zero byte no others do. */
  lemma FitMeansAgree(t: Transfer, u: Transfer)
    requires t.chunkSize > 0 && u.chunkSize > 0 && u.source == t.source
    ensures SizesAgree(t, u) ==> RangesFit(t, u)
    ensures (forall k :: 0 <= k < |t.source| ==> t.source[k] != 0) ==> (RangesFit(t, u) <==> SizesAgree(t, u))
  {
    if SizesAgree(t, u) {
      forall i: nat | i < NumChunks(t) ensures RangeFits(t, u, i) { AgreeFits(t, u, i); }
    } else if forall k :: 0 <= k < |t.source| ==> t.source[k] != 0 {
      OtherSizesMiss(t, u);
    }
  }

  lemma AgreeFits(t: Transfer, u: Transfer, i: nat)
    requires t.chunkSize > 0 && u.chunkSize > 0 && u.source == t.source && SizesAgree(t, u) && i < NumChunks(t)
    ensures RangeFits(t, u, i)
  {
    if u.chunkSize != t.chunkSize {
      OneRange(t, i);
      ChunkRange(u, 0);
    }
  }

  lemma OtherSizesMiss(t: Transfer, u: Transfer)
    requires t.chunkSize > 0 && u.chunkSize > 0 && u.source == t.source && !SizesAgree(t, u)
    requires forall k :: 0 <= k < |t.source| ==> t.source[k] != 0
    ensures !RangesFit(t, u)
  {
    hide NumChunks;
    var i, at := if t.chunkSize < u.chunkSize then 0 else 1, Min(t.chunkSize, u.chunkSize);
    assert Start(t, 0) == Start(u, 0) == 0 && Start(t, 1) == t.chunkSize && Start(u, 1) == u.chunkSize;
    assert Start(t, 2) == 2 * t.chunkSize && Start(u, 2) == 2 * u.chunkSize;
    ChunkRange(t, i);
    ChunkRange(u, i);
    assert Start(u, i) <= at < End(u, i) && !(Start(t, i) <= at < End(t, i)) && t.source[at] != 0;
    assert !RangeFits(t, u, i);
  }

  /** Whatever happened before, a file is only renamed by a full session and after it has passed, so with the
      comparison of checksums switched on it is the source, unless the hashes collide. */
  lemma RenamedIsSource(o: Original, k: Settings, h: Host, h': Host)
    requires PlanOf(o, h.t) && AnyNext(o, k, h, h') && h.Up? && h'.Down? && h'.disk.part == None
    ensures |h.s.recv.received| >= NumChunks(h.t) && Passes(h.t, With(k, h.t, h.resume), h.s.recv.file)
    ensures k.config.verify && (o.codecs.hash(h.s.recv.file) == o.codecs.hash(o.source) ==> h.s.recv.file == o.source) ==>
              h.s.recv.file == o.source
  {
    hide Lawful, NumChunks, EventStep, OnlySource, SameOutside;
  }

  /** How a full session may end. */
  lemma FullEnds(o: Original, k: Settings, h: Host)
    requires PlanOf(o, h.t) && h.Up? && |h.s.recv.received| >= NumChunks(h.t)
    ensures var passes := Passes(h.t, With(k, h.t, h.resume), h.s.recv.file);
            && (passes ==> AnyNext(o, k, h, Down(Disk(None, {}), h.t)))
            && (!passes ==> AnyNext(o, k, h, Down(Disk(Some(h.s.recv.file), h.s.saved), h.t)))
            && (!passes ==> forall h' :: AnyNext(o, k, h, h') && h'.Down? ==> h'.disk.part.Some?)
  {
    hide Passes, AnyNext, With;
    forall h' | AnyNext(o, k, h, h') && h'.Down? && h'.disk.part == None
      ensures Passes(h.t, With(k, h.t, h.resume), h.s.recv.file)
    {
      RenamedIsSource(o, k, h, h');
    }
    FinishNext(o, k, h);
  }

  lemma FinishNext(o: Original, k: Settings, h: Host)
    requires PlanOf(o, h.t) && h.Up? && |h.s.recv.received| >= NumChunks(h.t)
    ensures var passes := Passes(h.t, With(k, h.t, h.resume), h.s.recv.file);
            && (passes ==> AnyNext(o, k, h, Down(Disk(None, {}), h.t)))
            && (!passes ==> AnyNext(o, k, h, Down(Disk(Some(h.s.recv.file), h.s.saved), h.t)))
  {
    hide Passes, Lawful, NumChunks, EventStep, OnlySource, SameOutside, With;
  }

  ghost predicate IsAnyHistory(o: Original, k: Settings, hs: seq<Host>) {
    && hs != [] && hs[0].Down? && hs[0].disk == Disk(None, {})
    && (forall i :: 0 <= i < |hs| ==> PlanOf(o, hs[i].t))
    && forall i :: 0 <= i < |hs| - 1 ==> AnyNext(o, k, hs[i], hs[i + 1])
  }

  /** The state after a session has received chunk `c` in a datagram, and nothing else. */
  ghost predicate OneReceived(t: Transfer, k: Settings, c: nat, s: State)
    requires Valid(t) && Accepts(k.config)
  {
    && EventStep(t, k, Start0(Zeros(|t.source|), {}, {}), s, Datagram(DataFrame(t, c)))
    && s.recv.received == {c} && s.saved == {c}
    && Holds(t, s.recv.file, c) && SameOutside(t, Zeros(|t.source|), s.recv.file, c)
  }

  lemma EmptyReady(t: Transfer, c: nat)
    requires Valid(t) && c < NumChunks(t)
    ensures IsKey(t, Data(c)) && FrameOf(t, Data(c)) == DataFrame(t, c) && Sent(t, DataFrame(t, c))
    ensures Inv(t, Start0(Zeros(|t.source|), {}, {}).recv, {})
    ensures AllTruthful(t, {}, Start0(Zeros(|t.source|), {}, {}).feedback)
  {
    StartInv(t, Zeros(|t.source|), {}, {});
    assert IsKey(t, Data(c)) && FrameOf(t, Data(c)) == DataFrame(t, c);
  }

  /** One shard alone recovers nothing. */
  lemma LoneShard(t: Transfer, verify: bool, s: Recv, g: nat, slot: nat, shard: Bytes)
    requires Valid(t) && t.parityShards > 0 && s.groups == map[] && slot < t.dataShards
    ensures var stored := s.(groups := StoreShard(ManifestOf(t), s.groups, g, slot, shard));
            TryRecover(ConfigOf(t, verify), stored, g) == (stored, Ok(()))
  {
    hide Lawful, NumChunks, RecoverSlots, MaxPresentLen, PadPresent, ChunkIndex;
    var m := ManifestOf(t);
    var group := StoreShard(m, s.groups, g, slot, shard)[g];
    if t.dataShards > 1 {
      assert ReedSolomon.Present(group) == {slot};
    } else {
      assert !MissingAt(m, group, g, s.received, 0) && MissingFrom(m, group, g, s.received, 1) == [];
    }
  }

  lemma LoneFrame(t: Transfer, verify: bool, s: Recv, c: nat)
    requires Valid(t) && c < NumChunks(t) && s == Recv(Zeros(|t.source|), {}, map[])
    ensures var s1 := Ingest(ConfigOf(t, verify), s, DataFrame(t, c)).0;
            s1.received == {c} && Holds(t, s1.file, c) && SameOutside(t, s.file, s1.file, c)
  {
    hide Lawful, NumChunks, Persist, Ingest, DataFrame, SameOutside, OnlySource, TryRecover;
    var k := ConfigOf(t, verify);
    IngestDataFrame(t, verify, s, c);
    PersistHonest(t, verify, s, c, []);
    assert DataFrame(t, c) + [] == DataFrame(t, c);
    DataSlot(t, c);
    if t.parityShards > 0 {
      LoneShard(t, verify, Persist(k, s, DataFrame(t, c)).0, GroupOf(t, Data(c)), SlotOf(t, Data(c)), DataFrame(t, c));
    }
  }

  /** A session can receive any chunk and no other. */
  lemma OneChunkAlone(t: Transfer, k: Settings, c: nat) returns (s: State)
    requires Valid(t) && For(t, k) && Accepts(k.config) && k.resume && c < NumChunks(t)
    ensures OneReceived(t, k, c, s)
  {
    hide Ingest, DataFrame, Inv, Sent, AllTruthful, FrameOf, Lawful, Safe, Holds, SameOutside, NumChunks;
    var s0 := Start0(Zeros(|t.source|), {}, {});
    EmptyReady(t, c);
    HandleRecv(t, k, s0, {}, Data(c));
    s := Handle(k, s0, DataFrame(t, c)).0;
    LoneFrame(t, k.config.verify, s0.recv, c);
    SavedWhenDue(k, s0, DataFrame(t, c));
  }

  lemma SavedWhenDue(k: Settings, s: State, wire: Bytes)
    requires Accepts(k.config) && Handle(k, s, wire).1.Ok? && k.resume
    requires |Handle(k, s, wire).0.recv.received| <= 32
    ensures var (s1, r) := Handle(k, s, wire); s1.saved == s1.recv.received && r == Ok(())
  {
    hide Ingest;
  }

  /** The first session of a file: from the empty disk to the state with chunk `c`, which a crash keeps. */
  lemma FirstSession(o: Original, t: Transfer, k: Settings, c: nat) returns (s: State)
    requires PlanOf(o, t) && c < NumChunks(t)
    ensures OneReceived(t, With(k, t, true), c, s)
    ensures var none := Down(Disk(None, {}), t); var first := Begin(t, Disk(None, {}), true);
            && AnyNext(o, k, none, first) && HostNext(o, k, none, first)
            && AnyNext(o, k, first, Up(t, s, true)) && HostNext(o, k, first, Up(t, s, true))
            && AnyNext(o, k, Up(t, s, true), Down(Disk(Some(s.recv.file), {c}), t))
            && HostNext(o, k, Up(t, s, true), Down(Disk(Some(s.recv.file), {c}), t))
  {
    WithFor(t, k, true);
    s := OneChunkAlone(t, With(k, t, true), c);
    assert [] + Zeros(|t.source|) == Zeros(|t.source|);
    hide With, EventStep, NumChunks, Lawful, Holds;
    SourceUnchanged(t, s.recv.file);
    assert CrashStep(t, s, Disk(Some(s.recv.file), {c}));
  }

  lemma StartHistory(o: Original, k: Settings, t: Transfer) returns (hs: seq<Host>)
    requires PlanOf(o, t)
    ensures IsAnyHistory(o, k, hs) && hs != [] && hs[|hs| - 1] == Down(Disk(None, {}), t)
  {
    hs := [Down(Disk(None, {}), t)];
  }

  lemma Extended(o: Original, k: Settings, hs: seq<Host>, h: Host) returns (r: seq<Host>)
    requires IsAnyHistory(o, k, hs) && hs != [] && PlanOf(o, hs[|hs| - 1].t) && PlanOf(o, h.t)
    requires AnyNext(o, k, hs[|hs| - 1], h)
    ensures IsAnyHistory(o, k, r) && r != [] && r[|r| - 1] == h
  {
    hide AnyNext, PlanOf;
    r := hs + [h];
  }

  lemma OneChunk(t: Transfer)
    requires Valid(t) && t.source == [7]
    ensures NumChunks(t) == 1 && Start(t, 0) == 0 && End(t, 0) == 1
  {
    ChunkRange(t, 0);
    ChunkRange(t, 1);
    assert Start(t, 0) == 0 && Start(t, 1) == t.chunkSize;
  }

  lemma StaleDisk(t: Transfer)
    requires Valid(t) && t.source == [7]
    ensures !DiskSafe(t, Disk(Some([0]), {0})) && Loaded(Disk(Some([0]), {0}), true) == {0}
  {
    OneChunk(t);
    var lost: Bytes := [0];
    assert t.source[0] == 7 && lost[0] == 0;
    assert !Holds(t, lost, 0);
    assert 0 in Disk(Some([0]), {0}).saved;
  }

  /** Three histories, with one chunk size, that end with a resume file naming a chunk the part file lacks: a
      session without resume over an earlier one; a crash between the rename and the removal, followed by a
      session that crashes before its first save; and a crash that loses the write of a chunk already listed. */
  lemma StaleResumeFile(o: Original, k: Settings, t: Transfer) returns (a: seq<Host>, b: seq<Host>, c: seq<Host>)
    requires PlanOf(o, t) && o.source == [7]
    ensures IsAnyHistory(o, k, a) && IsAnyHistory(o, k, b) && IsAnyHistory(o, k, c)
    ensures a != [] && b != [] && c != []
    ensures a[|a| - 1] == b[|b| - 1] == c[|c| - 1] == Down(Disk(Some([0]), {0}), t)
    ensures !DiskSafe(t, Disk(Some([0]), {0})) && Loaded(Disk(Some([0]), {0}), true) == {0}
  {
    var kept, renamed, stale := Disk(Some([7]), {0}), Disk(None, {0}), Disk(Some([0]), {0});
    OneChunk(t);
    StaleDisk(t);
    var s := FirstSession(o, t, k, 0);
    assert s.recv.file == [7];
    Ended(o, t, k, s);
    Restarted(o, t, k);
    hide *;
    var start := StartHistory(o, k, t);
    start := Extended(o, k, start, Begin(t, Disk(None, {}), true));
    start := Extended(o, k, start, Up(t, s, true));
    a := Extended(o, k, start, Down(kept, t));
    a := Extended(o, k, a, Begin(t, kept, false));
    a := Extended(o, k, a, Down(stale, t));
    b := Extended(o, k, start, Down(renamed, t));
    b := Extended(o, k, b, Begin(t, renamed, true));
    b := Extended(o, k, b, Down(stale, t));
    c := Extended(o, k, start, Down(stale, t));
  }

  /** How the first session may end besides a plain crash. */
  lemma Ended(o: Original, t: Transfer, k: Settings, s: State)
    requires PlanOf(o, t) && t.source == [7]
    requires s.recv.file == [7] && s.recv.received == {0} && s.saved == {0}
    ensures AnyNext(o, k, Up(t, s, true), Down(Disk(None, {0}), t))
    ensures AnyNext(o, k, Up(t, s, true), Down(Disk(Some([0]), {0}), t))
  {
    OneChunk(t);
    hide EventStep, Lawful, With;
    assert FinishStep(t, With(k, t, true), s, Disk(None, {0}));
    assert LostWrite(t, s, 0, Disk(Some([0]), {0}));
  }

  /** The second session of the first two histories: it starts from an empty file and crashes. */
  lemma Restarted(o: Original, t: Transfer, k: Settings)
    requires PlanOf(o, t) && t.source == [7]
    ensures var kept, renamed, stale := Disk(Some([7]), {0}), Disk(None, {0}), Disk(Some([0]), {0});
            && Begin(t, kept, false).t == Begin(t, renamed, true).t == t
            && AnyNext(o, k, Down(kept, t), Begin(t, kept, false))
            && AnyNext(o, k, Begin(t, kept, false), Down(stale, t))
            && AnyNext(o, k, Down(renamed, t), Begin(t, renamed, true))
            && AnyNext(o, k, Begin(t, renamed, true), Down(stale, t))
  {
    OneChunk(t);
    hide EventStep, Lawful, With, NumChunks;
    SourceUnchanged(t, [0]);
    assert Opened(Disk(Some([7]), {0}), false, 1) == [0] && Opened(Disk(None, {0}), true, 1) == [0];
    assert CrashStep(t, Start0([0], {}, {0}), Disk(Some([0]), {0}));
  }

  lemma TwoChunks(t: Transfer, u: Transfer)
    requires Valid(t) && Valid(u) && t.source == u.source == [7, 8] && t.chunkSize == 1 && u.chunkSize == 2
    ensures NumChunks(t) == 2 && Start(t, 0) == 0 && End(t, 0) == 1
    ensures NumChunks(u) == 1 && Start(u, 0) == 0 && End(u, 0) == 2
  {
    assert Start(t, 0) == 0 && Start(t, 1) == 1 && Start(t, 2) == 2;
    assert Start(u, 0) == 0 && Start(u, 1) == 2;
    ChunkRange(t, 1);
    ChunkRange(t, 2);
    ChunkRange(u, 0);
    ChunkRange(u, 1);
  }

  /** A fourth way, without any crash at a bad moment: the list is truthful in the chunk size of the session that
      wrote it, and a session with a larger one takes it over. It counts the chunks of the other size, so it is
      full at once with a file that is not the source. Without the comparison of checksums that file is
      renamed; with it the session fails, nothing is ever renamed, and the next session of that size starts from
      the same state again. */
  lemma OtherChunkSize(o: Original, k: Settings, t: Transfer, u: Transfer) returns (hs: seq<Host>)
    requires PlanOf(o, t) && PlanOf(o, u) && o.source == [7, 8] && t.chunkSize == 1 && u.chunkSize == 2
    ensures IsAnyHistory(o, k, hs) && |hs| == 5
    ensures forall i :: 0 <= i < 3 ==> HostNext(o, k, hs[i], hs[i + 1])
    ensures hs[3] == Down(Disk(Some([7, 0]), {0}), t) && DiskSafe(t, hs[3].disk) && !MayBegin(u, hs[3].disk, true)
    ensures hs[4] == Begin(u, hs[3].disk, true) && Accepts(With(k, u, true).config)
    ensures Accept(With(k, u, true), hs[4].s, []) == (hs[4].s, Filled) && hs[4].s.recv.file == [7, 0]
    ensures !k.config.verify ==> AnyNext(o, k, hs[4], Down(Disk(None, {}), u))
    ensures k.config.verify && o.codecs.hash([7, 0]) != o.codecs.hash([7, 8]) ==>
              && AnyNext(o, k, hs[4], Down(hs[3].disk, u))
              && forall h' :: AnyNext(o, k, hs[4], h') && h'.Down? ==> h'.disk.part.Some?
  {
    hide AnyNext, HostNext, MayBegin, With, Lawful, OneReceived, DiskSafe, Begin, Accept, Accepts, Resize;
    TwoChunks(t, u);
    TakenOver(o, k, t, u);
    var s := FirstSession(o, t, k, 0);
    WithFor(t, k, true);
    HalfFile(t, With(k, t, true), s);
    var d := Disk(Some([7, 0]), {0});
    hs := [Down(Disk(None, {}), t), Begin(t, Disk(None, {}), true), Up(t, s, true), Down(d, t), Begin(u, d, true)];
    FullEnds(o, k, hs[4]);
    hide Passes;
  }

  lemma HalfFile(t: Transfer, k: Settings, s: State)
    requires Valid(t) && Accepts(k.config) && OneReceived(t, k, 0, s)
    requires t.source == [7, 8] && Start(t, 0) == 0 && End(t, 0) == 1
    ensures s.recv.file == [7, 0]
  {
    hide EventStep, Lawful;
    assert s.recv.file[0] == 7 && s.recv.file[1] == Zeros(2)[1] == 0;
  }

  /** The session that takes the list over. */
  lemma TakenOver(o: Original, k: Settings, t: Transfer, u: Transfer)
    requires PlanOf(o, t) && PlanOf(o, u) && o.source == [7, 8] && t.chunkSize == 1 && u.chunkSize == 2
    ensures var d := Disk(Some([7, 0]), {0}); var last := Begin(u, d, true);
            && DiskSafe(t, d) && !MayBegin(u, d, true) && AnyNext(o, k, Down(d, t), last)
            && Begin(t, Disk(None, {}), true).t == t && last.t == u && last.Up? && last.s.recv.file == [7, 0]
            && Accepts(With(k, u, true).config) && Accept(With(k, u, true), last.s, []) == (last.s, Filled)
            && Passes(u, With(k, u, true), [7, 0]) == (!k.config.verify || o.codecs.hash([7, 0]) == o.codecs.hash([7, 8]))
            && |last.s.recv.received| >= NumChunks(u) && last.s.saved == {0} && last.resume
  {
    hide Lawful, NumChunks;
    TwoChunks(t, u);
    WithFor(u, k, true);
    var d := Disk(Some([7, 0]), {0});
    assert ByteAt(d.part.value, 1) == 0 && u.source[1] == 8;
    assert !KeepsChunk(u, d.part.value, 0) && 0 in d.saved;
    assert Resize(d.part.value, 2) == d.part.value;
  }
}
