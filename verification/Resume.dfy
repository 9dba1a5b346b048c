/** Crashes and restarts of the receiver: what the part file and the resume file say afterwards. */
module Resume {
  import opened Bytes
  import opened Arith
  import opened Wire
  import opened Source
  import opened Receiver
  import opened Safety
  import opened Delivery
  import opened Session
  import opened Runs

  /** What every session of a file has in common. The part file and the resume file are named after the content;
      chunk size, compression and shard counts are chosen anew for each session. */
  datatype Original = Original(codecs: Codecs, source: Bytes)

  ghost predicate PlanOf(o: Original, t: Transfer) { Valid(t) && t.codecs == o.codecs && t.source == o.source }

  /** What survives a crash. A resume file that is absent or unreadable counts as empty. */
  datatype Disk = Disk(part: Option<Bytes>, saved: set<nat>)

  /** `t` is how the latest session sends the file. */
  datatype Host = Down(disk: Disk, t: Transfer) | Up(t: Transfer, s: State, resume: bool)

  const NO_HASH: Bytes := Zeros(CHECKSUM_BYTES)

  function With(k: Settings, t: Transfer, resume: bool): Settings
    requires t.chunkSize > 0
  {
    k.(config := ConfigOf(t, k.config.verify), resume := resume)
  }

  /** The indices a session counts from the start. */
  function Loaded(d: Disk, resume: bool): set<nat> { if resume && d.part.Some? then d.saved else {} }

  /** The bytes of an earlier session that a session keeps. */
  function Kept(d: Disk, resume: bool): Bytes { if resume && d.part.Some? then d.part.value else [] }

  /** The part file as a session opens it. */
  function Opened(d: Disk, resume: bool, size: nat): (file: Bytes)
    ensures |file| == size
  {
    Resize(Kept(d, resume), size)
  }

  function Begin(t: Transfer, d: Disk, resume: bool): Host {
    Up(t, Start0(Opened(d, resume, |t.source|), Loaded(d, resume), d.saved), resume)
  }

  /** Without a part file, or without the wish to resume, a session counts nothing and starts from zeros; otherwise it
      takes over the list and as much of the file as fits. The list on disk stays in both cases. */
  lemma StartsFrom(t: Transfer, d: Disk, resume: bool)
    ensures var s := Begin(t, d, resume).s;
            && |s.recv.file| == |t.source| && s.saved == d.saved && s.recv.groups == map[] && s.feedback == []
            && (!resume || d.part.None? ==> s.recv.received == {} && s.recv.file == Zeros(|t.source|))
            && (resume && d.part.Some? ==>
                  && s.recv.received == d.saved
                  && forall k :: 0 <= k < |t.source| ==>
                       s.recv.file[k] == if k < |d.part.value| then d.part.value[k] else 0)
  {}

  /** The saved indices name chunks that the part file holds. */
  ghost predicate SavedHeld(t: Transfer, file: Bytes, saved: set<nat>)
    requires t.chunkSize > 0
  {
    forall i :: i in saved ==> i < NumChunks(t) && Holds(t, file, i)
  }

  /** Every chunk in the resume file is in the part file, if there is one. */
  ghost predicate DiskSafe(t: Transfer, d: Disk)
    requires t.chunkSize > 0
  {
    d.part.Some? ==> SavedHeld(t, d.part.value, d.saved)
  }

  /** Byte `k` of a file that is extended with zeros. */
  function ByteAt(b: Bytes, k: nat): byte { if k < |b| then b[k] else 0 }

  /** The bytes kept have the range of chunk `i`, with zeros after their end. */
  ghost predicate KeepsChunk(t: Transfer, kept: Bytes, i: nat)
    requires t.chunkSize > 0
  {
    i < NumChunks(t) && forall k :: Start(t, i) <= k < End(t, i) ==> t.source[k] == ByteAt(kept, k)
  }

  /** When a session may start: the bytes it keeps have every listed range, in the sizes of this session. */
  ghost predicate MayBegin(t: Transfer, d: Disk, resume: bool)
    requires t.chunkSize > 0
  {
    forall i :: i in d.saved ==> KeepsChunk(t, Kept(d, resume), i)
  }

  lemma ResizedHolds(t: Transfer, part: Bytes, i: nat)
    requires t.chunkSize > 0 && i < NumChunks(t) && Holds(t, part, i)
    ensures Holds(t, Resize(part, |t.source|), i)
  {
    ChunkRange(t, i);
  }

  lemma KeptHolds(t: Transfer, kept: Bytes, i: nat)
    requires t.chunkSize > 0 && i < NumChunks(t)
    ensures Holds(t, Resize(kept, |t.source|), i) <==> KeepsChunk(t, kept, i)
  {
    ChunkRange(t, i);
    var file := Resize(kept, |t.source|);
    assert forall k :: 0 <= k < |file| ==> file[k] == ByteAt(kept, k);
  }

  /** A crash right after the start leaves a safe disk exactly when the session was allowed to start. */
  lemma BeginSafe(t: Transfer, d: Disk, resume: bool)
    requires t.chunkSize > 0
    ensures DiskSafe(t, Disk(Some(Opened(d, resume, |t.source|)), d.saved)) <==> MayBegin(t, d, resume)
  {
    hide KeepsChunk, Holds, NumChunks, Opened;
    forall i | i in d.saved && i < NumChunks(t)
      ensures Holds(t, Opened(d, resume, |t.source|), i) <==> KeepsChunk(t, Kept(d, resume), i)
    {
      OpenedKeeps(t, d, resume, i);
    }
    KeptInFile(t, d, resume);
  }

  lemma OpenedKeeps(t: Transfer, d: Disk, resume: bool, i: nat)
    requires t.chunkSize > 0 && i < NumChunks(t)
    ensures Holds(t, Opened(d, resume, |t.source|), i) <==> KeepsChunk(t, Kept(d, resume), i)
  {
    KeptHolds(t, Kept(d, resume), i);
  }

  lemma KeptInFile(t: Transfer, d: Disk, resume: bool)
    requires t.chunkSize > 0
    ensures forall i: nat :: KeepsChunk(t, Kept(d, resume), i) ==> i < NumChunks(t)
  {}

  /** The chunk sizes of two sessions go together: they are equal, or the earlier one had the file in one chunk. */
  predicate SizesAgree(t: Transfer, u: Transfer) { u.chunkSize == t.chunkSize || |t.source| <= t.chunkSize }

  lemma SizesSuffice(t: Transfer, u: Transfer, d: Disk)
    requires t.chunkSize > 0 && u.chunkSize > 0 && u.source == t.source && SizesAgree(t, u)
    requires d.part.Some? && DiskSafe(t, d)
    ensures MayBegin(u, d, true)
  {
    forall i | i in d.saved ensures KeepsChunk(u, d.part.value, i) {
      ChunkRange(t, i);
      ChunkRange(u, i);
      if u.chunkSize != t.chunkSize {
        OneRange(t, i);
        ChunkRange(u, 0);
      }
    }
  }

  /** A file that fits one chunk has no other. */
  lemma OneRange(t: Transfer, i: nat)
    requires t.chunkSize > 0 && |t.source| <= t.chunkSize && i < NumChunks(t)
    ensures i == 0 && Start(t, 0) == 0 && End(t, 0) == |t.source| > 0
  {
    ChunkRange(t, i);
    assert Start(t, 0) == 0 && Start(t, 1) == t.chunkSize;
    StartMonotone(t, Min(1, i), i);
  }

  ghost predicate ZeroChunk(t: Transfer, i: nat)
    requires t.chunkSize > 0
  {
    i < NumChunks(t) && forall k :: Start(t, i) <= k < End(t, i) ==> t.source[k] == 0
  }

  /** When the sizes agree, which starts are safe can be told from the files alone, unless the list names an
      all-zero chunk. */
  lemma BeginSafeTestable(t: Transfer, u: Transfer, d: Disk, resume: bool)
    requires t.chunkSize > 0 && u.chunkSize > 0 && u.source == t.source && SizesAgree(t, u)
    requires DiskSafe(t, d) && forall i :: i in d.saved ==> !ZeroChunk(u, i)
    ensures DiskSafe(u, Disk(Some(Opened(d, resume, |u.source|)), d.saved))
            <==> (resume && d.part.Some?) || d.saved == {}
  {
    BeginSafe(u, d, resume);
    hide SizesAgree, DiskSafe;
    if resume && d.part.Some? {
      SizesSuffice(t, u, d);
    } else if d.saved != {} {
      var i :| i in d.saved;
      assert !ZeroChunk(u, i);
      assert !KeepsChunk(u, [], i);
    }
  }

  /** The file during a crash: some writes of source bytes may be under way. */
  ghost predicate CrashStep(t: Transfer, s: State, d: Disk) {
    && d.part.Some? && OnlySource(t, s.recv.file, d.part.value)
    && (d.saved == s.saved || d.saved == {})
  }

  /** A file of full length with a byte of the source or the zero it started with at every place. */
  ghost predicate Clean(t: Transfer, file: Bytes) {
    |file| == |t.source| && forall k :: 0 <= k < |file| ==> file[k] == t.source[k] || file[k] == 0
  }

  /** A crash that loses the write of chunk `i`: the file is not flushed before the list is written. */
  ghost predicate LostWrite(t: Transfer, s: State, i: nat, d: Disk) {
    && i in s.recv.received && d.part.Some? && d.saved == s.saved && SameOutside(t, s.recv.file, d.part.value, i)
    && Clean(t, d.part.value)
  }

  /** Losing the write of a chunk leaves a safe disk if and only if the chunk is not listed yet. */
  lemma LostWriteSafe(t: Transfer, s: State, i: nat, d: Disk)
    requires t.chunkSize > 0 && SavedHeld(t, s.recv.file, s.saved) && LostWrite(t, s, i, d)
    requires !Holds(t, d.part.value, i)
    ensures DiskSafe(t, d) <==> i !in s.saved
  {
    if i !in s.saved { LostWriteKeeps(t, s, i, d); }
  }

  lemma LostWriteKeeps(t: Transfer, s: State, i: nat, d: Disk)
    requires t.chunkSize > 0 && SavedHeld(t, s.recv.file, s.saved) && LostWrite(t, s, i, d) && i !in s.saved
    ensures DiskSafe(t, d) && Clean(t, d.part.value)
  {
    forall j | j in s.saved ensures j < NumChunks(t) && Holds(t, d.part.value, j) {
      if j < i { StartMonotone(t, j, i); } else { StartMonotone(t, i, j); }
    }
  }

  /** A chunk just received is listed at once exactly when the count calls for a save. */
  lemma ListedAtOnce(k: Settings, s: State, wire: Bytes, i: nat)
    requires Accepts(k.config) && Handle(k, s, wire).1.Ok? && i !in s.saved
    requires i in Handle(k, s, wire).0.recv.received
    ensures var s1 := Handle(k, s, wire).0; i in s1.saved <==> SaveDue(k, s1.recv.received)
  {
    hide Ingest;
  }

  /** The comparison of the whole file with the checksum of the manifest. */
  predicate Passes(t: Transfer, k: Settings, file: Bytes) {
    k.config.verify ==> t.codecs.hash(file) == t.codecs.hash(t.source)
  }

  /** The end of a filled session. If the file passes, it is renamed, then the resume file is removed, and a crash
      may fall between the two; if it does not, the session fails and both files stay. */
  ghost predicate FinishStep(t: Transfer, k: Settings, s: State, d: Disk)
    requires t.chunkSize > 0
  {
    && |s.recv.received| >= NumChunks(t)
    && if Passes(t, k, s.recv.file) then d.part == None && (d.saved == s.saved || d.saved == {})
       else d == Disk(Some(s.recv.file), s.saved)
  }

  ghost predicate EventStep(t: Transfer, k: Settings, s: State, s': State, e: Event)
    requires Valid(t) && Accepts(k.config)
  {
    EventSent(t, e) && Enabled(k, s.accepted, |s.inflight|, e) && Step(k, s, e) == (s', Ok(()))
  }

  /** A session that fails leaves both files as they are. */
  ghost predicate FailStep(t: Transfer, k: Settings, s: State, d: Disk)
    requires Valid(t) && Accepts(k.config)
  {
    && d == Disk(Some(s.recv.file), s.saved)
    && exists e :: EventSent(t, e) && Enabled(k, s.accepted, |s.inflight|, e) && Step(k, s, e).1.Err?
  }

  /** The steps of a session that is up, except for the loss of a write. */
  ghost predicate UpNext(t: Transfer, k: Settings, s: State, resume: bool, h': Host)
    requires Valid(t)
  {
    && h'.t == t
    && (|| (h'.Down? && (CrashStep(t, s, h'.disk) || FinishStep(t, With(k, t, resume), s, h'.disk)
                         || FailStep(t, With(k, t, resume), s, h'.disk)))
        || (h'.Up? && h'.resume == resume && exists e :: EventStep(t, With(k, t, resume), s, h'.s, e)))
  }

  /** A step in which a start keeps the listed ranges and a lost write was not listed. */
  ghost predicate HostNext(o: Original, k: Settings, h: Host, h': Host)
    requires PlanOf(o, h.t)
  {
    match h
    case Down(d, _) => h'.Up? && PlanOf(o, h'.t) && MayBegin(h'.t, d, h'.resume) && h' == Begin(h'.t, d, h'.resume)
    case Up(t, s, resume) =>
      || UpNext(t, k, s, resume, h')
      || (h'.Down? && h'.t == t && exists i :: LostWrite(t, s, i, h'.disk) && i !in s.saved)
  }

  /** What the code allows: any start, and the loss of any write. */
  ghost predicate AnyNext(o: Original, k: Settings, h: Host, h': Host)
    requires PlanOf(o, h.t)
  {
    match h
    case Down(d, _) => h'.Up? && PlanOf(o, h'.t) && h' == Begin(h'.t, d, h'.resume)
    case Up(t, s, resume) =>
      || UpNext(t, k, s, resume, h')
      || (h'.Down? && h'.t == t && exists i :: LostWrite(t, s, i, h'.disk))
  }

  ghost predicate IsHistory(o: Original, k: Settings, hs: seq<Host>) {
    && hs != [] && hs[0].Down? && hs[0].disk == Disk(None, {})
    && (forall i :: 0 <= i < |hs| ==> PlanOf(o, hs[i].t))
    && forall i :: 0 <= i < |hs| - 1 ==> HostNext(o, k, hs[i], hs[i + 1])
  }

  ghost predicate HostInv(h: Host)
    requires Valid(h.t)
  {
    match h
    case Down(d, t) => DiskSafe(t, d) && (d.part.Some? ==> Clean(t, d.part.value))
    case Up(t, s, _) =>
      && (exists delivered, streams :: SessionInv(t, s, delivered, streams))
      && SavedHeld(t, s.recv.file, s.saved) && Clean(t, s.recv.file)
  }

  lemma OpenedClean(t: Transfer, d: Disk, resume: bool)
    requires d.part.Some? ==> Clean(t, d.part.value)
    ensures Clean(t, Opened(d, resume, |t.source|))
  {}

  lemma BeginKeepsInv(t: Transfer, d: Disk, resume: bool)
    requires Valid(t) && MayBegin(t, d, resume) && (d.part.Some? ==> Clean(t, d.part.value))
    ensures HostInv(Begin(t, d, resume))
  {
    hide MayBegin, Opened, Lawful, Clean;
    BeginSafe(t, d, resume);
    OpenedClean(t, d, resume);
    var file := Opened(d, resume, |t.source|);
    assert SavedHeld(t, file, d.saved);
    StartInv(t, file, Loaded(d, resume), d.saved);
  }

  lemma SavedKept(t: Transfer, before: Bytes, after: Bytes, saved: set<nat>)
    requires t.chunkSize > 0 && SavedHeld(t, before, saved) && OnlySource(t, before, after)
    ensures SavedHeld(t, after, saved)
  {
    forall i | i in saved ensures i < NumChunks(t) && Holds(t, after, i) { OnlySourceHolds(t, before, after, i); }
  }

  lemma SessionHolds(t: Transfer, s: State, delivered: set<Key>, streams: seq<Bytes>)
    requires Valid(t) && SessionInv(t, s, delivered, streams)
    ensures SavedHeld(t, s.recv.file, s.recv.received) && Safe(t, s.recv.file, s.recv.received)
  {}

  lemma EventKeepsInv(t: Transfer, k: Settings, s: State, s': State, e: Event, delivered: set<Key>, streams: seq<Bytes>)
    requires Valid(t) && For(t, k) && Accepts(k.config) && SessionInv(t, s, delivered, streams)
             && SavedHeld(t, s.recv.file, s.saved)
    requires EventStep(t, k, s, s', e)
    ensures exists d, w :: SessionInv(t, s', d, w)
    ensures SavedHeld(t, s'.recv.file, s'.saved) && OnlySource(t, s.recv.file, s'.recv.file)
  {
    StepFails(t, k, s, delivered, streams, e);
    hide SessionInv, Step, Enabled, EventSent, SavedHeld, OnlySource, TooLong;
    var d, w := StepKeepsInv(t, k, s, delivered, streams, e);
    SavedKept(t, s.recv.file, s'.recv.file, s.saved);
    SessionHolds(t, s', d, w);
  }

  lemma StaysClean(t: Transfer, before: Bytes, after: Bytes)
    requires Clean(t, before) && OnlySource(t, before, after)
    ensures Clean(t, after)
  {}

  lemma WithFor(t: Transfer, k: Settings, resume: bool)
    requires Valid(t)
    ensures For(t, With(k, t, resume)) && Accepts(With(k, t, resume).config)
  {}

  lemma UpKeepsInv(t: Transfer, k: Settings, s: State, resume: bool, h': Host)
    requires Valid(t) && HostInv(Up(t, s, resume)) && UpNext(t, k, s, resume, h')
    ensures HostInv(h')
  {
    hide SessionInv, EventStep, DiskSafe, SavedHeld, With, Lawful, CrashStep, FinishStep, Clean, OnlySource;
    WithFor(t, k, resume);
    var delivered, streams :| SessionInv(t, s, delivered, streams);
    if h'.Up? {
      var e :| EventStep(t, With(k, t, resume), s, h'.s, e);
      EventKeepsInv(t, With(k, t, resume), s, h'.s, e, delivered, streams);
      StaysClean(t, s.recv.file, h'.s.recv.file);
    } else if CrashStep(t, s, h'.disk) {
      CrashKeepsInv(t, s, h'.disk);
    } else if FinishStep(t, With(k, t, resume), s, h'.disk) {
      FinishKeepsInv(t, With(k, t, resume), s, h'.disk);
    } else {
      FailKeepsInv(t, s, h'.disk);
    }
  }

  lemma HostNextKeepsInv(o: Original, k: Settings, h: Host, h': Host)
    requires PlanOf(o, h.t) && HostInv(h) && HostNext(o, k, h, h')
    ensures PlanOf(o, h'.t) && HostInv(h')
  {
    hide SessionInv, DiskSafe, MayBegin, Begin, UpNext, LostWrite, SavedHeld, Lawful, Clean;
    match h {
      case Down(d, t) =>
        if d.part.Some? { SameClean(t, h'.t, d.part.value); }
        BeginKeepsInv(h'.t, d, h'.resume);
      case Up(t, s, resume) =>
        if UpNext(t, k, s, resume, h') {
          UpKeepsInv(t, k, s, resume, h');
          UpSame(t, k, s, resume, h');
        } else {
          var i :| LostWrite(t, s, i, h'.disk) && i !in s.saved;
          LostWriteKeeps(t, s, i, h'.disk);
        }
    }
  }

  lemma SameClean(t: Transfer, u: Transfer, file: Bytes)
    requires t.source == u.source && Clean(t, file)
    ensures Clean(u, file)
  {}

  lemma UpSame(t: Transfer, k: Settings, s: State, resume: bool, h': Host)
    requires Valid(t) && UpNext(t, k, s, resume, h')
    ensures h'.t == t
  {}

  lemma CrashKeepsInv(t: Transfer, s: State, d: Disk)
    requires t.chunkSize > 0 && SavedHeld(t, s.recv.file, s.saved) && CrashStep(t, s, d) && Clean(t, s.recv.file)
    ensures DiskSafe(t, d) && (d.part.Some? ==> Clean(t, d.part.value))
  {
    StaysClean(t, s.recv.file, d.part.value);
    SavedKept(t, s.recv.file, d.part.value, s.saved);
  }

  lemma FailKeepsInv(t: Transfer, s: State, d: Disk)
    requires t.chunkSize > 0 && SavedHeld(t, s.recv.file, s.saved) && d == Disk(Some(s.recv.file), s.saved)
    ensures DiskSafe(t, d)
  {}

  lemma FinishKeepsInv(t: Transfer, k: Settings, s: State, d: Disk)
    requires t.chunkSize > 0 && SavedHeld(t, s.recv.file, s.saved) && FinishStep(t, k, s, d) && Clean(t, s.recv.file)
    ensures DiskSafe(t, d) && (d.part.Some? ==> Clean(t, d.part.value))
  {}

  lemma {:induction false} HistoryInv(o: Original, k: Settings, hs: seq<Host>, i: nat)
    requires IsHistory(o, k, hs) && i < |hs|
    ensures PlanOf(o, hs[i].t) && HostInv(hs[i])
    decreases i
  {
    hide HostNext, PlanOf;
    if i > 0 {
      HistoryInv(o, k, hs, i - 1);
      assert HostNext(o, k, hs[i - 1], hs[i - 1 + 1]);
      HostNextKeepsInv(o, k, hs[i - 1], hs[i]);
    } else {
      EmptyDisk(o, hs[0].t);
    }
  }

  lemma EmptyDisk(o: Original, t: Transfer)
    requires PlanOf(o, t)
    ensures HostInv(Down(Disk(None, {}), t))
  {}

  /** Over any number of crashes and restarts, each with its own chunk size, the resume file only lists chunks in
      place, and the file that a filled session renames is the source. A session fails only on a stream that
      is too long. */
  lemma ResumeSafety(o: Original, k: Settings, hs: seq<Host>, i: nat)
    requires IsHistory(o, k, hs) && i < |hs|
    ensures PlanOf(o, hs[i].t)
    ensures hs[i].Down? ==> DiskSafe(hs[i].t, hs[i].disk)
    ensures hs[i].Up? ==> var (t, s, k') := (hs[i].t, hs[i].s, With(k, hs[i].t, hs[i].resume));
              && SavedHeld(t, s.recv.file, s.saved) && Safe(t, s.recv.file, s.recv.received)
              && (|s.recv.received| >= NumChunks(t) ==> s.recv.file == o.source)
              && (forall e :: EventSent(t, e) && Enabled(k', s.accepted, |s.inflight|, e) ==>
                    (Step(k', s, e).1.Err? <==> TooLong(s, e)))
  {
    HistoryInv(o, k, hs, i);
    if hs[i].Up? {
      var t, s, k' := hs[i].t, hs[i].s, With(k, hs[i].t, hs[i].resume);
      WithFor(t, k, hs[i].resume);
      hide SessionInv, HostNext, Step, Enabled, EventSent, TooLong, SavedHeld, Safe, Lawful, With, IsHistory;
      var delivered, streams :| SessionInv(t, s, delivered, streams);
      SessionHolds(t, s, delivered, streams);
      if |s.recv.received| >= NumChunks(t) { AllReceived(t, s.recv.file, s.recv.received); }
      forall e | EventSent(t, e) && Enabled(k', s.accepted, |s.inflight|, e)
        ensures Step(k', s, e).1.Err? <==> TooLong(s, e)
      {
        StepFails(t, k', s, delivered, streams, e);
      }
    }
  }

  /** The hash of chunk `i` of the part file, or zeros when it has no byte of that chunk. */
  function ExistingHash(c: Codecs, m: Manifest, part: Bytes, i: nat): Bytes {
    var off := Mul(i, m.chunkSize);
    var end := Min(Min(off + m.chunkSize, |part|), m.totalSize);
    if end <= off then NO_HASH else c.hash(part[off..end])
  }

  method HashExistingChunks(c: Codecs, m: Manifest, part: Bytes) returns (hashes: seq<Bytes>)
    ensures |hashes| == m.numChunks
    ensures forall i :: 0 <= i < m.numChunks ==> hashes[i] == ExistingHash(c, m, part, i)
  {
    hashes := seq(m.numChunks, _ => NO_HASH);
    for i := 0 to m.numChunks
      invariant |hashes| == m.numChunks
      invariant forall j :: 0 <= j < i ==> hashes[j] == ExistingHash(c, m, part, j)
      invariant forall j :: i <= j < m.numChunks ==> hashes[j] == NO_HASH
    {
      var off := Mul(i, m.chunkSize);
      var end := Min(Min(off + m.chunkSize, |part|), m.totalSize);
      if end > off { hashes := hashes[i := c.hash(part[off..end])]; }
    }
  }

  /** The sender's comparison of its chunk `i` with the hash it was told. */
  predicate HashMatches(t: Transfer, hashes: seq<Bytes>, i: nat) {
    i < |hashes| && hashes[i] != NO_HASH && ChunkBytes(t, i) != [] && t.codecs.hash(ChunkBytes(t, i)) == hashes[i]
  }

  /** The chunks the sender leaves out: those acknowledged and those whose hashes match. */
  method ComputeSkip(t: Transfer, acked: set<nat>, hashes: seq<Bytes>) returns (skip: set<nat>)
    requires t.chunkSize > 0
    ensures forall i :: i in skip <==> i in acked || (0 <= i < NumChunks(t) && HashMatches(t, hashes, i))
  {
    skip := acked;
    if hashes == [] { return; }
    for i := 0 to NumChunks(t)
      invariant forall j :: j in skip <==> j in acked || (0 <= j < i && HashMatches(t, hashes, j))
    {
      if i !in skip && HashMatches(t, hashes, i) { skip := skip + {i}; }
    }
  }

  /** BLAKE3 tells the chunks of the part file from those of the source. */
  ghost predicate NoCollision(t: Transfer, part: Bytes)
    requires t.chunkSize > 0
  {
    forall i :: 0 <= i < NumChunks(t) ==>
      var off, end := Start(t, i), Min(Min(Start(t, i) + t.chunkSize, |part|), |t.source|);
      off < end && t.codecs.hash(part[off..end]) == t.codecs.hash(ChunkBytes(t, i)) ==> part[off..end] == ChunkBytes(t, i)
  }

  lemma HashedSlice(t: Transfer, part: Bytes, i: nat)
    requires Valid(t) && ExistingHash(t.codecs, ManifestOf(t), part, i) != NO_HASH
    ensures var off, end := Start(t, i), Min(Min(Start(t, i) + t.chunkSize, |part|), |t.source|);
            off < end && ExistingHash(t.codecs, ManifestOf(t), part, i) == t.codecs.hash(part[off..end])
  {
    hide Lawful, Mul, NumChunks;
  }

  lemma MatchHolds(t: Transfer, part: Bytes, i: nat)
    requires Valid(t) && NoCollision(t, part) && i < NumChunks(t)
    requires var h := ExistingHash(t.codecs, ManifestOf(t), part, i);
             h != NO_HASH && t.codecs.hash(ChunkBytes(t, i)) == h
    ensures Holds(t, part, i)
  {
    hide Lawful, Holds, Mul, NumChunks, ChunkBytes, End, ExistingHash, ManifestOf, Start;
    ChunkRange(t, i);
    HashedSlice(t, part, i);
    SliceHolds(t, part, i, Min(Min(Start(t, i) + t.chunkSize, |part|), |t.source|));
  }

  lemma SliceHolds(t: Transfer, part: Bytes, i: nat, end: nat)
    requires Start(t, i) <= end <= |part| && Start(t, i) <= End(t, i) <= |t.source|
    requires part[Start(t, i)..end] == t.source[Start(t, i)..End(t, i)]
    ensures Holds(t, part, i)
  {
    var off := Start(t, i);
    assert |part[off..end]| == end - off && |t.source[off..End(t, i)]| == End(t, i) - off;
    forall k | off <= k < End(t, i) ensures part[k] == t.source[k] {
      assert part[off..end][k - off] == t.source[off..End(t, i)][k - off];
    }
  }

  /** Every chunk the sender skips on resume is in the part file that the session opens. */
  lemma SkipSafe(t: Transfer, part: Bytes, saved: set<nat>, hashes: seq<Bytes>, skip: set<nat>)
    requires Valid(t) && DiskSafe(t, Disk(Some(part), saved)) && NoCollision(t, part)
    requires |hashes| == NumChunks(t)
    requires forall i :: 0 <= i < NumChunks(t) ==> hashes[i] == ExistingHash(t.codecs, ManifestOf(t), part, i)
    requires forall i :: i in skip <==> i in saved || (0 <= i < NumChunks(t) && HashMatches(t, hashes, i))
    ensures forall i :: i in skip ==> i < NumChunks(t) && Holds(t, Opened(Disk(Some(part), saved), true, |t.source|), i)
  {
    forall i | i in skip ensures i < NumChunks(t) && Holds(t, Resize(part, |t.source|), i) {
      if i !in saved { MatchHolds(t, part, i); }
      ResizedHolds(t, part, i);
    }
  }
}
