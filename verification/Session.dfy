/** One receiving session: the accept loop around the data path, its feedback and its resume file. */
module Session {
  import opened Bytes
  import opened Arith
  import opened Wire
  import opened ReedSolomon
  import opened Receiver

  const EXTRA_STREAM_HEADROOM: nat := 256
  const NACK_LIMIT: nat := 64

  /** A stream that is longer than this cannot be read. */
  const MAX_STREAM_BYTES: nat := 32 * 1024 * 1024

  /** What the receiver reports about the group of the frame it has just handled. */
  datatype Feedback = Feedback(group: nat, reconstructable: bool, missing: seq<nat>)

  datatype Settings = Settings(config: Config, resume: bool, feedbackEvery: nat, maxParallel: nat)

  /** `saved` is the content of the resume file, `inflight` the accepted streams not yet read. */
  datatype State = State(recv: Recv, saved: set<nat>, feedback: seq<Feedback>, accepted: nat, inflight: seq<Bytes>)

  /** What the session may see next: a new stream, the end of stream `i` in flight, a datagram. */
  datatype Event = Stream(wire: Bytes) | Joined(i: nat) | Datagram(wire: Bytes)

  datatype Outcome = Waiting | Filled | Incomplete | Failed

  /** The first `limit` indices from `i` on that are not received. */
  function MissingIndices(n: nat, received: set<nat>, i: nat, limit: nat): (r: seq<nat>)
    requires i <= n
    ensures |r| <= limit && forall j :: 0 <= j < |r| ==> i <= r[j] < n && r[j] !in received
    decreases n - i
  {
    if i == n || limit == 0 then []
    else if i in received then MissingIndices(n, received, i + 1, limit)
    else [i] + MissingIndices(n, received, i + 1, limit - 1)
  }

  /** `r` names, in order, the first `limit` of the numbers from `i` to `n` that are missing, or all of them. */
  ghost predicate FirstMissing(n: nat, received: set<nat>, i: nat, limit: nat, r: seq<nat>) {
    && |r| <= limit
    && (forall j, k :: 0 <= j < k < |r| ==> r[j] < r[k])
    && (forall j :: 0 <= j < |r| ==> i <= r[j] < n && r[j] !in received)
    && forall x: nat :: i <= x < n && x !in received ==>
         x in r || (|r| == limit && forall j :: 0 <= j < |r| ==> r[j] < x)
  }

  lemma MissingOneMore(n: nat, received: set<nat>, i: nat, limit: nat, rest: seq<nat>)
    requires i < n && limit > 0 && i !in received && FirstMissing(n, received, i + 1, limit - 1, rest)
    ensures FirstMissing(n, received, i, limit, [i] + rest)
  {
    var r := [i] + rest;
    forall x: nat | i <= x < n && x !in received
      ensures x in r || (|r| == limit && forall j :: 0 <= j < |r| ==> r[j] < x)
    {
      if x == i { assert r[0] == x; } else if x in rest { assert x in r; }
    }
  }

  lemma MissingSkips(n: nat, received: set<nat>, i: nat, limit: nat, r: seq<nat>)
    requires i < n && i in received && FirstMissing(n, received, i + 1, limit, r)
    ensures FirstMissing(n, received, i, limit, r)
  {}

  lemma {:induction false} MissingExact(n: nat, received: set<nat>, i: nat, limit: nat)
    requires i <= n
    ensures FirstMissing(n, received, i, limit, MissingIndices(n, received, i, limit))
    decreases n - i
  {
    if i < n && limit > 0 {
      if i in received {
        MissingExact(n, received, i + 1, limit);
        MissingSkips(n, received, i, limit, MissingIndices(n, received, i + 1, limit));
      } else {
        MissingExact(n, received, i + 1, limit - 1);
        MissingOneMore(n, received, i, limit, MissingIndices(n, received, i + 1, limit - 1));
      }
      hide FirstMissing;
    }
  }

  function FeedbackFor(m: Manifest, s: Recv, g: nat): (fb: Feedback)
    ensures fb.group == g
    ensures fb.reconstructable <==> g in s.groups && RecoveryReady(m, s.groups[g])
  {
    Feedback(g, g in s.groups && RecoveryReady(m, s.groups[g]), MissingIndices(m.numChunks, s.received, 0, NACK_LIMIT))
  }

  predicate ReportDue(every: nat, received: set<nat>) {
    received != {} && |received| % Max(every, 1) == 0
  }

  predicate SaveDue(k: Settings, received: set<nat>) {
    k.resume && (|received| == k.config.manifest.numChunks || |received| <= 32 || |received| % 32 == 0)
  }

  /** The feedback log and the resume file after a frame of group `g` left the data path in state `r`. */
  function Reported(k: Settings, feedback: seq<Feedback>, r: Recv, g: nat): seq<Feedback> {
    if ReportDue(k.feedbackEvery, r.received) then feedback + [FeedbackFor(k.config.manifest, r, g)] else feedback
  }

  function Saved(k: Settings, saved: set<nat>, r: Recv): set<nat> {
    if SaveDue(k, r.received) then r.received else saved
  }

  /** One frame through the session. */
  function Handle(k: Settings, s: State, wire: Bytes): (State, Result<()>)
    requires Accepts(k.config)
  {
    match Ingest(k.config, s.recv, wire)
    case (r, Err) => (s.(recv := r), Err)
    case (r, Ok(g)) => (s.(recv := r, feedback := Reported(k, s.feedback, r, g), saved := Saved(k, s.saved, r)), Ok(()))
  }

  /** The number is a positive multiple of `n`. */
  ghost predicate Multiple(n: nat, x: nat) { exists q: nat :: q > 0 && x == Mul(q, n) }

  lemma MultipleIs(n: nat, x: nat)
    requires n > 0
    ensures Multiple(n, x) <==> x > 0 && x % n == 0
  {
    hide Mul;
    var d := x / n;
    QuotientAndRest(x, n);
    MulAtLeast(d, n);
    if Multiple(n, x) {
      var q: nat :| q > 0 && x == Mul(q, n);
      MulAtLeast(q, n);
      if q < d { MulStep(q, d, n); }
      if d < q { MulStep(d, q, n); }
    }
  }

  /** When a handled frame is reported and what the report says: at every multiple of the interval, the group of the
      frame and the first 64 missing chunks. */
  lemma ReportAppended(k: Settings, s: State, wire: Bytes)
    requires Accepts(k.config) && Handle(k, s, wire).1.Ok?
    ensures var s1 := Handle(k, s, wire).0;
            if Multiple(Max(k.feedbackEvery, 1), |s1.recv.received|) then
              && |s1.feedback| == |s.feedback| + 1 && s1.feedback[..|s.feedback|] == s.feedback
              && FirstMissing(k.config.manifest.numChunks, s1.recv.received, 0, 64, s1.feedback[|s.feedback|].missing)
            else s1.feedback == s.feedback
  {
    var s1 := Handle(k, s, wire).0;
    hide Ingest, FirstMissing, Multiple;
    MissingExact(k.config.manifest.numChunks, s1.recv.received, 0, 64);
    MultipleIs(Max(k.feedbackEvery, 1), |s1.recv.received|);
  }

  /** When the resume file is written: with the last chunk, at every count up to 32, and at every multiple of 32. */
  lemma SavedExactly(k: Settings, s: State, wire: Bytes)
    requires Accepts(k.config) && Handle(k, s, wire).1.Ok?
    ensures var s1 := Handle(k, s, wire).0; var n := |s1.recv.received|;
            s1.saved == if k.resume && (n <= 32 || Multiple(32, n) || n == k.config.manifest.numChunks)
                        then s1.recv.received else s.saved
  {
    hide Ingest, Multiple;
    MultipleIs(32, |Handle(k, s, wire).0.recv.received|);
  }

  /** The list lags behind by less than 32 chunks, counted from the last multiple of 32. */
  ghost predicate ListedClosely(s: State) {
    s.saved <= s.recv.received && |s.recv.received| - |s.saved| <= |s.recv.received| % 32
  }

  /** As long as frames bring one chunk at a time, a crash costs less than 32 chunks. */
  lemma SavedOften(k: Settings, s: State, wire: Bytes)
    requires Accepts(k.config) && Handle(k, s, wire).1.Ok? && k.resume && ListedClosely(s)
    requires var r := Handle(k, s, wire).0.recv.received; s.recv.received <= r && |r| <= |s.recv.received| + 1
    ensures ListedClosely(Handle(k, s, wire).0)
  {
    hide Ingest;
  }

  function MaxStreams(m: Manifest): nat {
    var groups := Div(m.numChunks + Max(m.dataShards, 1) - 1, Max(m.dataShards, 1));
    SatAdd(SatAdd(m.numChunks, SatMul(groups, m.parityShards)), EXTRA_STREAM_HEADROOM)
  }

  predicate Enabled(k: Settings, accepted: nat, inflight: nat, e: Event) {
    match e
    case Stream(_) => inflight < Max(k.maxParallel, 1) && accepted < MaxStreams(k.config.manifest)
    case Joined(i) => i < inflight
    case Datagram(_) => true
  }

  /** A session never reads more streams at a time than it may, nor accepts more than the limit. */
  ghost predicate WithinLimits(k: Settings, s: State) {
    |s.inflight| <= Max(k.maxParallel, 1) && s.accepted <= MaxStreams(k.config.manifest)
  }

  function Step(k: Settings, s: State, e: Event): (State, Result<()>)
    requires Accepts(k.config) && Enabled(k, s.accepted, |s.inflight|, e)
  {
    match e
    case Stream(wire) => (s.(accepted := s.accepted + 1, inflight := s.inflight + [wire]), Ok(()))
    case Joined(i) =>
      var rest := s.(inflight := s.inflight[..i] + s.inflight[i + 1..]);
      if |s.inflight[i]| > MAX_STREAM_BYTES then (rest, Err) else Handle(k, rest, s.inflight[i])
    case Datagram(wire) => Handle(k, s, wire)
  }

  /** The accept loop on the events still to come; an event that is not enabled does not occur. */
  function Accept(k: Settings, s: State, events: seq<Event>): (State, Outcome)
    requires Accepts(k.config)
    decreases |events|
  {
    if |s.recv.received| >= k.config.manifest.numChunks then (s, Filled)
    else if s.accepted >= MaxStreams(k.config.manifest) && s.inflight == [] then (s, Incomplete)
    else if events == [] then (s, Waiting)
    else if !Enabled(k, s.accepted, |s.inflight|, events[0]) then Accept(k, s, events[1..])
    else
      match Step(k, s, events[0])
      case (s1, Err) => (s1, Failed)
      case (s1, Ok(_)) => Accept(k, s1, events[1..])
  }

  lemma {:induction false} ParallelBounded(k: Settings, s: State, events: seq<Event>)
    requires Accepts(k.config) && WithinLimits(k, s)
    ensures WithinLimits(k, Accept(k, s, events).0)
    decreases |events|
  {
    hide Ingest, MaxStreams, ReportDue, SaveDue;
    if events != [] && |s.recv.received| < k.config.manifest.numChunks {
      if Enabled(k, s.accepted, |s.inflight|, events[0]) && Step(k, s, events[0]).1.Ok? {
        ParallelBounded(k, Step(k, s, events[0]).0, events[1..]);
      } else {
        ParallelBounded(k, s, events[1..]);
      }
    }
  }

  /** While chunks are missing, a new stream is taken exactly when fewer than the permitted number are being read and
      the limit on streams is not reached. */
  lemma StreamTaken(k: Settings, s: State, wire: Bytes)
    requires Accepts(k.config) && WithinLimits(k, s) && |s.recv.received| < k.config.manifest.numChunks
    ensures Accept(k, s, [Stream(wire)]).0
         == if |s.inflight| == Max(k.maxParallel, 1) || s.accepted == MaxStreams(k.config.manifest) then s
            else s.(accepted := s.accepted + 1, inflight := s.inflight + [wire])
  {
    hide MaxStreams, Ingest;
    assert [Stream(wire)][1..] == [];
  }

  method MaxShardLen(group: Group) returns (len: nat)
    ensures len == MaxPresentLen(group)
  {
    len := 0;
    var i := 0;
    assert group[0..] == group;
    while i < |group|
      invariant i <= |group|
      invariant Max(len, MaxPresentLen(group[i..])) == MaxPresentLen(group)
    {
      assert group[i..][1..] == group[i + 1..];
      if group[i].Some? { len := Max(len, |group[i].value|); }
      i := i + 1;
    }
  }

  /** The mutable state of an accepted transfer. */
  class FileReceiver {
    const k: Settings
    var file: Bytes
    var received: set<nat>
    var groups: map<nat, Group>
    var saved: set<nat>
    var feedback: seq<Feedback>
    var accepted: nat
    var inflight: seq<Bytes>

    ghost function Data(): Recv
      reads this
    {
      Recv(file, received, groups)
    }

    ghost function View(): State
      reads this
    {
      State(Data(), saved, feedback, accepted, inflight)
    }

    /** Opens the part file, as left by an earlier session or empty, at the length of the manifest. */
    constructor (k: Settings, part: Bytes, received: set<nat>, saved: set<nat>)
      ensures this.k == k
      ensures View() == State(Recv(Resize(part, k.config.manifest.totalSize), received, map[]), saved, [], 0, [])
    {
      this.k := k;
      this.file := Resize(part, k.config.manifest.totalSize);
      this.received := received;
      this.groups := map[];
      this.saved := saved;
      this.feedback := [];
      this.accepted := 0;
      this.inflight := [];
    }

    method PersistFramedChunk(wire: Bytes) returns (r: Result<()>)
      modifies this`file, this`received
      ensures (Data(), r) == Persist(k.config, old(Data()), wire)
    {
      var header := ParseHeader(k.config.codecs, wire);
      if header.Err? { return Err; }
      var d, len := header.value.0, header.value.1;
      if d.isParity { return Ok(()); }
      if 4 + len + d.compressedSize > |wire| { return Err; }
      var payload := wire[4 + len..4 + len + d.compressedSize];
      if k.config.verify && k.config.codecs.hash(payload) != d.checksum { return Err; }
      if d.index in received { return Ok(()); }
      var chunk := Unpack(k.config.codecs, payload, d.wasCompressed, k.config.manifest.compression);
      if chunk.None? { return Err; }
      file := WriteAt(file, d.offset, chunk.value);
      received := received + {d.index};
      return Ok(());
    }

    /** Persists the usable rows among the missing slots. */
    method PersistRecovered(g: nat, rows: seq<Bytes>, missing: seq<nat>) returns (r: Result<bool>)
      requires forall i :: 0 <= i < |missing| ==> missing[i] < |rows|
      modifies this`file, this`received
      ensures (Data(), r) == RecoverSlots(k.config, old(Data()), g, rows, missing)
    {
      var any := false;
      var i := 0;
      assert missing[0..] == missing;
      while i < |missing|
        invariant i <= |missing| && groups == old(groups)
        invariant var rest := RecoverSlots(k.config, Data(), g, rows, missing[i..]);
                  RecoverSlots(k.config, old(Data()), g, rows, missing)
                  == (rest.0, if rest.1.Err? then Err else Ok(any || rest.1.value))
      {
        assert missing[i..][1..] == missing[i + 1..];
        var header := ParseHeader(k.config.codecs, rows[missing[i]]);
        if header.Ok? && header.value.0.index == ChunkIndex(k.config.manifest, g, missing[i]) {
          var persisted := PersistFramedChunk(rows[missing[i]]);
          if persisted.Err? { return Err; }
          any := true;
        }
        i := i + 1;
      }
      return Ok(any);
    }

    method TryFecGroupRecover(g: nat) returns (r: Result<()>)
      requires FecOn(k.config.manifest) && Accepts(k.config)
      modifies this`file, this`received, this`groups
      ensures (Data(), r) == TryRecover(k.config, old(Data()), g)
    {
      if g !in groups { return Ok(()); }
      var group, m := groups[g], k.config.manifest;
      var missing := Missing(m, group, g, received);
      if missing == [] || !RecoveryReady(m, group) { return Ok(()); }
      var len := MaxShardLen(group);
      if len == 0 { return Ok(()); }
      var rows := ReconstructData(k.config.codecs.field, m.dataShards, PadPresent(group, len));
      if rows.None? { return Ok(()); }
      var any := PersistRecovered(g, rows.value, missing);
      if any.Err? { return Err; }
      if any.value && Missing(m, group, g, received) == [] {
        groups := groups - {g};
      }
      return Ok(());
    }

    method StoreShardAndRecover(g: nat, slot: nat, shard: Bytes) returns (r: Result<nat>)
      requires FecOn(k.config.manifest) && Accepts(k.config)
      modifies this`file, this`received, this`groups
      ensures (Data(), r) == StoreAndRecover(k.config, old(Data()), g, slot, shard)
    {
      var m := k.config.manifest;
      if g !in groups {
        groups := groups[g := seq(m.dataShards + m.parityShards, _ => None)];
      }
      if slot < |groups[g]| {
        groups := groups[g := groups[g][slot := Some(shard)]];
      }
      assert groups == StoreShard(m, old(groups), g, slot, shard);
      var recovered := TryFecGroupRecover(g);
      return if recovered.Err? then Err else Ok(g);
    }

    method IngestWireFrame(wire: Bytes) returns (r: Result<nat>)
      requires Accepts(k.config)
      modifies this`file, this`received, this`groups
      ensures (Data(), r) == Ingest(k.config, old(Data()), wire)
    {
      hide Persist, StoreAndRecover, ParseHeader, MaxBody;
      var m := k.config.manifest;
      var header := ParseHeader(k.config.codecs, wire);
      if header.Err? { return Err; }
      var d, len := header.value.0, header.value.1;
      if d.compressedSize > MaxBody(m) || 4 + len + d.compressedSize > |wire| { return Err; }
      var payload := wire[4 + len..4 + len + d.compressedSize];
      if d.isParity {
        if !FecOn(m) { return Ok(d.fecGroup); }
        if k.config.verify && k.config.codecs.hash(payload) != d.checksum { return Err; }
        r := StoreShardAndRecover(d.fecGroup, SatAdd(d.parityIndex, m.dataShards), payload);
      } else {
        var persisted := PersistFramedChunk(wire);
        if persisted.Err? { return Err; }
        var slot := SatSub(d.index, SatMul(d.fecGroup, Max(m.dataShards, 1)));
        if !FecOn(m) || slot >= m.dataShards { return Ok(d.fecGroup); }
        r := StoreShardAndRecover(d.fecGroup, slot, wire);
      }
    }

    method HandleFrame(wire: Bytes) returns (r: Result<()>)
      requires Accepts(k.config)
      modifies this`file, this`received, this`groups, this`feedback, this`saved
      ensures (View(), r) == Handle(k, old(View()), wire)
    {
      hide Ingest;
      var ingested := IngestWireFrame(wire);
      if ingested.Err? { return Err; }
      if ReportDue(k.feedbackEvery, received) {
        var reconstructable := ingested.value in groups && RecoveryReady(k.config.manifest, groups[ingested.value]);
        var missing := MissingIndices(k.config.manifest.numChunks, received, 0, NACK_LIMIT);
        feedback := feedback + [Feedback(ingested.value, reconstructable, missing)];
      }
      if SaveDue(k, received) { saved := received; }
      return Ok(());
    }

    /** Accepts streams and datagrams until all indices are filled or the stream limit is reached. */
    method AcceptLoop(events: seq<Event>) returns (r: Outcome)
      requires Accepts(k.config)
      modifies this
      ensures (View(), r) == Accept(k, old(View()), events)
    {
      hide Ingest, Handle, Enabled, MaxStreams;
      var next := 0;
      assert events[0..] == events;
      while |received| < k.config.manifest.numChunks
        invariant next <= |events| && Accept(k, View(), events[next..]) == Accept(k, old(View()), events)
        decreases |events| - next
      {
        if accepted >= MaxStreams(k.config.manifest) && inflight == [] { return Incomplete; }
        if next == |events| { return Waiting; }
        var e := events[next];
        assert events[next..][0] == e && events[next..][1..] == events[next + 1..];
        next := next + 1;
        if Enabled(k, accepted, |inflight|, e) {
          var r1 := HandleEvent(e);
          if r1.Err? { return Failed; }
        }
      }
      return Filled;
    }

    method HandleEvent(e: Event) returns (r: Result<()>)
      requires Accepts(k.config) && Enabled(k, accepted, |inflight|, e)
      modifies this
      ensures (View(), r) == Step(k, old(View()), e)
    {
      hide Ingest, Handle;
      match e {
        case Stream(wire) =>
          accepted, inflight := accepted + 1, inflight + [wire];
          return Ok(());
        case Joined(i) =>
          var wire := inflight[i];
          inflight := inflight[..i] + inflight[i + 1..];
          if |wire| > MAX_STREAM_BYTES { return Err; }
          r := HandleFrame(wire);
        case Datagram(wire) =>
          r := HandleFrame(wire);
      }
    }
  }
}
