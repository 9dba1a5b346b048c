/** Whole sessions on the frames of one sender: safety, truthful feedback, the stream limit. */
module Runs {
  import opened Bytes
  import opened Arith
  import opened Wire
  import opened Source
  import opened Receiver
  import opened Safety
  import opened Delivery
  import opened Session

  /** `wire` is a frame that the sender of `t` may have emitted. */
  ghost predicate Sent(t: Transfer, wire: Bytes)
    requires Valid(t)
  {
    exists key :: IsKey(t, key) && wire == FrameOf(t, key)
  }

  ghost predicate AllSent(t: Transfer, wires: seq<Bytes>)
    requires Valid(t)
  {
    forall i :: 0 <= i < |wires| ==> Sent(t, wires[i])
  }

  ghost predicate EventSent(t: Transfer, e: Event)
    requires Valid(t)
  {
    !e.Joined? ==> Sent(t, e.wire)
  }

  ghost predicate EventsSent(t: Transfer, events: seq<Event>)
    requires Valid(t)
  {
    forall i :: 0 <= i < |events| ==> EventSent(t, events[i])
  }

  /** A report that a block is reconstructable means that its chunks are received. */
  ghost predicate Truthful(t: Transfer, received: set<nat>, fb: Feedback)
    requires t.chunkSize > 0
  {
    && (fb.reconstructable ==> Complete(t, received, fb.group))
    && (forall i :: 0 <= i < |fb.missing| ==> fb.missing[i] < NumChunks(t))
  }

  ghost predicate AllTruthful(t: Transfer, received: set<nat>, log: seq<Feedback>)
    requires t.chunkSize > 0
  {
    forall i :: 0 <= i < |log| ==> Truthful(t, received, log[i])
  }

  ghost predicate Carried(t: Transfer, delivered: set<Key>, wire: Bytes)
    requires Valid(t)
  {
    exists key :: key in delivered && IsKey(t, key) && wire == FrameOf(t, key)
  }

  /** The stream was read and handled, or is still in flight. */
  ghost predicate Consumed(t: Transfer, s: State, delivered: set<Key>, wire: Bytes)
    requires Valid(t)
  {
    wire in s.inflight || Carried(t, delivered, wire)
  }

  /** `streams` are the contents of the streams accepted so far. */
  ghost predicate SessionInv(t: Transfer, s: State, delivered: set<Key>, streams: seq<Bytes>)
    requires Valid(t)
  {
    && Inv(t, s.recv, delivered)
    && AllTruthful(t, s.recv.received, s.feedback)
    && AllSent(t, s.inflight)
    && s.accepted == |streams|
    && (forall i :: 0 <= i < |streams| ==> Consumed(t, s, delivered, streams[i]))
  }

  ghost predicate For(t: Transfer, k: Settings)
    requires t.chunkSize > 0
  {
    k.config == ConfigOf(t, k.config.verify)
  }

  lemma ForAccepts(t: Transfer, k: Settings)
    requires Valid(t) && For(t, k)
    ensures Accepts(k.config)
  {}

  /** A report calls a group complete only when it is, and names the first 64 chunks that are missing. */
  lemma ReportTruthful(t: Transfer, s: Recv, delivered: set<Key>, g: nat)
    requires Valid(t) && Inv(t, s, delivered)
    ensures var fb := FeedbackFor(ManifestOf(t), s, g);
            Truthful(t, s.received, fb) && FirstMissing(NumChunks(t), s.received, 0, 64, fb.missing)
  {
    MissingExact(NumChunks(t), s.received, 0, 64);
    hide FirstMissing;
  }

  lemma TruthGrows(t: Transfer, before: set<nat>, after: set<nat>, log: seq<Feedback>)
    requires t.chunkSize > 0 && before <= after && AllTruthful(t, before, log)
    ensures AllTruthful(t, after, log)
  {
    forall i | 0 <= i < |log| ensures Truthful(t, after, log[i]) { assert Truthful(t, before, log[i]); }
  }

  /** The data path part of a handled frame. */
  lemma HandleRecv(t: Transfer, k: Settings, s: State, delivered: set<Key>, key: Key)
    requires Valid(t) && For(t, k) && IsKey(t, key) && Inv(t, s.recv, delivered)
    requires AllTruthful(t, s.recv.received, s.feedback)
    ensures Accepts(k.config)
    ensures var (s1, r) := Handle(k, s, FrameOf(t, key));
            && r.Ok? && Inv(t, s1.recv, delivered + {key}) && s.recv.received <= s1.recv.received
            && OnlySource(t, s.recv.file, s1.recv.file)
            && AllTruthful(t, s1.recv.received, s1.feedback) && s1.inflight == s.inflight && s1.accepted == s.accepted
            && (s1.saved == s.saved || s1.saved == s1.recv.received)
  {
    hide Inv, Ingest, FrameOf, AllTruthful, OnlySource;
    IngestHonest(t, k.config.verify, s.recv, delivered, key);
    var (recv, r) := Ingest(k.config, s.recv, FrameOf(t, key));
    TruthGrows(t, s.recv.received, recv.received, s.feedback);
    ReportTruthful(t, recv, delivered + {key}, r.value);
    ReportKept(t, recv.received, s.feedback, FeedbackFor(ManifestOf(t), recv, r.value));
  }

  lemma ReportKept(t: Transfer, received: set<nat>, log: seq<Feedback>, fb: Feedback)
    requires t.chunkSize > 0 && AllTruthful(t, received, log) && Truthful(t, received, fb)
    ensures AllTruthful(t, received, log + [fb])
  {}

  lemma ConsumedGrows(t: Transfer, s: State, delivered: set<Key>, key: Key, wire: Bytes, s1: State)
    requires Valid(t) && IsKey(t, key) && Consumed(t, s, delivered, wire)
    requires forall w :: w in s.inflight ==> w in s1.inflight || w == FrameOf(t, key)
    ensures Consumed(t, s1, delivered + {key}, wire)
  {
    if wire in s.inflight {
      assert wire in s1.inflight || (key in delivered + {key} && wire == FrameOf(t, key));
    } else {
      var other :| other in delivered && IsKey(t, other) && wire == FrameOf(t, other);
      assert other in delivered + {key};
    }
  }

  /** Handling a frame that was in flight, or a datagram (then `rest` is all that is in flight). */
  lemma HandleKeepsInv(t: Transfer, k: Settings, s: State, delivered: set<Key>, streams: seq<Bytes>, key: Key,
          rest: seq<Bytes>)
    requires Valid(t) && For(t, k) && IsKey(t, key) && SessionInv(t, s, delivered, streams)
    requires AllSent(t, rest) && forall w :: w in s.inflight ==> w in rest || w == FrameOf(t, key)
    ensures Accepts(k.config)
    ensures var (s1, r) := Handle(k, s.(inflight := rest), FrameOf(t, key));
            && r.Ok? && SessionInv(t, s1, delivered + {key}, streams) && OnlySource(t, s.recv.file, s1.recv.file)
            && s.recv.received <= s1.recv.received && (s1.saved == s.saved || s1.saved == s1.recv.received)
  {
    hide Inv, AllSent, AllTruthful, FrameOf, Handle, OnlySource;
    HandleRecv(t, k, s.(inflight := rest), delivered, key);
    var s1 := Handle(k, s.(inflight := rest), FrameOf(t, key)).0;
    forall i | 0 <= i < |streams| ensures Consumed(t, s1, delivered + {key}, streams[i]) {
      ConsumedGrows(t, s, delivered, key, streams[i], s1);
    }
  }

  lemma AllSentWithout(t: Transfer, wires: seq<Bytes>, i: nat)
    requires Valid(t) && AllSent(t, wires) && i < |wires|
    ensures AllSent(t, wires[..i] + wires[i + 1..])
    ensures forall w :: w in wires ==> w in wires[..i] + wires[i + 1..] || w == wires[i]
  {
    hide Sent;
    var rest := wires[..i] + wires[i + 1..];
    forall j | 0 <= j < |wires| && j != i ensures wires[j] in rest {
      assert wires[j] == rest[if j < i then j else j - 1];
    }
  }

  lemma StreamKeepsInv(t: Transfer, s: State, delivered: set<Key>, streams: seq<Bytes>, wire: Bytes)
    requires Valid(t) && Sent(t, wire) && SessionInv(t, s, delivered, streams)
    ensures SessionInv(t, s.(accepted := s.accepted + 1, inflight := s.inflight + [wire]), delivered, streams + [wire])
  {
    hide Inv, Sent, AllTruthful;
    var s1 := s.(accepted := s.accepted + 1, inflight := s.inflight + [wire]);
    assert s1.inflight[|s.inflight|] == wire;
    forall i | 0 <= i < |streams + [wire]| ensures Consumed(t, s1, delivered, (streams + [wire])[i]) {
      if i < |streams| { assert Consumed(t, s, delivered, streams[i]); }
    }
  }

  /** The event ends the reading of a stream that is too long. */
  predicate TooLong(s: State, e: Event) {
    e.Joined? && e.i < |s.inflight| && |s.inflight[e.i]| > MAX_STREAM_BYTES
  }

  /** One event keeps the invariant; the keys delivered and the streams accepted only grow. */
  lemma StepKeepsInv(t: Transfer, k: Settings, s: State, delivered: set<Key>, streams: seq<Bytes>, e: Event)
    returns (delivered': set<Key>, streams': seq<Bytes>)
    requires Valid(t) && For(t, k) && SessionInv(t, s, delivered, streams) && EventSent(t, e)
    requires Enabled(k, s.accepted, |s.inflight|, e) && !TooLong(s, e)
    ensures Accepts(k.config)
    ensures var (s1, r) := Step(k, s, e);
            && r.Ok? && SessionInv(t, s1, delivered', streams') && delivered <= delivered'
                    && OnlySource(t, s.recv.file, s1.recv.file)
            && streams' == streams + (if e.Stream? then [e.wire] else [])
            && s.recv.received <= s1.recv.received && (s1.saved == s.saved || s1.saved == s1.recv.received)
  {
    ForAccepts(t, k);
    delivered', streams' := delivered, streams + [];
    assert streams + [] == streams;
    assert AllSent(t, s.inflight);
    assert s.(inflight := s.inflight) == s;
    SourceUnchanged(t, s.recv.file);
    hide Handle, SessionInv, AllSent, FrameOf, For, OnlySource;
    match e {
      case Stream(wire) =>
        StreamKeepsInv(t, s, delivered, streams, wire);
        streams' := streams + [wire];
      case Joined(i) =>
        AllSentWithout(t, s.inflight, i);
        InflightSent(t, s.inflight, i);
        var key :| IsKey(t, key) && s.inflight[i] == FrameOf(t, key);
        HandleKeepsInv(t, k, s, delivered, streams, key, s.inflight[..i] + s.inflight[i + 1..]);
        delivered' := delivered + {key};
      case Datagram(wire) =>
        var key :| IsKey(t, key) && wire == FrameOf(t, key);
        HandleKeepsInv(t, k, s, delivered, streams, key, s.inflight);
        delivered' := delivered + {key};
    }
  }

  /** On frames of the sender an event fails exactly when it ends the reading of a stream that is too long. */
  lemma StepFails(t: Transfer, k: Settings, s: State, delivered: set<Key>, streams: seq<Bytes>, e: Event)
    requires Valid(t) && For(t, k) && SessionInv(t, s, delivered, streams) && EventSent(t, e)
    requires Enabled(k, s.accepted, |s.inflight|, e)
    ensures Accepts(k.config) && (Step(k, s, e).1.Err? <==> TooLong(s, e))
  {
    ForAccepts(t, k);
    hide Handle, SessionInv, EventSent, For, Enabled;
    if !TooLong(s, e) { var _, _ := StepKeepsInv(t, k, s, delivered, streams, e); }
  }

  lemma InflightSent(t: Transfer, wires: seq<Bytes>, i: nat)
    requires Valid(t) && AllSent(t, wires) && i < |wires|
    ensures Sent(t, wires[i])
  {}

  /** The contents of the streams the loop accepts. */
  function AcceptedStreams(k: Settings, s: State, events: seq<Event>): seq<Bytes>
    requires Accepts(k.config)
    decreases |events|
  {
    if |s.recv.received| >= k.config.manifest.numChunks then []
    else if s.accepted >= MaxStreams(k.config.manifest) && s.inflight == [] then []
    else if events == [] then []
    else if !Enabled(k, s.accepted, |s.inflight|, events[0]) then AcceptedStreams(k, s, events[1..])
    else
      match Step(k, s, events[0])
      case (s1, Err) => []
      case (s1, Ok(_)) =>
        (if events[0].Stream? then [events[0].wire] else []) + AcceptedStreams(k, s1, events[1..])
  }

  /** The loop comes to read a stream that is too long. */
  predicate ReadsTooLong(k: Settings, s: State, events: seq<Event>)
    requires Accepts(k.config)
    decreases |events|
  {
    if Stops(k, s, events) then false
    else if !Enabled(k, s.accepted, |s.inflight|, events[0]) then ReadsTooLong(k, s, events[1..])
    else
      TooLong(s, events[0]) ||
      match Step(k, s, events[0])
      case (s1, Err) => false
      case (s1, Ok(_)) => ReadsTooLong(k, s1, events[1..])
  }

  /** How the loop may leave state `s`, with the keys `delivered` and the streams `streams` by then. */
  ghost predicate Ended(t: Transfer, k: Settings, s: State, out: (State, Outcome), delivered: set<Key>,
          streams: seq<Bytes>, tooLong: bool)
    requires Valid(t)
  {
    var (s1, r) := out;
    && (r.Failed? <==> tooLong)
    && (!r.Failed? ==> SessionInv(t, s1, delivered, streams))
    && Inv(t, s1.recv, delivered) && AllTruthful(t, s1.recv.received, s1.feedback)
    && s.recv.received <= s1.recv.received && (s1.saved == s.saved || s1.saved <= s1.recv.received)
    && (r.Filled? ==> |s1.recv.received| >= k.config.manifest.numChunks)
    && (r.Incomplete? ==> s1.accepted >= MaxStreams(k.config.manifest) && s1.inflight == []
                          && |s1.recv.received| < k.config.manifest.numChunks)
  }

  lemma EndedFurther(t: Transfer, k: Settings, s: State, s1: State, out: (State, Outcome), delivered: set<Key>,
          streams: seq<Bytes>, tooLong: bool)
    requires Valid(t) && Ended(t, k, s1, out, delivered, streams, tooLong) && s.recv.received <= s1.recv.received
    requires s1.saved == s.saved || s1.saved == s1.recv.received
    ensures Ended(t, k, s, out, delivered, streams, tooLong)
  {
    hide SessionInv, Inv, AllTruthful;
  }

  predicate Stops(k: Settings, s: State, events: seq<Event>) {
    || |s.recv.received| >= k.config.manifest.numChunks
    || (s.accepted >= MaxStreams(k.config.manifest) && s.inflight == [])
    || events == []
  }

  lemma AcceptStops(t: Transfer, k: Settings, s: State, delivered: set<Key>, streams: seq<Bytes>, events: seq<Event>)
    requires Valid(t) && Accepts(k.config) && SessionInv(t, s, delivered, streams) && Stops(k, s, events)
    ensures AcceptedStreams(k, s, events) == [] && !ReadsTooLong(k, s, events)
    ensures Ended(t, k, s, Accept(k, s, events), delivered, streams, false)
  {
    assert Inv(t, s.recv, delivered) && AllTruthful(t, s.recv.received, s.feedback);
    hide SessionInv, Inv, AllTruthful, MaxStreams, Step, Enabled;
  }

  /** An overlong stream fails the session, and what was received before stays. */
  lemma AcceptFails(t: Transfer, k: Settings, s: State, delivered: set<Key>, streams: seq<Bytes>, events: seq<Event>)
    requires Valid(t) && Accepts(k.config) && SessionInv(t, s, delivered, streams) && !Stops(k, s, events)
    requires Enabled(k, s.accepted, |s.inflight|, events[0]) && TooLong(s, events[0])
    ensures AcceptedStreams(k, s, events) == [] && ReadsTooLong(k, s, events)
    ensures Ended(t, k, s, Accept(k, s, events), delivered, streams, true)
  {
    assert Inv(t, s.recv, delivered) && AllTruthful(t, s.recv.received, s.feedback);
    hide SessionInv, Inv, AllTruthful, MaxStreams, Handle;
  }

  lemma AcceptUnfolds(k: Settings, s: State, events: seq<Event>)
    requires Accepts(k.config) && !Stops(k, s, events)
    ensures events != []
    ensures !Enabled(k, s.accepted, |s.inflight|, events[0]) ==>
              && Accept(k, s, events) == Accept(k, s, events[1..])
              && AcceptedStreams(k, s, events) == AcceptedStreams(k, s, events[1..])
              && ReadsTooLong(k, s, events) == ReadsTooLong(k, s, events[1..])
    ensures Enabled(k, s.accepted, |s.inflight|, events[0]) && !TooLong(s, events[0]) && Step(k, s, events[0]).1.Ok? ==>
              var s1 := Step(k, s, events[0]).0;
              && Accept(k, s, events) == Accept(k, s1, events[1..])
              && ReadsTooLong(k, s, events) == ReadsTooLong(k, s1, events[1..])
              && AcceptedStreams(k, s, events)
                 == (if events[0].Stream? then [events[0].wire] else []) + AcceptedStreams(k, s1, events[1..])
  {
    hide MaxStreams, Step, Enabled, TooLong;
  }

  /** On frames of the sender the loop fails exactly when it reads a stream that is too long, and keeps
      the invariant until then. */
  lemma {:induction false} AcceptKeepsInv(t: Transfer, k: Settings, s: State, delivered: set<Key>,
          streams: seq<Bytes>, events: seq<Event>)
    returns (delivered': set<Key>)
    requires Valid(t) && For(t, k) && SessionInv(t, s, delivered, streams) && EventsSent(t, events)
    ensures Accepts(k.config)
    ensures Ended(t, k, s, Accept(k, s, events), delivered', streams + AcceptedStreams(k, s, events),
                  ReadsTooLong(k, s, events))
    decreases |events|
  {
    ForAccepts(t, k);
    hide *;
    if Stops(k, s, events) {
      AcceptStops(t, k, s, delivered, streams, events);
      assert streams + [] == streams;
      return delivered;
    }
    AcceptUnfolds(k, s, events);
    EventsTail(t, events);
    if Enabled(k, s.accepted, |s.inflight|, events[0]) && TooLong(s, events[0]) {
      AcceptFails(t, k, s, delivered, streams, events);
      assert streams + [] == streams;
      return delivered;
    }
    if Enabled(k, s.accepted, |s.inflight|, events[0]) {
      var delivered1, streams1 := StepKeepsInv(t, k, s, delivered, streams, events[0]);
      var s1 := Step(k, s, events[0]).0;
      var rest := AcceptedStreams(k, s1, events[1..]);
      AppendAll(streams, if events[0].Stream? then [events[0].wire] else [], rest);
      delivered' := AcceptKeepsInv(t, k, s1, delivered1, streams1, events[1..]);
      EndedFurther(t, k, s, s1, Accept(k, s1, events[1..]), delivered', streams1 + rest, ReadsTooLong(k, s1, events[1..]));
    } else {
      delivered' := AcceptKeepsInv(t, k, s, delivered, streams, events[1..]);
    }
  }

  lemma AppendAll<T>(a: seq<T>, b: seq<T>, c: seq<T>)
    ensures (a + b) + c == a + (b + c) && a + [] == a
  {}

  lemma EventsTail(t: Transfer, events: seq<Event>)
    requires Valid(t) && EventsSent(t, events) && events != []
    ensures EventSent(t, events[0]) && EventsSent(t, events[1..])
  {}

  /** The session at its start: a part file of the right length whose listed chunks are in place. */
  function Start0(part: Bytes, received: set<nat>, saved: set<nat>): State {
    State(Recv(part, received, map[]), saved, [], 0, [])
  }

  lemma StartInv(t: Transfer, part: Bytes, received: set<nat>, saved: set<nat>)
    requires Valid(t) && Safe(t, part, received)
    ensures SessionInv(t, Start0(part, received, saved), {}, [])
  {}

  /** A session that fills all indices ends with the source file, and until then every index it
      counts, reports or saves is a chunk in place. */
  lemma SessionSafety(t: Transfer, k: Settings, part: Bytes, received: set<nat>, saved: set<nat>, events: seq<Event>)
    requires Valid(t) && For(t, k) && Safe(t, part, received) && EventsSent(t, events)
    ensures Accepts(k.config)
    ensures var (s, r) := Accept(k, Start0(part, received, saved), events);
            && (r.Failed? <==> ReadsTooLong(k, Start0(part, received, saved), events))
            && Safe(t, s.recv.file, s.recv.received) && received <= s.recv.received
            && AllTruthful(t, s.recv.received, s.feedback)
            && (s.saved == saved || Safe(t, s.recv.file, s.saved))
            && (r.Filled? ==> s.recv.file == t.source)
  {
    var s0 := Start0(part, received, saved);
    StartInv(t, part, received, saved);
    var delivered := AcceptKeepsInv(t, k, s0, {}, [], events);
    var (s, r) := Accept(k, s0, events);
    if r.Filled? { AllReceived(t, s.recv.file, s.recv.received); }
  }

  /** The longest frame of a transfer, by its chunk size. */
  lemma FrameLength(t: Transfer, key: Key)
    requires Valid(t) && IsKey(t, key)
    ensures |FrameOf(t, key)| <= t.chunkSize + 2 * (4 + DESCRIPTOR_BOUND)
  {
    match key {
      case Data(i) =>
        DataDescriptorInRange(t, i);
      case Parity(g, i, p) =>
        ParityDescriptorInRange(t, g, i, p);
        GroupLenBound(t, g);
    }
  }

  ghost predicate HasLongFrame(t: Transfer)
    requires Valid(t)
  {
    exists key :: IsKey(t, key) && |FrameOf(t, key)| > MAX_STREAM_BYTES
  }

  lemma LongFrameInFlight(t: Transfer, s: State, delivered: set<Key>, streams: seq<Bytes>, e: Event)
    requires Valid(t) && SessionInv(t, s, delivered, streams) && TooLong(s, e)
    ensures HasLongFrame(t)
  {
    InflightSent(t, s.inflight, e.i);
    hide FrameOf, Inv;
    var key :| IsKey(t, key) && s.inflight[e.i] == FrameOf(t, key);
  }

  /** Only a frame that is too long makes the loop read one. */
  lemma {:induction false} LongFrameRead(t: Transfer, k: Settings, s: State, delivered: set<Key>, streams: seq<Bytes>,
          events: seq<Event>)
    requires Valid(t) && For(t, k) && SessionInv(t, s, delivered, streams) && EventsSent(t, events)
    requires Accepts(k.config) && ReadsTooLong(k, s, events)
    ensures HasLongFrame(t)
    decreases |events|
  {
    assert !Stops(k, s, events);
    hide SessionInv, Step, Enabled, TooLong, MaxStreams, HasLongFrame, Stops;
    AcceptUnfolds(k, s, events);
    EventsTail(t, events);
    if !Enabled(k, s.accepted, |s.inflight|, events[0]) {
      LongFrameRead(t, k, s, delivered, streams, events[1..]);
    } else if TooLong(s, events[0]) {
      LongFrameInFlight(t, s, delivered, streams, events[0]);
    } else {
      var delivered1, streams1 := StepKeepsInv(t, k, s, delivered, streams, events[0]);
      LongFrameRead(t, k, Step(k, s, events[0]).0, delivered1, streams1, events[1..]);
    }
  }

  /** A stream accepted and then read to its end. */
  function OneStream(wire: Bytes): seq<Event> { [Stream(wire), Joined(0)] }

  /** One overlong stream is enough to fail a session that has something left to receive. */
  lemma LongStreamFails(k: Settings, part: Bytes, received: set<nat>, saved: set<nat>, wire: Bytes)
    requires Accepts(k.config) && |received| < k.config.manifest.numChunks && |wire| > MAX_STREAM_BYTES
    ensures Accept(k, Start0(part, received, saved), OneStream(wire)).1.Failed?
  {
    var s0, events := Start0(part, received, saved), OneStream(wire);
    assert MaxStreams(k.config.manifest) > 0;
    assert events[1..] == [Joined(0)];
    var s1 := s0.(accepted := 1, inflight := [wire]);
    assert [] + [wire] == [wire];
    assert Accept(k, s0, events) == Accept(k, s1, [Joined(0)]);
    hide Handle;
    assert Accept(k, s1, [Joined(0)]).1 == Failed;
  }

  /** A session that has something left to receive can fail if and only if some frame of the transfer is
      longer than a stream may be. */
  lemma SessionCanFail(t: Transfer, k: Settings, part: Bytes, received: set<nat>, saved: set<nat>)
    requires Valid(t) && For(t, k) && Safe(t, part, received) && |received| < NumChunks(t)
    ensures Accepts(k.config)
    ensures (exists events :: EventsSent(t, events) && Accept(k, Start0(part, received, saved), events).1.Failed?)
            <==> HasLongFrame(t)
  {
    ForAccepts(t, k);
    var s0 := Start0(part, received, saved);
    StartInv(t, part, received, saved);
    assert k.config.manifest.numChunks == NumChunks(t);
    hide Accept, Start0, SessionInv, FrameOf, ReadsTooLong, Safe, Inv;
    if events :| EventsSent(t, events) && Accept(k, s0, events).1.Failed? {
      SessionSafety(t, k, part, received, saved, events);
      LongFrameRead(t, k, s0, {}, [], events);
    }
    if HasLongFrame(t) {
      var key :| IsKey(t, key) && |FrameOf(t, key)| > MAX_STREAM_BYTES;
      var wire := FrameOf(t, key);
      LongStreamFails(k, part, received, saved, wire);
      assert EventSent(t, Stream(wire));
      assert EventsSent(t, OneStream(wire));
    }
  }

  /** With chunks this much below the limit no session fails. */
  lemma SessionNeverFails(t: Transfer, k: Settings, part: Bytes, received: set<nat>, saved: set<nat>, events: seq<Event>)
    requires Valid(t) && For(t, k) && Safe(t, part, received) && EventsSent(t, events)
    requires t.chunkSize + 2 * (4 + DESCRIPTOR_BOUND) <= MAX_STREAM_BYTES
    ensures Accepts(k.config) && !Accept(k, Start0(part, received, saved), events).1.Failed?
  {
    SessionSafety(t, k, part, received, saved, events);
    StartInv(t, part, received, saved);
    hide Accept, SessionInv, FrameOf, ReadsTooLong, Safe;
    if ReadsTooLong(k, Start0(part, received, saved), events) {
      LongFrameRead(t, k, Start0(part, received, saved), {}, [], events);
      var key :| IsKey(t, key) && |FrameOf(t, key)| > MAX_STREAM_BYTES;
      FrameLength(t, key);
    }
  }

  /** With chunks as large as a stream, the first full chunk that is not compressed fails the session. */
  lemma LargeChunksFail(t: Transfer, k: Settings)
    requires Valid(t) && For(t, k) && t.compression == Uncompressed
    requires t.chunkSize >= MAX_STREAM_BYTES && |t.source| >= t.chunkSize
    ensures Accepts(k.config) && EventsSent(t, OneStream(DataFrame(t, 0)))
    ensures Accept(k, Start0(Zeros(|t.source|), {}, {}), OneStream(DataFrame(t, 0))).1.Failed?
  {
    ForAccepts(t, k);
    assert Start(t, 0) == 0 && Start(t, 1) == t.chunkSize;
    ChunkRange(t, 0);
    assert |DataBody(t, 0)| == t.chunkSize;
    DataDescriptorInRange(t, 0);
    assert FrameOf(t, Data(0)) == DataFrame(t, 0) && IsKey(t, Data(0));
    assert |DataFrame(t, 0)| > MAX_STREAM_BYTES;
    var events := OneStream(DataFrame(t, 0));
    hide Accept, Start0, DataFrame;
    assert EventSent(t, events[0]) && EventSent(t, events[1]);
    LongStreamFails(k, Zeros(|t.source|), {}, {}, DataFrame(t, 0));
  }

  /** What a stream carries: chunk `i`, or parity row `i` of group `g`. */
  datatype Content = Chunk(i: nat) | Row(g: nat, i: nat) | Garbage

  function ContentOf(c: Codecs, wire: Bytes): Content {
    match ParseHeader(c, wire)
    case Err => Garbage
    case Ok((d, _)) => if d.isParity then Row(d.fecGroup, d.parityIndex) else Chunk(d.index)
  }

  lemma ContentOfFrame(t: Transfer, key: Key)
    requires Valid(t) && IsKey(t, key)
    ensures ContentOf(t.codecs, FrameOf(t, key)) == (match key case Data(i) => Chunk(i) case Parity(g, i, _) => Row(g, i))
  {
    var wire := FrameOf(t, key);
    assert wire + [] == wire;
    match key {
      case Data(i) =>
        DataDescriptorInRange(t, i);
        ParseFrame(t.codecs, DataDescriptor(t, i), DataBody(t, i), []);
      case Parity(g, i, p) =>
        ParityDescriptorInRange(t, g, i, p);
        ParseFrame(t.codecs, ParityDescriptor(t.codecs, g, i, p, ParityBody(t, g, i)), ParityBody(t, g, i), []);
    }
  }

  ghost function Contents(c: Codecs, wires: seq<Bytes>): set<Content> { set w | w in wires :: ContentOf(c, w) }

  function Chunks(n: nat): (s: set<Content>)
    ensures |s| == n && forall i: nat :: Chunk(i) in s <==> i < n
    ensures forall x :: x in s ==> x.Chunk?
  {
    if n == 0 then {} else Chunks(n - 1) + {Chunk(n - 1)}
  }

  function RowsOfGroup(g: nat, p: nat): (s: set<Content>)
    ensures |s| == p && forall i: nat :: i < p ==> Row(g, i) in s
    ensures forall x :: x in s ==> x.Row? && x.g == g && x.i < p
  {
    if p == 0 then {} else RowsOfGroup(g, p - 1) + {Row(g, p - 1)}
  }

  function Rows(groups: nat, p: nat): (s: set<Content>)
    ensures |s| == Mul(groups, p) && forall g: nat, i: nat :: g < groups && i < p ==> Row(g, i) in s
    ensures forall x :: x in s ==> x.Row? && x.g < groups
  {
    if groups == 0 then {} else Rows(groups - 1, p) + RowsOfGroup(groups - 1, p)
  }

  function GroupCount(t: Transfer): nat
    requires t.chunkSize > 0 && t.dataShards > 0
  {
    Div(NumChunks(t) + t.dataShards - 1, t.dataShards)
  }

  lemma FullGroupCounted(t: Transfer, g: nat)
    requires t.chunkSize > 0 && t.dataShards > 0 && FullGroup(t, g)
    ensures g < GroupCount(t)
  {
    if GroupCount(t) <= g { MulStep(GroupCount(t), g + 1, t.dataShards); }
  }

  /** While chunk `i` has not arrived, the streams read carry fewer distinct contents than that. */
  lemma DistinctContents(t: Transfer, streams: seq<Bytes>, delivered: set<Key>, i: nat)
    requires Valid(t) && i < NumChunks(t) && Data(i) !in delivered
    requires forall j :: 0 <= j < |streams| ==> Carried(t, delivered, streams[j])
    ensures |Contents(t.codecs, streams)| < NumChunks(t) + Mul(GroupCount(t), t.parityShards)
  {
    var chunks, rows := Chunks(NumChunks(t)) - {Chunk(i)}, Rows(GroupCount(t), t.parityShards);
    forall x | x in Contents(t.codecs, streams) ensures x in chunks + rows {
      var j :| 0 <= j < |streams| && x == ContentOf(t.codecs, streams[j]);
      hide *;
      ContentBounded(t, streams[j], delivered, i);
    }
    hide *;
    SubsetSize(Contents(t.codecs, streams), chunks + rows);
    assert |chunks| == NumChunks(t) - 1;
  }

  lemma ContentBounded(t: Transfer, wire: Bytes, delivered: set<Key>, i: nat)
    requires Valid(t) && Data(i) !in delivered && Carried(t, delivered, wire)
    ensures ContentOf(t.codecs, wire) in Chunks(NumChunks(t)) - {Chunk(i)} + Rows(GroupCount(t), t.parityShards)
  {
    hide FrameOf, ContentOf, NumChunks, FullGroup, GroupCount, Lawful;
    var key :| key in delivered && IsKey(t, key) && wire == FrameOf(t, key);
    ContentOfFrame(t, key);
    if key.Parity? { FullGroupCounted(t, key.g); }
  }

  lemma AllDelivered(t: Transfer, s: State, delivered: set<Key>, streams: seq<Bytes>)
    requires Valid(t) && SessionInv(t, s, delivered, streams) && s.inflight == []
    ensures forall j :: 0 <= j < |streams| ==> Carried(t, delivered, streams[j])
  {
    hide Inv, Carried, AllTruthful, AllSent;
    forall j | 0 <= j < |streams| ensures Carried(t, delivered, streams[j]) {
      assert Consumed(t, s, delivered, streams[j]);
    }
  }

  lemma NotDelivered(t: Transfer, s: Recv, delivered: set<Key>, i: nat)
    requires Valid(t) && Inv(t, s, delivered) && i !in s.received
    ensures Data(i) !in delivered
  {
    var key := Data(i);
    assert key in delivered ==> key.i in s.received;
  }

  /** The stream limit strikes only after more than 256 accepted streams repeated earlier contents; where
      the limit itself saturates, after as many repeats as it exceeds the number of contents. */
  lemma StreamCap(t: Transfer, k: Settings, part: Bytes, received: set<nat>, saved: set<nat>, events: seq<Event>)
    requires Valid(t) && For(t, k) && Safe(t, part, received) && EventsSent(t, events)
    requires Accepts(k.config) && Accept(k, Start0(part, received, saved), events).1 == Incomplete
    ensures var streams := AcceptedStreams(k, Start0(part, received, saved), events);
            var kinds := NumChunks(t) + Mul(GroupCount(t), t.parityShards);
            && |streams| == Min(kinds + 256, U64_LIMIT - 1)
            && |streams| + kinds > |Contents(t.codecs, streams)| + MaxStreams(ManifestOf(t))
            && (kinds + EXTRA_STREAM_HEADROOM < U64_LIMIT ==>
                  |streams| > |Contents(t.codecs, streams)| + EXTRA_STREAM_HEADROOM)
  {
    var s0 := Start0(part, received, saved);
    StartInv(t, part, received, saved);
    var delivered := AcceptKeepsInv(t, k, s0, {}, [], events);
    var s, streams := Accept(k, s0, events).0, AcceptedStreams(k, s0, events);
    hide *;
    LimitIs(t);
    StartWithin(k, part, received, saved);
    ParallelBounded(k, s0, events);
    WithinIs(t, k, s);
    LimitReached(t, k, s0, Accept(k, s0, events), delivered, streams, ReadsTooLong(k, s0, events));
    AllDelivered(t, s, delivered, streams);
    var i := SomeMissing(NumChunks(t), s.recv.received);
    NotDelivered(t, s.recv, delivered, i);
    DistinctContents(t, streams, delivered, i);
  }

  lemma LimitReached(t: Transfer, k: Settings, s0: State, out: (State, Outcome), delivered: set<Key>, streams: seq<Bytes>,
          tooLong: bool)
    requires Valid(t) && For(t, k) && Ended(t, k, s0, out, delivered, [] + streams, tooLong) && out.1 == Incomplete
    ensures SessionInv(t, out.0, delivered, streams) && Inv(t, out.0.recv, delivered) && out.0.inflight == []
            && |out.0.recv.received| < NumChunks(t)
    ensures |streams| >= MaxStreams(ManifestOf(t)) && out.0.accepted == |streams|
  {
    assert [] + streams == streams;
  }

  lemma SomeMissing(n: nat, received: set<nat>) returns (i: nat)
    requires |received| < n
    ensures i < n && i !in received
  {
    if Below(n) <= received {
      SubsetSize(Below(n), received);
      assert false;
    }
    i :| i in Below(n) && i !in received;
  }

  lemma LimitIs(t: Transfer)
    requires Valid(t)
    ensures var limit, kinds := MaxStreams(ManifestOf(t)), NumChunks(t) + Mul(GroupCount(t), t.parityShards);
            && (if kinds + 256 <= U64_LIMIT - 1 then limit == kinds + 256 else limit == U64_LIMIT - 1)
            && limit == Min(kinds + 256, U64_LIMIT - 1) && EXTRA_STREAM_HEADROOM == 256
  {
    NumChunksBounded(t);
  }

  lemma StartWithin(k: Settings, part: Bytes, received: set<nat>, saved: set<nat>)
    ensures WithinLimits(k, Start0(part, received, saved))
  {}

  lemma WithinIs(t: Transfer, k: Settings, s: State)
    requires Valid(t) && For(t, k) && WithinLimits(k, s)
    ensures s.accepted <= MaxStreams(ManifestOf(t))
  {}
}
