/** Framing of telemetry events on a stream: single events and batches, told apart by a magic number. */
module Telemetry {
  import opened Bytes

  const BATCH_MAGIC: Bytes := [0x53, 0x43, 0x42, 0x31]
  const MAX_FRAME: nat := 64 * 1024 * 1024

  /** The serialiser of events. */
  datatype Codec<!E> = Codec(encode: E -> Bytes, decode: Bytes -> Option<E>)

  /** Decoding undoes encoding, and an encoded event is a five-entry MessagePack map. */
  ghost predicate Lawful<E(!new)>(c: Codec<E>) {
    forall e :: c.decode(c.encode(e)) == Some(e) && |c.encode(e)| > 0 && c.encode(e)[0] == 0x85
  }

  function FrameEvent<E>(c: Codec<E>, e: E): Result<Bytes> {
    var payload := c.encode(e);
    if |payload| >= U32_LIMIT then Err else Ok(Be32(|payload|) + payload)
  }

  /** The entries of a batch from event `i` on. */
  function Items<E>(c: Codec<E>, events: seq<E>): Bytes {
    if events == [] then []
    else
      var last := |events| - 1;
      var encoded := c.encode(events[last]);
      Items(c, events[..last]) + (Be32(|encoded|) + encoded)
  }

  function BatchPayload<E>(c: Codec<E>, events: seq<E>): Bytes {
    BATCH_MAGIC + Be32(|events|) + Items(c, events)
  }

  predicate Fits<E>(c: Codec<E>, events: seq<E>) {
    |events| < U32_LIMIT && (forall i :: 0 <= i < |events| ==> |c.encode(events[i])| < U32_LIMIT)
    && |BatchPayload(c, events)| < U32_LIMIT
  }

  function FrameBatch<E>(c: Codec<E>, events: seq<E>): Result<Bytes> {
    if Fits(c, events) then Ok(Be32(|BatchPayload(c, events)|) + BatchPayload(c, events)) else Err
  }

  method FrameEventBatch<E>(c: Codec<E>, events: seq<E>) returns (r: Result<Bytes>)
    ensures r == FrameBatch(c, events)
  {
    if |events| >= U32_LIMIT { return Err; }
    var payload := BATCH_MAGIC + Be32(|events|);
    assert payload == BATCH_MAGIC + Be32(|events|) + Items(c, events[..0]);
    for i := 0 to |events|
      invariant payload == BATCH_MAGIC + Be32(|events|) + Items(c, events[..i])
      invariant forall j :: 0 <= j < i ==> |c.encode(events[j])| < U32_LIMIT
    {
      var encoded := c.encode(events[i]);
      if |encoded| >= U32_LIMIT { return Err; }
      assert events[..i + 1][..i] == events[..i];
      payload := payload + Be32(|encoded|);
      payload := payload + encoded;
      assert payload == BATCH_MAGIC + Be32(|events|) + (Items(c, events[..i]) + (Be32(|encoded|) + encoded));
    }
    assert events[..|events|] == events;
    if |payload| >= U32_LIMIT { return Err; }
    return Ok(Be32(|payload|) + payload);
  }

  /** One event, framed alone. */
  function ParseEvent<E>(c: Codec<E>, buf: Bytes): Result<E> {
    if |buf| < 4 then Err
    else
      var len := FromBe32(buf);
      if len == 0 || len > MAX_FRAME || |buf| - 4 != len then Err
      else
        match c.decode(buf[4..])
        case None => Err
        case Some(e) => Ok(e)
  }

  /** The entry at `at` and where the next one starts. */
  function ParseItem<E>(c: Codec<E>, payload: Bytes, at: nat): (r: Result<(E, nat)>)
    ensures r.Ok? ==> at < r.value.1 <= |payload|
  {
    if at + 4 > |payload| then Err
    else
      var len := FromBe32(payload[at..at + 4]);
      if at + 4 + len > |payload| then Err
      else
        match c.decode(payload[at + 4..at + 4 + len])
        case None => Err
        case Some(e) => Ok((e, at + 4 + len))
  }

  /** The `count` entries from `at` on, after those in `done`. */
  function ParseItems<E>(c: Codec<E>, payload: Bytes, at: nat, count: nat, done: seq<E>): Result<seq<E>>
    decreases count
  {
    if count == 0 then Ok(done)
    else
      match ParseItem(c, payload, at)
      case Err => Err
      case Ok((e, next)) => ParseItems(c, payload, next, count - 1, done + [e])
  }

  predicate IsBatch(payload: Bytes) { |payload| >= 8 && payload[..4] == BATCH_MAGIC }

  function Parse<E>(c: Codec<E>, buf: Bytes): Result<seq<E>> {
    if |buf| < 4 || |buf| - 4 != FromBe32(buf) then Err
    else
      var payload := buf[4..];
      if !IsBatch(payload) then
        match ParseEvent(c, buf)
        case Err => Err
        case Ok(e) => Ok([e])
      else ParseItems(c, payload, 8, FromBe32(payload[4..8]), [])
  }

  method ParseFramedEvents<E>(c: Codec<E>, buf: Bytes) returns (r: Result<seq<E>>)
    ensures r == Parse(c, buf)
  {
    if |buf| < 4 { return Err; }
    var payload := buf[4..];
    if |payload| != FromBe32(buf) { return Err; }
    if |payload| < 8 || payload[..4] != BATCH_MAGIC {
      var single := ParseEvent(c, buf);
      return if single.Err? then Err else Ok([single.value]);
    }
    var count := FromBe32(payload[4..8]);
    var at: nat, out: seq<E> := 8, [];
    for i := 0 to count
      invariant at <= |payload|
      invariant ParseItems(c, payload, at, count - i, out) == ParseItems(c, payload, 8, count, [])
    {
      var item := ParseItem(c, payload, at);
      if item.Err? { return Err; }
      out, at := out + [item.value.0], item.value.1;
    }
    return Ok(out);
  }

  /** One frame from the front of a stream, and what is left of the stream. */
  function Read<E>(c: Codec<E>, stream: Bytes): Result<(seq<E>, Bytes)> {
    if |stream| < 4 then Err
    else
      var len := FromBe32(stream);
      if len == 0 || len > MAX_FRAME || |stream| < 4 + len then Err
      else
        match Parse(c, stream[..4 + len])
        case Err => Err
        case Ok(events) => Ok((events, stream[4 + len..]))
  }

  lemma PrefixValue(n: nat, rest: Bytes)
    requires n < U32_LIMIT
    ensures FromBe32(Be32(n) + rest) == n && (Be32(n) + rest)[..4] == Be32(n) && (Be32(n) + rest)[4..] == rest
  {
    Be32RoundTrip(n, rest);
  }

  lemma ItemAt<E(!new)>(c: Codec<E>, before: Bytes, e: E, after: Bytes)
    requires Lawful(c) && |c.encode(e)| < U32_LIMIT
    ensures var encoded := c.encode(e); var payload := before + (Be32(|encoded|) + encoded) + after;
            ParseItem(c, payload, |before|) == Ok((e, |before| + 4 + |encoded|))
  {
    var encoded := c.encode(e);
    var payload := before + (Be32(|encoded|) + encoded) + after;
    var at := |before|;
    assert payload[at..at + 4] == Be32(|encoded|) + [];
    Be32RoundTrip(|encoded|, []);
    assert payload[at + 4..at + 4 + |encoded|] == encoded;
  }

  lemma {:induction false} ItemsAppend<E>(c: Codec<E>, a: seq<E>, b: seq<E>)
    ensures Items(c, a + b) == Items(c, a) + Items(c, b)
  {
    if b == [] {
      assert a + b == a;
    } else {
      var last := |b| - 1;
      assert (a + b)[..|a + b| - 1] == a + b[..last];
      ItemsAppend(c, a, b[..last]);
    }
  }

  lemma ItemsSplit<E>(c: Codec<E>, events: seq<E>, i: nat)
    requires i < |events|
    ensures var encoded := c.encode(events[i]);
            && Items(c, events) == Items(c, events[..i]) + (Be32(|encoded|) + encoded) + Items(c, events[i + 1..])
            && Items(c, events[..i + 1]) == Items(c, events[..i]) + (Be32(|encoded|) + encoded)
  {
    assert events[..i + 1] + events[i + 1..] == events;
    ItemsAppend(c, events[..i + 1], events[i + 1..]);
    assert events[..i + 1][..i] == events[..i];
  }

  /** Parsing the rest of a batch after its first `i` events completes the batch. */
  lemma {:induction false} BatchItems<E(!new)>(c: Codec<E>, events: seq<E>, i: nat)
    requires Lawful(c) && Fits(c, events) && i <= |events|
    ensures ParseItems(c, BatchPayload(c, events), 8 + |Items(c, events[..i])|, |events| - i, events[..i]) == Ok(events)
    decreases |events| - i
  {
    hide *;
    var payload, at := BatchPayload(c, events), 8 + |Items(c, events[..i])|;
    if i == |events| {
      NoItems(c, payload, at, events);
    } else {
      BatchItem(c, events, i);
      BatchItems(c, events, i + 1);
      OneMoreItem(c, payload, at, 8 + |Items(c, events[..i + 1])|, events, i);
    }
  }

  lemma NoItems<E>(c: Codec<E>, payload: Bytes, at: nat, events: seq<E>)
    ensures ParseItems(c, payload, at, 0, events[..|events|]) == Ok(events)
  {
    assert events[..|events|] == events;
  }

  lemma OneMoreItem<E>(c: Codec<E>, payload: Bytes, at: nat, next: nat, events: seq<E>, i: nat)
    requires i < |events| && ParseItem(c, payload, at) == Ok((events[i], next))
    requires ParseItems(c, payload, next, |events| - (i + 1), events[..i + 1]) == Ok(events)
    ensures ParseItems(c, payload, at, |events| - i, events[..i]) == Ok(events)
  {
    assert events[..i] + [events[i]] == events[..i + 1];
  }

  /** Where item `i` of a batch lies. */
  lemma BatchSplit<E(!new)>(c: Codec<E>, events: seq<E>, i: nat) returns (head: Bytes, before: Bytes, after: Bytes)
    requires Fits(c, events) && i < |events|
    ensures |head| == 8 && before == Items(c, events[..i]) && |c.encode(events[i])| < U32_LIMIT
    ensures var encoded := c.encode(events[i]);
            && BatchPayload(c, events) == (head + before) + (Be32(|encoded|) + encoded) + after
            && |Items(c, events[..i + 1])| == |before| + 4 + |encoded|
  {
    var encoded := c.encode(events[i]);
    head, before, after := BATCH_MAGIC + Be32(|events|), Items(c, events[..i]), Items(c, events[i + 1..]);
    ItemsSplit(c, events, i);
    Regroup(head, before, Be32(|encoded|) + encoded, after);
    hide Items;
  }

  lemma BatchItem<E(!new)>(c: Codec<E>, events: seq<E>, i: nat)
    requires Lawful(c) && Fits(c, events) && i < |events|
    ensures ParseItem(c, BatchPayload(c, events), 8 + |Items(c, events[..i])|)
            == Ok((events[i], 8 + |Items(c, events[..i + 1])|))
  {
    hide *;
    var head, before, after := BatchSplit(c, events, i);
    ItemAt(c, head + before, events[i], after);
  }

  lemma Regroup(a: Bytes, b: Bytes, x: Bytes, y: Bytes)
    ensures a + (b + x + y) == (a + b) + x + y
  {}

  /** What a stream carries: events framed alone or in batches. */
  datatype Frame<E> = Single(event: E) | Batch(events: seq<E>)

  function EventsOf<E>(f: Frame<E>): seq<E> {
    match f
    case Single(e) => [e]
    case Batch(events) => events
  }

  function PayloadOf<E>(c: Codec<E>, f: Frame<E>): Bytes {
    match f
    case Single(e) => c.encode(e)
    case Batch(events) => BatchPayload(c, events)
  }

  /** The frame is within the limit of the reader. */
  ghost predicate Within<E>(c: Codec<E>, f: Frame<E>) {
    |PayloadOf(c, f)| <= MAX_FRAME && (f.Batch? ==> Fits(c, f.events))
  }

  function Framed<E>(c: Codec<E>, f: Frame<E>): Result<Bytes> {
    match f
    case Single(e) => FrameEvent(c, e)
    case Batch(events) => FrameBatch(c, events)
  }

  lemma FramedIs<E>(c: Codec<E>, f: Frame<E>)
    requires Within(c, f)
    ensures Framed(c, f) == Ok(Be32(|PayloadOf(c, f)|) + PayloadOf(c, f))
  {}

  lemma ParseFramed<E(!new)>(c: Codec<E>, f: Frame<E>)
    requires Lawful(c) && Within(c, f)
    ensures Parse(c, Framed(c, f).value) == Ok(EventsOf(f))
  {
    var payload := PayloadOf(c, f);
    FramedIs(c, f);
    PrefixValue(|payload|, payload);
    match f {
      case Single(e) =>
        assert payload[0] == 0x85;
        assert |payload| >= 4 ==> payload[..4][0] == 0x85;
      case Batch(events) =>
        assert payload[4..8] == Be32(|events|) + [];
        Be32RoundTrip(|events|, []);
        assert payload[..4] == BATCH_MAGIC;
        assert events[..0] == [];
        BatchItems(c, events, 0);
    }
  }

  /** Reading takes exactly one frame off the stream and returns its events. */
  lemma ReadFramed<E(!new)>(c: Codec<E>, f: Frame<E>, rest: Bytes)
    requires Lawful(c) && Within(c, f)
    ensures Framed(c, f).Ok? && Read(c, Framed(c, f).value + rest) == Ok((EventsOf(f), rest))
  {
    var payload := PayloadOf(c, f);
    FramedIs(c, f);
    var buf := Be32(|payload|) + payload;
    assert buf + rest == Be32(|payload|) + (payload + rest);
    PrefixValue(|payload|, payload + rest);
    assert (buf + rest)[..4 + |payload|] == buf && (buf + rest)[4 + |payload|..] == rest;
    assert |payload| > 0;
    ParseFramed(c, f);
  }

  /** Whatever can be framed is read back exactly up to 64 MiB; the reader refuses larger frames. */
  lemma ReadLimit<E(!new)>(c: Codec<E>, f: Frame<E>, rest: Bytes)
    requires Lawful(c) && Framed(c, f).Ok?
    ensures Read(c, Framed(c, f).value + rest).Ok? <==> |PayloadOf(c, f)| <= 64 * 1024 * 1024
  {
    var payload := PayloadOf(c, f);
    if |payload| <= MAX_FRAME {
      ReadFramed(c, f, rest);
    } else {
      assert Framed(c, f).value + rest == Be32(|payload|) + (payload + rest);
      PrefixValue(|payload|, payload + rest);
    }
  }

  /** A frame that is not there in full is refused, wherever it breaks off. */
  lemma TruncatedRefused<E(!new)>(c: Codec<E>, f: Frame<E>, k: nat)
    requires Framed(c, f).Ok? && k < |Framed(c, f).value|
    ensures Read(c, Framed(c, f).value[..k]).Err?
  {
    var payload := PayloadOf(c, f);
    var part := Framed(c, f).value[..k];
    assert Framed(c, f).value == Be32(|payload|) + payload;
    if k >= 4 {
      assert part == Be32(|payload|) + payload[..k - 4];
      PrefixValue(|payload|, payload[..k - 4]);
    }
  }

  function StreamOf<E>(c: Codec<E>, fs: seq<Frame<E>>): Bytes
    requires forall i :: 0 <= i < |fs| ==> Framed(c, fs[i]).Ok?
  {
    if fs == [] then [] else Framed(c, fs[0]).value + StreamOf(c, fs[1..])
  }

  function AllEvents<E>(fs: seq<Frame<E>>): seq<E> {
    if fs == [] then [] else EventsOf(fs[0]) + AllEvents(fs[1..])
  }

  /** Reads frames until the stream ends, after the events in `done`. */
  function ReadAll<E>(c: Codec<E>, stream: Bytes, done: seq<E>): Result<seq<E>>
    decreases |stream|
  {
    if stream == [] then Ok(done)
    else
      match Read(c, stream)
      case Err => Err
      case Ok((events, rest)) => ReadAll(c, rest, done + events)
  }

  lemma ReadFirst<E(!new)>(c: Codec<E>, fs: seq<Frame<E>>, done: seq<E>)
    requires fs != [] && Lawful(c) && Within(c, fs[0]) && forall i :: 0 <= i < |fs| ==> Framed(c, fs[i]).Ok?
    ensures ReadAll(c, StreamOf(c, fs), done) == ReadAll(c, StreamOf(c, fs[1..]), done + EventsOf(fs[0]))
  {
    ReadFramed(c, fs[0], StreamOf(c, fs[1..]));
    FramedIs(c, fs[0]);
    hide Read, Framed, Within, PayloadOf;
  }

  /** Any sequence of frames reads back as the events in order, none lost, none repeated. */
  lemma {:induction false} StreamRoundTrip<E(!new)>(c: Codec<E>, fs: seq<Frame<E>>, done: seq<E>)
    requires Lawful(c) && forall i :: 0 <= i < |fs| ==> Within(c, fs[i])
    ensures forall i :: 0 <= i < |fs| ==> Framed(c, fs[i]).Ok?
    ensures ReadAll(c, StreamOf(c, fs), done) == Ok(done + AllEvents(fs))
  {
    forall i | 0 <= i < |fs| ensures Framed(c, fs[i]).Ok? { FramedIs(c, fs[i]); }
    if fs == [] {
      assert done + AllEvents(fs) == done;
    } else {
      StreamRoundTrip(c, fs[1..], done + EventsOf(fs[0]));
      ReadFirst(c, fs, done);
      assert (done + EventsOf(fs[0])) + AllEvents(fs[1..]) == done + AllEvents(fs);
    }
    hide ReadAll, Read, Framed, Within, PayloadOf;
  }

  /** A byte stream being read. */
  class Reader {
    var data: Bytes

    constructor (data: Bytes)
      ensures this.data == data
    {
      this.data := data;
    }

    method ReadExact(n: nat) returns (r: Result<Bytes>)
      modifies this
      ensures old(|data|) < n ==> r == Err
      ensures old(|data|) >= n ==> r == Ok(old(data)[..n]) && data == old(data)[n..]
    {
      if |data| < n { return Err; }
      r := Ok(data[..n]);
      data := data[n..];
    }

    method ReadFramedEvents<E>(c: Codec<E>) returns (r: Result<seq<E>>)
      modifies this
      ensures match Read(c, old(data)) case Err => r == Err case Ok((events, rest)) => r == Ok(events) && data == rest
    {
      var head := ReadExact(4);
      if head.Err? { return Err; }
      var len := FromBe32(head.value);
      assert len == FromBe32(old(data));
      if len == 0 || len > MAX_FRAME { return Err; }
      var payload := ReadExact(len);
      if payload.Err? { return Err; }
      assert head.value + payload.value == old(data)[..4 + len];
      r := ParseFramedEvents(c, head.value + payload.value);
    }

    /** Reads until the stream ends. */
    method ReadToEnd<E>(c: Codec<E>) returns (r: Result<seq<E>>)
      modifies this
      ensures r == ReadAll(c, old(data), [])
    {
      var out: seq<E> := [];
      while data != []
        invariant ReadAll(c, data, out) == ReadAll(c, old(data), [])
        decreases |data|
      {
        var events := ReadFramedEvents(c);
        if events.Err? { return Err; }
        out := out + events.value;
      }
      return Ok(out);
    }
  }
}
