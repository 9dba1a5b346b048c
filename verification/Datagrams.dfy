/** Telemetry over datagrams: the loss window, and what subscribers get to see. */
module Datagrams {
  import opened Arith
  import opened Bytes

  datatype Kind =
    | RunStarted | RunCompleted | RunFailed | TaskQueued | TaskStarted | TaskCompleted | TaskFailed
    | Progress | TransportFallback

  /** An event: its two payload marks, and its encoded sizes as it is and with its payload cut. */
  datatype Event = Event(kind: Kind, id: nat, forceFallback: bool, simulatedLoss: bool, size: nat, cutSize: nat)

  /** What the fan-out publishes: events, and notices that a fallback took place. */
  datatype Published = Original(event: Event) | Notice

  /** How the datagram send goes. */
  datatype Route = Delivered | Rerouted | Broken

  datatype Status = Sent | Dropped | FellBack

  datatype Config = Config(windowSize: nat, threshold: real, maxSize: nat, preferredSize: nat, dropEvery: nat)

  /** The last `n` elements. */
  function LastOf<T>(s: seq<T>, n: nat): seq<T> { if |s| <= n then s else s[|s| - n..] }

  function Record(c: Config, window: seq<bool>, delivered: bool): seq<bool> {
    var w := window + [delivered];
    if |w| > c.windowSize then w[1..] else w
  }

  /** Pushing and popping one at a time keeps the last outcomes, for every window size. */
  lemma RecordKeepsLast(c: Config, outcomes: seq<bool>, delivered: bool)
    ensures Record(c, LastOf(outcomes, c.windowSize), delivered) == LastOf(outcomes + [delivered], c.windowSize)
  {}

  function CountTrue(w: seq<bool>): (n: nat)
    ensures n <= |w|
  {
    if w == [] then 0 else CountTrue(w[..|w| - 1]) + (if w[|w| - 1] then 1 else 0)
  }

  function Threshold(c: Config): (t: real)
    ensures 0.05 <= t <= 0.9 && (0.0 <= c.threshold <= 0.85 ==> t - c.threshold == 0.05)
  {
    var t := c.threshold + 0.05;
    if t < 0.05 then 0.05 else if t > 0.9 then 0.9 else t
  }

  predicate TooLossy(c: Config, window: seq<bool>) {
    |window| >= 10 && 1.0 - CountTrue(window) as real / |window| as real > Threshold(c)
  }

  /** Counting is additive, so the count is fixed by what a single outcome counts. */
  lemma {:induction false} CountAppend(a: seq<bool>, b: seq<bool>)
    ensures CountTrue(a + b) == CountTrue(a) + CountTrue(b)
  {
    if b == [] {
      assert a + b == a;
    } else {
      assert (a + b)[..|a + b| - 1] == a + b[..|b| - 1];
      CountAppend(a, b[..|b| - 1]);
    }
  }

  lemma {:induction false} CountSame(w: seq<bool>, b: bool)
    requires forall i :: 0 <= i < |w| ==> w[i] == b
    ensures CountTrue(w) == if b then |w| else 0
  {
    if w != [] { CountSame(w[..|w| - 1], b); }
  }

  ghost predicate Outweighs(lost: nat, all: nat, t: real) { lost as real > t * all as real }

  /** The losses outweigh the threshold. */
  lemma LossyIs(c: Config, w: seq<bool>)
    ensures TooLossy(c, w) <==> |w| >= 10 && Outweighs(|w| - CountTrue(w), |w|, Threshold(c))
  {
    hide CountTrue, Threshold, Outweighs;
    if |w| >= 10 { RatioIs(CountTrue(w), |w|, Threshold(c)); }
  }

  lemma RatioIs(k: nat, n: nat, t: real)
    requires n > 0 && k <= n
    ensures 1.0 - k as real / n as real > t <==> Outweighs(n - k, n, t)
  {
    RealRatioIs(k as real, n as real, t);
    assert (n - k) as real == n as real - k as real;
  }

  lemma RealRatioIs(k: real, n: real, t: real)
    requires n > 0.0
    ensures 1.0 - k / n > t <==> n - k > t * n
  {
    var a := 1.0 - k / n - t;
    assert k / n * n == k;
    assert a * n == n - k - t * n;
    SignOf(a, n);
  }

  lemma SignOf(a: real, n: real)
    requires n > 0.0
    ensures a * n > 0.0 <==> a > 0.0
  {
    if a <= 0.0 { assert -a * n >= 0.0; }
  }

  /** Whatever the threshold: a window of losses falls back once it holds ten, and one of deliveries never. */
  lemma AllLostOrNone(c: Config, w: seq<bool>, b: bool)
    requires forall i :: 0 <= i < |w| ==> w[i] == b
    ensures TooLossy(c, w) <==> !b && |w| >= 10
  {
    CountSame(w, b);
    LossyIs(c, w);
    var t, n := Threshold(c), |w| as real;
    assert 0.05 <= t <= 0.9;
    hide Threshold, TooLossy;
    assert t * n >= 0.0 && (1.0 - t) * n >= 0.1 * n;
  }

  /** So do the last outcomes of a run; a window of less than ten never does. */
  lemma LastOutcomesDecide(c: Config, outcomes: seq<bool>, b: bool)
    ensures (forall i :: 0 <= i < |outcomes| && i >= |outcomes| - c.windowSize ==> outcomes[i] == b)
            ==> (TooLossy(c, LastOf(outcomes, c.windowSize)) <==> !b && |outcomes| >= 10 && c.windowSize >= 10)
    ensures c.windowSize < 10 ==> !TooLossy(c, LastOf(outcomes, c.windowSize))
  {
    var w := LastOf(outcomes, c.windowSize);
    if forall i :: 0 <= i < |outcomes| && i >= |outcomes| - c.windowSize ==> outcomes[i] == b {
      AllLostOrNone(c, w, b);
    }
  }

  predicate RateLimited(c: Config, sent: nat, e: Event) {
    c.dropEvery > 0 && e.kind == Progress && sent % c.dropEvery == c.dropEvery - 1
  }

  lemma SameRest(a: nat, b: nat, d: nat)
    requires d > 0 && a % d == b % d && a <= b < a + d
    ensures a == b
  {
    QuotientAndRest(a, d);
    QuotientAndRest(b, d);
    hide Mul;
    if a / d < b / d { MulStep(a / d, b / d, d); }
    if b / d < a / d { MulStep(b / d, a / d, d); }
  }

  /** Of any `dropEvery` progress events in a row exactly one is dropped. */
  lemma OneInEvery(c: Config, e: Event, from: nat) returns (s: nat)
    requires c.dropEvery > 0 && e.kind == Progress
    ensures from <= s < from + c.dropEvery && RateLimited(c, s, e)
    ensures forall u: nat :: from <= u < from + c.dropEvery && RateLimited(c, u, e) ==> u == s
  {
    var d := c.dropEvery;
    s := from + (d - 1 - from % d);
    assert s % d == d - 1 by { LastOfRound(from, d); }
    forall u: nat | from <= u < from + d && RateLimited(c, u, e) ensures u == s {
      if u <= s { SameRest(u, s, d); } else { SameRest(s, u, d); }
    }
  }

  lemma LastOfRound(from: nat, d: nat)
    requires d > 0
    ensures (from + (d - 1 - from % d)) % d == d - 1
  {
    var s := from + (d - 1 - from % d);
    QuotientAndRest(from, d);
    QuotientAndRest(s, d);
    hide Mul;
    if s / d < from / d { MulStep(s / d, from / d, d); }
    if from / d < s / d { MulStep(from / d, s / d, d); }
  }

  predicate Encodable(c: Config, e: Event) { e.size <= c.maxSize || e.cutSize <= c.maxSize }

  function EncodedSize(c: Config, e: Event): nat { if e.size <= c.maxSize then e.size else e.cutSize }

  /** What is put into a datagram fits, and is the whole event whenever that fits. */
  lemma EncodedFits(c: Config, e: Event)
    ensures Encodable(c, e) <==> EncodedSize(c, e) <= c.maxSize
    ensures EncodedSize(c, e) == e.size || (EncodedSize(c, e) == e.cutSize && e.size > c.maxSize)
  {}

  /** The event reaches the fan-out; `sent` counts it already. */
  predicate Survives(c: Config, sent: nat, e: Event) {
    e.forceFallback || (!e.simulatedLoss && !RateLimited(c, sent, e) && Encodable(c, e))
  }

  /** The outcome that the loss window learns, if any. */
  function Outcome(c: Config, sent: nat, e: Event, route: Route): Option<bool> {
    if e.forceFallback || !Survives(c, sent, e) then Some(false)
    else if EncodedSize(c, e) > c.preferredSize || route == Rerouted then None
    else Some(route == Delivered)
  }

  /** No datagram is tried for the event. */
  predicate Uncarried(c: Config, sent: nat, e: Event) {
    e.forceFallback || !Survives(c, sent, e) || EncodedSize(c, e) > c.preferredSize
  }

  /** The event counts as dropped: it does not survive, or its datagram could not be sent. */
  predicate Lost(c: Config, sent: nat, e: Event, route: Route) {
    !e.forceFallback && (!Survives(c, sent, e) || (!Announced(c, e, route) && route == Broken))
  }

  /** The event is announced as a fallback before it is published. */
  predicate Announced(c: Config, e: Event, route: Route) {
    e.forceFallback || EncodedSize(c, e) > c.preferredSize || route == Rerouted
  }

  class DatagramTransport {
    const config: Config
    var window: seq<bool>
    var sent: nat
    var dropped: nat
    var fallbacks: nat
    var published: seq<Published>

    /** Every outcome recorded, and every event passed in, with the way its send went. */
    ghost var outcomes: seq<bool>
    ghost var inputs: seq<(Event, Route)>

    ghost predicate Valid()
      reads this
    {
      && sent == |inputs| && window == LastOf(outcomes, config.windowSize)
      && outcomes == Outcomes(config, inputs) && published == Publications(config, inputs)
    }

    constructor (config: Config)
      ensures Valid() && this.config == config && inputs == []
    {
      this.config := config;
      window, sent, dropped, fallbacks, published := [], 0, 0, 0, [];
      outcomes, inputs := [], [];
    }

    method RecordLossSample(delivered: bool)
      requires window == LastOf(outcomes, config.windowSize)
      modifies this`window, this`outcomes
      ensures outcomes == old(outcomes) + [delivered] && window == LastOf(outcomes, config.windowSize)
    {
      RecordKeepsLast(config, outcomes, delivered);
      window := window + [delivered];
      if |window| > config.windowSize { window := window[1..]; }
      outcomes := outcomes + [delivered];
    }

    method Lose() returns (status: Status)
      requires window == LastOf(outcomes, config.windowSize)
      modifies this`window, this`outcomes, this`dropped, this`fallbacks
      ensures outcomes == old(outcomes) + [false] && window == LastOf(outcomes, config.windowSize)
      ensures dropped == old(dropped) + 1 && status == if TooLossy(config, window) then FellBack else Dropped
      ensures fallbacks == old(fallbacks) + if status == FellBack then 1 else 0
    {
      RecordLossSample(false);
      dropped := dropped + 1;
      if TooLossy(config, window) {
        fallbacks := fallbacks + 1;
        return FellBack;
      }
      return Dropped;
    }

    /** Publishes a notice and then the event. */
    method FallBack(e: Event)
      modifies this`published
      ensures published == old(published) + [Notice] + [Original(e)]
    {
      published := published + [Notice];
      published := published + [Original(e)];
    }

    method SendEvent(e: Event, route: Route) returns (status: Status)
      requires Valid()
      modifies this
      ensures Valid() && inputs == old(inputs) + [(e, route)]
      ensures published == old(published) + Publication(config, sent, e, route)
      ensures status == if Survives(config, sent, e) && Announced(config, e, route) then FellBack
                        else if !Lost(config, sent, e, route) then Sent
                        else if Survives(config, sent, e) || e.simulatedLoss || RateLimited(config, sent, e)
                        then (if TooLossy(config, window) then FellBack else Dropped)
                        else Dropped
      ensures dropped == old(dropped) + if Lost(config, sent, e, route) then 1 else 0
      ensures fallbacks == old(fallbacks)
                           + if status == FellBack && (route != Rerouted || Uncarried(config, sent, e)) then 1 else 0
    {
      hide TooLossy, RateLimited, LastOf, EncodedSize, Encodable, Publications, Outcomes;
      InputsStep(config, inputs, e, route);
      sent := sent + 1;
      inputs := inputs + [(e, route)];
      if e.forceFallback {
        RecordLossSample(false);
        fallbacks := fallbacks + 1;
        FallBack(e);
        return FellBack;
      }
      if e.simulatedLoss || RateLimited(config, sent, e) {
        status := Lose();
        return;
      }
      if !Encodable(config, e) {
        RecordLossSample(false);
        dropped := dropped + 1;
        return Dropped;
      }
      if EncodedSize(config, e) > config.preferredSize {
        fallbacks := fallbacks + 1;
        FallBack(e);
        return FellBack;
      }
      if route == Rerouted {
        FallBack(e);
        return FellBack;
      }
      if route == Delivered {
        RecordLossSample(true);
        published := published + [Original(e)];
        return Sent;
      }
      published := published + [Original(e)];
      status := Lose();
    }
  }

  /** What one event adds to the published log. */
  function Publication(c: Config, sent: nat, e: Event, route: Route): seq<Published> {
    if !Survives(c, sent, e) then []
    else if Announced(c, e, route) then [Notice, Original(e)]
    else [Original(e)]
  }

  function Publications(c: Config, inputs: seq<(Event, Route)>): seq<Published> {
    if inputs == [] then []
    else
      var last := |inputs| - 1;
      Publications(c, inputs[..last]) + Publication(c, last + 1, inputs[last].0, inputs[last].1)
  }

  function Outcomes(c: Config, inputs: seq<(Event, Route)>): seq<bool> {
    if inputs == [] then []
    else
      var last := |inputs| - 1;
      var o := Outcome(c, last + 1, inputs[last].0, inputs[last].1);
      Outcomes(c, inputs[..last]) + (if o.Some? then [o.value] else [])
  }

  lemma InputsStep(c: Config, inputs: seq<(Event, Route)>, e: Event, route: Route)
    ensures var all := inputs + [(e, route)]; var o := Outcome(c, |inputs| + 1, e, route);
            && Publications(c, all) == Publications(c, inputs) + Publication(c, |inputs| + 1, e, route)
            && Outcomes(c, all) == Outcomes(c, inputs) + (if o.Some? then [o.value] else [])
  {
    assert (inputs + [(e, route)])[..|inputs|] == inputs;
  }

  /** The events that subscribers see. */
  function Originals(log: seq<Published>): seq<Event> {
    if log == [] then []
    else
      var last := |log| - 1;
      Originals(log[..last]) + (if log[last].Original? then [log[last].event] else [])
  }

  lemma {:induction false} OriginalsAppend(a: seq<Published>, b: seq<Published>)
    ensures Originals(a + b) == Originals(a) + Originals(b)
  {
    if b == [] {
      assert a + b == a;
    } else {
      assert (a + b)[..|a + b| - 1] == a + b[..|b| - 1];
      OriginalsAppend(a, b[..|b| - 1]);
    }
  }

  /** The events that were not dropped before the send, in order. */
  function Survivors(c: Config, inputs: seq<(Event, Route)>): seq<Event> {
    if inputs == [] then []
    else
      var last := |inputs| - 1;
      Survivors(c, inputs[..last]) + (if Survives(c, last + 1, inputs[last].0) then [inputs[last].0] else [])
  }

  /** Each event is published exactly once, in order, unless it was dropped before the send. */
  lemma {:induction false} PublishedOnce(c: Config, inputs: seq<(Event, Route)>)
    ensures Originals(Publications(c, inputs)) == Survivors(c, inputs)
  {
    if inputs != [] {
      var last := |inputs| - 1;
      PublishedOnce(c, inputs[..last]);
      var p := Publication(c, last + 1, inputs[last].0, inputs[last].1);
      OriginalsAppend(Publications(c, inputs[..last]), p);
      assert |p| == 2 ==> p[..1] == [Notice] && Originals(p[..1]) == [];
    }
  }

  datatype RunState = Unknown | Running | Done | Broke

  predicate Has(events: seq<Event>, kind: Kind) { exists i :: 0 <= i < |events| && events[i].kind == kind }

  /** The state of a run as a subscriber derives it. */
  function FinalState(events: seq<Event>): RunState {
    if Has(events, RunFailed) then Broke
    else if Has(events, RunCompleted) then Done
    else if Has(events, RunStarted) then Running
    else Unknown
  }

  function EventsIn(inputs: seq<(Event, Route)>): (r: seq<Event>)
    ensures |r| == |inputs| && forall i :: 0 <= i < |r| ==> r[i] == inputs[i].0
  {
    seq(|inputs|, i requires 0 <= i < |inputs| => inputs[i].0)
  }

  predicate Lifecycle(e: Event) { e.kind == RunStarted || e.kind == RunCompleted || e.kind == RunFailed }

  /** Only marking a lifecycle event as lost, or making it too large, keeps it from being published. */
  lemma LifecycleSurvives(c: Config, sent: nat, e: Event)
    requires Lifecycle(e)
    ensures Survives(c, sent, e) <==> e.forceFallback || (!e.simulatedLoss && Encodable(c, e))
  {}

  lemma {:induction false} KindsSurvive(c: Config, inputs: seq<(Event, Route)>, kind: Kind)
    requires forall i :: 0 <= i < |inputs| && inputs[i].0.kind == kind ==> Survives(c, i + 1, inputs[i].0)
    ensures Has(Survivors(c, inputs), kind) <==> Has(EventsIn(inputs), kind)
  {
    if inputs != [] {
      var last := |inputs| - 1;
      KindsSurvive(c, inputs[..last], kind);
      HasAppend(EventsIn(inputs[..last]), inputs[last].0, kind);
      assert EventsIn(inputs) == EventsIn(inputs[..last]) + [inputs[last].0];
      HasAppend(Survivors(c, inputs[..last]), inputs[last].0, kind);
      assert Survivors(c, inputs[..last]) + [] == Survivors(c, inputs[..last]);
    }
  }

  lemma HasAppend(events: seq<Event>, e: Event, kind: Kind)
    ensures Has(events + [e], kind) <==> Has(events, kind) || e.kind == kind
  {
    assert (events + [e])[|events|] == e;
    if Has(events, kind) {
      var i :| 0 <= i < |events| && events[i].kind == kind;
      assert (events + [e])[i].kind == kind;
    }
  }

  /** Transparency: subscribers derive the state of the run that was sent, if no lifecycle event was
      marked as lost or impossible to encode. */
  lemma Transparent(c: Config, inputs: seq<(Event, Route)>)
    requires forall i :: 0 <= i < |inputs| && Lifecycle(inputs[i].0) ==>
               var e := inputs[i].0; e.forceFallback || (!e.simulatedLoss && Encodable(c, e))
    ensures FinalState(Originals(Publications(c, inputs))) == FinalState(EventsIn(inputs))
  {
    PublishedOnce(c, inputs);
    forall i | 0 <= i < |inputs| && Lifecycle(inputs[i].0) ensures Survives(c, i + 1, inputs[i].0) {
      LifecycleSurvives(c, i + 1, inputs[i].0);
    }
    KindsSurvive(c, inputs, RunFailed);
    KindsSurvive(c, inputs, RunCompleted);
    KindsSurvive(c, inputs, RunStarted);
  }
}
