/** The two BBR controllers: their windowed filters against the whole history of acknowledgements. */
module Congestion {
  import opened Bytes

  /** Times and round trips are in microseconds, rates in bits per second. */
  const SECOND: nat := 1_000_000
  const MILLISECOND: nat := 1000

  datatype Sample = Sample(time: int, rate: real)

  ghost predicate Ordered(h: seq<Sample>) {
    forall i, j :: 0 <= i < j < |h| ==> h[i].time <= h[j].time
  }

  /** The samples taken at or after `cutoff`. */
  function Since(h: seq<Sample>, cutoff: int): (r: seq<Sample>)
    ensures |r| <= |h|
  {
    if h == [] then []
    else
      var last := |h| - 1;
      if h[last].time >= cutoff then Since(h[..last], cutoff) + [h[last]] else Since(h[..last], cutoff)
  }

  lemma {:induction false} SinceMembers(h: seq<Sample>, cutoff: int, s: Sample)
    ensures s in Since(h, cutoff) <==> s in h && s.time >= cutoff
  {
    if h != [] {
      var last := |h| - 1;
      assert h == h[..last] + [h[last]];
      SinceMembers(h[..last], cutoff, s);
    }
  }

  lemma SinceAppend(h: seq<Sample>, s: Sample, cutoff: int)
    ensures Since(h + [s], cutoff) == if s.time >= cutoff then Since(h, cutoff) + [s] else Since(h, cutoff)
  {
    assert (h + [s])[..|h|] == h;
  }

  lemma {:induction false} SinceTwice(h: seq<Sample>, a: int, b: int)
    ensures Since(Since(h, a), b) == Since(h, if a >= b then a else b)
  {
    if h != [] {
      var last := |h| - 1;
      SinceTwice(h[..last], a, b);
      if h[last].time >= a { SinceAppend(Since(h[..last], a), h[last], b); }
    }
  }

  lemma {:induction false} SinceOrdered(h: seq<Sample>, cutoff: int)
    requires Ordered(h)
    ensures Ordered(Since(h, cutoff))
  {
    if h != [] {
      var last := |h| - 1;
      SinceOrdered(h[..last], cutoff);
      var r := Since(h[..last], cutoff);
      forall i | 0 <= i < |r| ensures r[i].time <= h[last].time {
        SinceMembers(h[..last], cutoff, r[i]);
        var j :| 0 <= j < last && h[j] == r[i];
      }
    }
  }

  lemma {:induction false} SinceAll(h: seq<Sample>, cutoff: int)
    requires forall i :: 0 <= i < |h| ==> h[i].time >= cutoff
    ensures Since(h, cutoff) == h
  {
    if h != [] {
      var last := |h| - 1;
      SinceAll(h[..last], cutoff);
      assert h == h[..last] + [h[last]];
    }
  }

  lemma {:induction false} SinceDropsFirst(h: seq<Sample>, cutoff: int)
    requires h != [] && h[0].time < cutoff
    ensures Since(h, cutoff) == Since(h[1..], cutoff)
  {
    if |h| > 1 {
      var last := |h| - 1;
      SinceDropsFirst(h[..last], cutoff);
      assert h[..last][1..] == h[1..][..last - 1];
    }
  }

  function MaxRate(h: seq<Sample>): (m: real)
    ensures m >= 0.0
  {
    if h == [] then 0.0
    else
      var m := MaxRate(h[..|h| - 1]);
      if h[|h| - 1].rate > m then h[|h| - 1].rate else m
  }

  /** The folded value is the maximum of the rates and zero. */
  lemma {:induction false} MaxRateIsMaximum(h: seq<Sample>)
    ensures forall i :: 0 <= i < |h| ==> h[i].rate <= MaxRate(h)
    ensures MaxRate(h) == 0.0 || exists i :: 0 <= i < |h| && h[i].rate == MaxRate(h)
  {
    if h != [] {
      var last := |h| - 1;
      MaxRateIsMaximum(h[..last]);
      forall i | 0 <= i < |h| ensures h[i].rate <= MaxRate(h) {
        if i < last { assert h[..last][i] == h[i]; }
      }
      if MaxRate(h) != 0.0 && MaxRate(h) != h[last].rate {
        var i :| 0 <= i < last && h[..last][i].rate == MaxRate(h[..last]);
        assert h[i].rate == MaxRate(h);
      }
    }
  }

  /** Drops samples from the front while they are older than the cutoff. */
  method DropOld(samples: seq<Sample>, cutoff: int) returns (r: seq<Sample>)
    requires Ordered(samples)
    ensures r == Since(samples, cutoff)
  {
    r := samples;
    while r != [] && r[0].time < cutoff
      invariant Ordered(r) && Since(r, cutoff) == Since(samples, cutoff)
      decreases |r|
    {
      SinceDropsFirst(r, cutoff);
      r := r[1..];
    }
    SinceAll(r, cutoff);
  }

  /** The largest rate, folded from zero. */
  method FoldMax(samples: seq<Sample>) returns (m: real)
    ensures m == MaxRate(samples)
  {
    m := 0.0;
    for i := 0 to |samples|
      invariant m == MaxRate(samples[..i])
    {
      assert samples[..i + 1][..i] == samples[..i];
      if samples[i].rate > m { m := samples[i].rate; }
    }
    assert samples[..|samples|] == samples;
  }

  /** The deque holds the history at or after `bound`, up to `clock`. */
  ghost predicate Tracks(samples: seq<Sample>, history: seq<Sample>, bound: int, clock: int) {
    && Ordered(history) && (forall i :: 0 <= i < |history| ==> history[i].time <= clock)
    && samples == Since(history, bound) && bound <= clock
  }

  lemma TracksIs(samples: seq<Sample>, history: seq<Sample>, bound: int, clock: int)
    requires Tracks(samples, history, bound, clock)
    ensures samples == Since(history, bound)
  {}

  function Later(a: int, b: int): int { if a >= b then a else b }

  /** Appends a sample and drops the old ones. */
  method Slide(samples: seq<Sample>, s: Sample, cutoff: int, ghost history: seq<Sample>, ghost bound: int,
          ghost clock: int)
    returns (r: seq<Sample>)
    requires Tracks(samples, history, bound, clock) && clock <= s.time && cutoff <= s.time
    ensures Tracks(r, history + [s], Later(bound, cutoff), s.time)
  {
    SinceAppend(history, s, bound);
    SinceTwice(history + [s], bound, cutoff);
    assert Ordered(history + [s]);
    SinceOrdered(history + [s], bound);
    hide Since;
    r := DropOld(samples + [s], cutoff);
  }

  function Least(rtts: seq<nat>): nat
    requires rtts != []
  {
    if |rtts| == 1 then rtts[0] else Min(Least(rtts[..|rtts| - 1]), rtts[|rtts| - 1])
  }

  lemma {:induction false} LeastIsMinimum(rtts: seq<nat>)
    requires rtts != []
    ensures forall i :: 0 <= i < |rtts| ==> Least(rtts) <= rtts[i]
    ensures exists i :: 0 <= i < |rtts| && rtts[i] == Least(rtts)
  {
    var last := |rtts| - 1;
    if last > 0 {
      LeastIsMinimum(rtts[..last]);
      forall i | 0 <= i < |rtts| ensures Least(rtts) <= rtts[i] {
        if i < last { assert rtts[..last][i] == rtts[i]; }
      }
      if Least(rtts) != rtts[last] {
        var i :| 0 <= i < last && rtts[..last][i] == Least(rtts[..last]);
        assert rtts[i] == Least(rtts);
        return;
      }
    }
    assert rtts[last] == Least(rtts);
  }

  lemma LeastAppend(rtts: seq<nat>, r: nat)
    requires rtts != []
    ensures Least(rtts + [r]) == Min(Least(rtts), r)
  {
    assert (rtts + [r])[..|rtts|] == rtts;
  }

  /** The round trips that count after one more: only the newest when the filter has expired. */
  function NextRtts(rtts: seq<nat>, rtt: nat, expired: bool): seq<nat> { if expired then [rtt] else rtts + [rtt] }

  ghost predicate MinOf(rtts: seq<nat>, minRtt: nat) { rtts != [] && minRtt == Least(rtts) }

  /** One more round trip, in both cases of the filter. */
  lemma MinOfNext(rtts: seq<nat>, minRtt: nat, rtt: nat, expired: bool)
    requires MinOf(rtts, minRtt)
    ensures MinOf(NextRtts(rtts, rtt, expired), if expired then rtt else Min(minRtt, rtt))
  {
    LeastAppend(rtts, rtt);
  }

  function Add<T>(h: seq<T>, x: T): seq<T> { h + [x] }

  datatype QuicState = Startup | Drain | ProbeBw(gain: real) | ProbeRtt(entered: int)

  datatype QuicConfig = QuicConfig(
    initialCwnd: nat, maxSegment: nat, minRttWindow: nat, probeRttDuration: nat,
    startupGain: real, drainGain: real, probeBwGain: real)

  const GAINS: seq<real> := [1.25, 0.75, 1.0, 1.0, 1.0, 1.0, 1.0, 1.0]

  function Scaled(bdp: nat, gain: real): nat {
    var x := (bdp as real * gain).Floor;
    if x >= 0 then x else 0
  }

  /** Bits per second, over at least a microsecond. */
  function DeliveryRate(bytes: nat, micros: nat): real { bytes as real * 8.0 / (Max(micros, 1) as real / SECOND as real) }

  /** The bandwidth-delay product in bytes. */
  function DelayProduct(bandwidth: real, rtt: nat): nat {
    var product := (bandwidth / 8.0 * (rtt as real / SECOND as real)).Floor;
    if product >= 0 then product else 0
  }

  /** `bytes`, for `part` of `whole`, rounded down. */
  function Proportion(bytes: nat, part: nat, whole: nat): nat
    requires whole > 0
  {
    QuotientBounds(bytes * part, whole);
    bytes * part / whole
  }

  /** A rate is in bits per second. */
  lemma RateUnit(bytes: nat)
    ensures DeliveryRate(bytes, 1_000_000) == 8.0 * bytes as real
  {}

  /** A path that carries `bytes` in `micros` holds, over a round trip, that many bytes in proportion. */
  lemma PipeLaw(bytes: nat, micros: nat, rtt: nat)
    requires micros > 0
    ensures DelayProduct(DeliveryRate(bytes, micros), rtt) == Proportion(bytes, rtt, micros)
  {
    var b, m, r, s := bytes as real, micros as real, rtt as real, SECOND as real;
    RateTimesTime(b, m, r, s);
    ProductAsReal(bytes, rtt);
    assert b * r / m == (bytes * rtt) as real / m;
    FloorOfQuotient(bytes * rtt, micros);
    assert DeliveryRate(bytes, micros) / 8.0 * (r / s) == b * r / m;
    QuotientBounds(bytes * rtt, micros);
  }

  lemma RateTimesTime(b: real, m: real, r: real, s: real)
    requires m > 0.0 && s > 0.0
    ensures b * 8.0 / (m / s) / 8.0 * (r / s) == b * r / m
  {
    assert b * 8.0 / (m / s) == 8.0 * (b / (m / s));
    assert b * 8.0 / (m / s) / 8.0 == b / (m / s);
    assert b / (m / s) == b * s / m by { assert (m / s) * (b * s / m) == b by { QuotientLaw(b, m, s); } }
    assert b * s / m * (r / s) == b * r / m by { CancelLaw(b, m, r, s); }
  }

  lemma QuotientLaw(b: real, m: real, s: real)
    requires m > 0.0 && s > 0.0
    ensures (m / s) * (b * s / m) == b
  {
    var x, y := m / s, b * s / m;
    assert x * s == m && y * m == b * s;
    assert x * y * s == y * m;
  }

  lemma CancelLaw(b: real, m: real, r: real, s: real)
    requires m > 0.0 && s > 0.0
    ensures b * s / m * (r / s) == b * r / m
  {
    var x, y := b * s / m, r / s;
    assert x * m == b * s && y * s == r;
    assert x * y * m * s == b * s * r;
    assert x * y * m == b * r;
  }

  lemma ProductAsReal(a: nat, b: nat)
    ensures (a * b) as real == a as real * b as real
  {}

  lemma CancelOrder(a: real, b: real, n: real)
    requires n > 0.0
    ensures a * n <= b * n <==> a <= b
  {
    if a > b { assert (a - b) * n > 0.0; }
    if a < b { assert (b - a) * n > 0.0; }
  }

  lemma FloorOfQuotient(x: nat, n: nat)
    requires n > 0
    ensures (x as real / n as real).Floor == x / n
  {
    QuotientBounds(x, n);
    FloorBetween(x, n, x / n);
  }

  lemma FloorBetween(x: nat, n: nat, q: nat)
    requires n > 0 && q * n <= x < (q + 1) * n
    ensures (x as real / n as real).Floor == q
  {
    ProductAsReal(q, n);
    ProductAsReal(q + 1, n);
    RealBetween(x as real, n as real, q as real, (q + 1) as real);
  }

  lemma RealBetween(x: real, n: real, a: real, b: real)
    requires n > 0.0 && a * n <= x < b * n
    ensures a <= x / n < b
  {
    DividedBack(x, n);
    CancelOrder(a, x / n, n);
    CancelOrder(b, x / n, n);
  }

  lemma QuotientBounds(x: nat, n: nat)
    requires n > 0
    ensures x / n >= 0 && (x / n) * n <= x < (x / n + 1) * n
  {
    assert x == (x / n) * n + x % n;
  }

  lemma DividedBack(x: real, n: real)
    requires n > 0.0
    ensures x / n * n == x
  {}

  lemma SplitProduct(a: nat, n: nat)
    requires n > 0
    ensures a * n <= a * n < (a + 1) * n
  {}

  lemma SameQuotient(x: nat, n: nat, q: nat)
    requires n > 0 && q * n <= x < (q + 1) * n
    ensures x / n == q
  {
    FloorOfQuotient(x, n);
    FloorBetween(x, n, q);
  }

  /** How many rounds in a row, up to the last one, saw no growth. */
  function Trailing(flats: seq<bool>): (n: nat)
    ensures n <= |flats|
  {
    if flats == [] || !flats[|flats| - 1] then 0 else 1 + Trailing(flats[..|flats| - 1])
  }

  /** Three rounds in a row, at some time, saw no growth. */
  ghost predicate ThreeFlat(flats: seq<bool>) {
    exists i :: 2 <= i < |flats| && flats[i - 2] && flats[i - 1] && flats[i]
  }

  lemma TrailingStep(flats: seq<bool>, flat: bool)
    ensures Trailing(flats + [flat]) == if flat then Trailing(flats) + 1 else 0
  {
    assert (flats + [flat])[..|flats|] == flats;
  }

  lemma LastThree(flats: seq<bool>)
    ensures Trailing(flats) >= 3 <==>
      |flats| >= 3 && flats[|flats| - 3] && flats[|flats| - 2] && flats[|flats| - 1]
  {
    if |flats| >= 3 {
      var one := flats[..|flats| - 1];
      var two := one[..|one| - 1];
      assert Trailing(flats) == if flats[|flats| - 1] then 1 + Trailing(one) else 0;
      assert Trailing(one) == if flats[|flats| - 2] then 1 + Trailing(two) else 0;
      assert Trailing(two) >= 1 <==> flats[|flats| - 3];
    }
  }

  lemma ThreeFlatStep(flats: seq<bool>, flat: bool)
    ensures ThreeFlat(flats + [flat]) <==> ThreeFlat(flats) || Trailing(flats + [flat]) >= 3
  {
    var all := flats + [flat];
    LastThree(all);
    hide Trailing;
    forall i | 2 <= i < |flats|
      ensures flats[i - 2] && flats[i - 1] && flats[i] <==> all[i - 2] && all[i - 1] && all[i]
    {
    }
    if ThreeFlat(flats) {
      var i :| 2 <= i < |flats| && flats[i - 2] && flats[i - 1] && flats[i];
      assert all[i - 2] && all[i - 1] && all[i];
    }
    if |all| >= 3 {
      var i := |all| - 1;
      assert all[i - 2] && all[i - 1] && all[i] ==> ThreeFlat(all);
    }
  }

  lemma FewTrailing(flats: seq<bool>)
    requires !ThreeFlat(flats)
    ensures Trailing(flats) < 3
  {
    LastThree(flats);
    if |flats| >= 3 {
      var i := |flats| - 1;
      assert !(flats[i - 2] && flats[i - 1] && flats[i]);
    }
  }

  /** Rounds in a row without growth, in eight bits. */
  function FlatRounds(rounds: nat, flat: bool): nat { if flat then Min(rounds + 1, 255) else 0 }

  /** The window that a state aims at. */
  function QuicTarget(config: QuicConfig, state: QuicState, bdp: nat): nat {
    match state
    case Startup => Scaled(bdp, config.startupGain)
    case Drain => Scaled(bdp, config.drainGain)
    case ProbeBw(gain) => Scaled(bdp, config.probeBwGain * gain)
    case ProbeRtt(_) => Min(bdp, config.initialCwnd)
  }

  /** `n` is the product rounded down. */
  ghost predicate RoundedDown(n: nat, gain: real, bdp: nat) { n as real <= gain * bdp as real < n as real + 1.0 }

  lemma ScaledIs(bdp: nat, gain: real)
    requires gain >= 0.0
    ensures RoundedDown(Scaled(bdp, gain), gain, bdp)
  {
    assert bdp as real * gain >= 0.0;
  }

  lemma ScaledOrder(bdp: nat, a: real, b: real)
    requires 0.0 <= a <= b
    ensures Scaled(bdp, a) <= Scaled(bdp, b) && Scaled(bdp, 1.0) == bdp
  {
    assert bdp as real * (b - a) >= 0.0 && bdp as real * a >= 0.0;
  }

  /** Gains as they are by default: draining shrinks the window, both kinds of probing keep it at the delay product
      or above, and startup grows it most. */
  ghost predicate UsualGains(config: QuicConfig) {
    && 0.0 <= config.drainGain <= 1.0 && config.probeBwGain * 0.75 >= 1.0
    && config.probeBwGain * 1.25 <= config.startupGain
  }

  lemma WindowsOrdered(config: QuicConfig, bdp: nat, cycle: nat, entered: int)
    requires UsualGains(config)
    ensures var probing := QuicTarget(config, ProbeBw(GAINS[cycle % 8]), bdp);
            && QuicTarget(config, Drain, bdp) <= bdp <= probing <= QuicTarget(config, Startup, bdp)
            && RoundedDown(QuicTarget(config, Startup, bdp), config.startupGain, bdp)
            && RoundedDown(QuicTarget(config, Drain, bdp), config.drainGain, bdp)
            && RoundedDown(probing, config.probeBwGain * GAINS[cycle % 8], bdp)
            && QuicTarget(config, ProbeRtt(entered), bdp) <= bdp
            && QuicTarget(config, ProbeRtt(entered), bdp) <= config.initialCwnd
  {
    var gain := config.probeBwGain * GAINS[cycle % 8];
    assert config.probeBwGain * 0.75 <= gain <= config.probeBwGain * 1.25;
    hide Scaled;
    ScaledOrder(bdp, config.drainGain, 1.0);
    ScaledOrder(bdp, 1.0, gain);
    ScaledOrder(bdp, gain, config.startupGain);
    ScaledIs(bdp, config.drainGain);
    ScaledIs(bdp, gain);
    ScaledIs(bdp, config.startupGain);
  }

  /** Over a full cycle the gains even out. */
  lemma GainsEvenOut()
    ensures GAINS[0] + GAINS[1] + GAINS[2] + GAINS[3] + GAINS[4] + GAINS[5] + GAINS[6] + GAINS[7] == 8.0
    ensures forall i :: 0 <= i < 8 ==> GAINS[1] <= GAINS[i] <= GAINS[0]
  {}

  /** The default configuration has the usual gains. */
  lemma DefaultsAreUsual()
    ensures UsualGains(QuicConfig(14520, 1452, 10 * SECOND, 200 * MILLISECOND, 2.885, 0.35, 2.0))
  {}

  /** A round trip not above the minimum is the new minimum. */
  lemma NewMinimum(rtts: seq<nat>, least: nat, rtt: nat, expired: bool, least': nat)
    requires MinOf(rtts, least) && MinOf(NextRtts(rtts, rtt, expired), least')
    ensures rtt <= least ==> least' == rtt
  {
    MinOfNext(rtts, least, rtt, expired);
  }

  /** The only sample in the window gives the bandwidth. */
  lemma OnlySample(samples: seq<Sample>, s: Sample, bound: int, clock: int)
    requires Tracks(samples, [s], bound, clock) && bound <= s.time && s.rate >= 0.0
    ensures MaxRate(samples) == s.rate
  {
    assert [s][..0] == [] && Since([s], bound) == [s];
    assert MaxRate([s]) == s.rate;
  }

  lemma RatePositive(bytes: nat, micros: nat)
    ensures DeliveryRate(bytes, micros) >= 0.0
  {}

  /** What the first acknowledgement makes of the delay product. */
  lemma FirstProduct(before: seq<Sample>, samples: seq<Sample>, history: seq<Sample>, now: int, bytes: nat,
    micros: nat, bound: int, rtt: nat)
    requires Tracks(samples, history, bound, now) && micros > 0
    ensures before == [] && history == Add(before, Sample(now, DeliveryRate(bytes, micros)))
            ==> DelayProduct(MaxRate(samples), rtt) == Proportion(bytes, rtt, micros)
  {
    var s := Sample(now, DeliveryRate(bytes, micros));
    if before == [] && history == Add(before, s) {
      RatePositive(bytes, micros);
      hide DeliveryRate, DelayProduct, Proportion;
      assert history == [s];
      OnlySample(samples, s, bound, now);
      PipeLaw(bytes, micros, rtt);
    }
  }

  lemma WholeQuotient(a: nat, n: nat)
    requires n > 0
    ensures Proportion(a, n, n) == a
  {
    SplitProduct(a, n);
    SameQuotient(a * n, n, a);
  }

  /** The controller of the telemetry transport. */
  class QuicController {
    const config: QuicConfig
    var samples: seq<Sample>
    var maxBandwidth: real
    var minRtt: nat
    var minRttStamp: int
    var state: QuicState
    var cycles: nat
    var cwnd: nat
    var noGrowth: nat

    /** All samples so far, the time of the last one, and the round trips since the last reset. */
    ghost var history: seq<Sample>
    ghost var clock: int
    ghost var rtts: seq<nat>

    /** For each acknowledgement, whether the bandwidth failed to grow by a quarter. */
    ghost var flats: seq<bool>

    const WINDOW: nat := 3 * SECOND

    ghost predicate Valid()
      reads this
    {
      && Tracks(samples, history, clock - WINDOW, clock)
      && maxBandwidth == MaxRate(samples)
      && MinOf(rtts, minRtt)
    }

    /** Startup lasts exactly until three rounds in a row see no growth, and is never entered again; no
        visit to ProbeRtt outlasts its duration. */
    ghost predicate Steady()
      reads this
    {
      && Valid()
      && (state.Startup? <==> !ThreeFlat(flats)) && (state.Startup? ==> noGrowth == Trailing(flats))
      && (state.ProbeRtt? ==> clock - state.entered < Max(config.probeRttDuration, 1))
    }

    constructor (config: QuicConfig, now: int, mtu: nat)
      ensures Steady() && this.config == config && history == [] && clock == now && rtts == [100 * MILLISECOND]
      ensures cwnd == Max(config.initialCwnd, 2 * mtu) && minRttStamp == now && state == Startup && flats == []
    {
      this.config := config;
      samples, maxBandwidth, minRtt, minRttStamp := [], 0.0, 100 * MILLISECOND, now;
      state, cycles, noGrowth := Startup, 0, 0;
      cwnd := Max(config.initialCwnd, 2 * mtu);
      history, clock, rtts, flats := [], now, [100 * MILLISECOND], [];
    }

    /** Keeps exactly the samples of the last three seconds and their maximum. */
    method UpdateBandwidthModel(rate: real, now: int)
      requires Valid() && clock <= now
      modifies this`samples, this`maxBandwidth, this`history, this`clock
      ensures Valid() && clock == now && history == Add(old(history), Sample(now, rate))
      ensures samples == Since(history, now - 3 * SECOND) && maxBandwidth == MaxRate(Since(history, now - 3 * SECOND))
    {
      var s := Sample(now, rate);
      hide Tracks, MaxRate, MinOf;
      samples := Slide(samples, s, now - WINDOW, history, clock - WINDOW, clock);
      maxBandwidth := FoldMax(samples);
      history, clock := history + [s], now;
      TracksIs(samples, history, now - WINDOW, now);
    }

    /** Keeps the smallest round trip since the filter was last reset. */
    method UpdateRttModel(rtt: nat, now: int)
      requires Valid()
      modifies this`minRtt, this`minRttStamp, this`rtts
      ensures Valid()
      ensures rtts == NextRtts(old(rtts), rtt, now - old(minRttStamp) > config.minRttWindow)
      ensures minRttStamp
              == if minRtt != old(minRtt) || now - old(minRttStamp) > config.minRttWindow then now else old(minRttStamp)
    {
      hide Tracks, MaxRate, MinOf, NextRtts;
      MinOfNext(rtts, minRtt, rtt, now - minRttStamp > config.minRttWindow);
      rtts := NextRtts(rtts, rtt, now - minRttStamp > config.minRttWindow);
      if now - minRttStamp > config.minRttWindow {
        minRtt, minRttStamp := rtt, now;
        return;
      }
      if rtt < minRtt { minRtt, minRttStamp := rtt, now; }
    }

    function Bdp(): nat
      reads this
    {
      Max(DelayProduct(maxBandwidth, minRtt), config.initialCwnd)
    }

    method TransitionState(now: int, previous: real)
      modifies this`state, this`noGrowth
      ensures old(state).Startup? ==> noGrowth == FlatRounds(old(noGrowth), maxBandwidth <= previous * 1.25)
      ensures state == match old(state)
                       case Startup => if noGrowth >= 3 then Drain else Startup
                       case Drain => if cwnd <= Bdp() then ProbeBw(1.0) else Drain
                       case ProbeBw(gain) =>
                         if now - minRttStamp >= config.minRttWindow then ProbeRtt(now) else ProbeBw(gain)
                       case ProbeRtt(entered) =>
                         if now - entered >= config.probeRttDuration then ProbeBw(1.0) else ProbeRtt(entered)
    {
      match state {
        case Startup =>
          noGrowth := FlatRounds(noGrowth, maxBandwidth <= previous * 1.25);
          if noGrowth >= 3 { state := Drain; }
        case Drain =>
          if cwnd <= Bdp() { state := ProbeBw(1.0); }
        case ProbeBw(_) =>
          if now - minRttStamp >= config.minRttWindow { state := ProbeRtt(now); }
        case ProbeRtt(entered) =>
          if now - entered >= config.probeRttDuration { state := ProbeBw(1.0); }
      }
    }

    /** The transition keeps what startup and ProbeRtt are. */
    method Transit(now: int, previous: real)
      requires Valid() && clock == now && (state.Startup? <==> !ThreeFlat(flats))
      requires state.Startup? ==> noGrowth == Trailing(flats)
      modifies this`state, this`noGrowth, this`flats
      ensures Steady() && flats == old(flats) + [maxBandwidth <= previous * 1.25]
    {
      hide Tracks, MaxRate, MinOf, ThreeFlat, Trailing;
      ghost var flat := maxBandwidth <= previous * 1.25;
      TrailingStep(flats, flat);
      ThreeFlatStep(flats, flat);
      if !ThreeFlat(flats) { FewTrailing(flats); }
      TransitionState(now, previous);
      flats := flats + [flat];
    }

    /** The window that the state aims at; probing for bandwidth moves to the next gain. */
    method Resize()
      requires Steady()
      modifies this`cwnd, this`state, this`cycles
      ensures Steady() && cwnd == Max(QuicTarget(config, state, Bdp()), 2 * config.maxSegment)
      ensures state.ProbeBw? ==> state.gain == GAINS[old(cycles) % 8] && cycles == (old(cycles) + 1) % 256
    {
      hide Tracks, MaxRate, MinOf, Trailing, ThreeFlat, Scaled, DelayProduct;
      var bdp := Bdp();
      match state {
        case Startup => cwnd := Scaled(bdp, config.startupGain);
        case Drain => cwnd := Scaled(bdp, config.drainGain);
        case ProbeBw(_) =>
          var gain := GAINS[cycles % 8];
          state := ProbeBw(gain);
          cycles := (cycles + 1) % 256;
          cwnd := Scaled(bdp, config.probeBwGain * gain);
        case ProbeRtt(_) => cwnd := Min(bdp, config.initialCwnd);
      }
      cwnd := Max(cwnd, 2 * config.maxSegment);
    }

    method OnAck(now: int, bytes: nat, rtt: nat)
      requires Steady() && clock <= now
      modifies this
      ensures Steady() && clock == now && flats == old(flats) + [maxBandwidth <= old(maxBandwidth) * 1.25]
      ensures history == Add(old(history), Sample(now, DeliveryRate(bytes, rtt)))
      ensures maxBandwidth == MaxRate(Since(history, now - 3 * SECOND))
      ensures cwnd == Max(QuicTarget(config, state, Bdp()), 2 * config.maxSegment)
      ensures state.ProbeBw? ==> state.gain == GAINS[old(cycles) % 8] && cycles == (old(cycles) + 1) % 256
      ensures rtts == NextRtts(old(rtts), rtt, now - old(minRttStamp) > config.minRttWindow)
      ensures old(history) == [] && 0 < rtt <= old(minRtt) ==> Bdp() == Max(bytes, config.initialCwnd)
      ensures state.Drain? && UsualGains(config) && 2 * config.maxSegment <= config.initialCwnd ==> cwnd <= Bdp()
    {
      hide Tracks, MaxRate, MinOf, DeliveryRate, Add, Trailing, ThreeFlat, QuicTarget, DelayProduct, UsualGains, NextRtts;
      var previous := maxBandwidth;
      UpdateBandwidthModel(DeliveryRate(bytes, rtt), now);
      UpdateRttModel(rtt, now);
      Transit(now, previous);
      Resize();
      NewMinimum(old(rtts), old(minRtt), rtt, now - old(minRttStamp) > config.minRttWindow, minRtt);
      if rtt > 0 {
        FirstProduct(old(history), samples, history, now, bytes, rtt, now - WINDOW, rtt);
        WholeQuotient(bytes, rtt);
      }
      if UsualGains(config) { WindowsOrdered(config, Bdp(), 0, 0); }
    }

    /** Loss does not shrink the window; it lets the round trip filter expire. */
    method OnCongestionEvent(now: int)
      requires Steady()
      modifies this`minRttStamp
      ensures Steady() && cwnd == old(cwnd) && minRttStamp == now - config.minRttWindow
    {
      hide Tracks, MaxRate, MinOf;
      minRttStamp := now - config.minRttWindow;
    }

    method OnMtuUpdate(mtu: nat)
      requires Steady()
      modifies this`cwnd
      ensures Steady() && cwnd >= old(cwnd) && cwnd >= 2 * mtu
    {
      hide Tracks, MaxRate, MinOf;
      cwnd := Max(cwnd, 2 * mtu);
    }

    function Window(): (w: nat)
      reads this
      ensures w >= 2 * config.maxSegment && w >= cwnd
    {
      Max(cwnd, 2 * config.maxSegment)
    }
  }

  datatype BbrState = Starting | Draining | ProbingBw | ProbingRtt

  datatype BbrConfig = BbrConfig(
    startupGain: real, drainGain: real, cwndGain: real, probeRttGain: real, initialPackets: nat, headroom: real)

  function StartGain(config: BbrConfig): real { config.startupGain * config.headroom }

  function CycleGain(config: BbrConfig, cycle: nat, appLimited: bool): real {
    config.cwndGain * GAINS[cycle % 8] * (if appLimited then 0.9 else 1.0)
  }

  /** The window that a state aims at; probing for the round trip keeps at least four packets. */
  function BbrTarget(config: BbrConfig, state: BbrState, bdp: nat, mtu: nat, cycle: nat, appLimited: bool): nat {
    match state
    case Starting => Scaled(bdp, StartGain(config))
    case Draining => Scaled(bdp, config.drainGain)
    case ProbingBw => Scaled(bdp, CycleGain(config, cycle, appLimited))
    case ProbingRtt => Max(Scaled(bdp, config.probeRttGain), 4 * mtu)
  }

  /** What an acknowledgement leads to from a state: startup is left after three flat rounds, draining after one
      acknowledgement, and the probe of the round trip 200 ms after the last new minimum. */
  function NextBbr(state: BbrState, rounds: nat, sinceMinimum: int): BbrState {
    match state
    case Starting => if rounds >= 3 then Draining else Starting
    case Draining => ProbingBw
    case ProbingBw => ProbingBw
    case ProbingRtt => if sinceMinimum >= 200 * MILLISECOND then ProbingBw else ProbingRtt
  }

  /** Wherever it is, the controller gets to probing for bandwidth within two acknowledgements, once three rounds were
      flat and the minimum is 200 ms old, and stays there until the round trip filter expires. */
  lemma ReachesProbing(state: BbrState, rounds: nat, since: int, rounds': nat, since': int)
    requires rounds >= 3 && since >= 200_000 && since' >= 200_000
    ensures NextBbr(NextBbr(state, rounds, since), rounds', since') == ProbingBw
    ensures NextBbr(ProbingBw, rounds, since) == ProbingBw
  {}

  /** Before that nothing changes: startup and the probe of the round trip are left for no other reason. */
  lemma StaysUntilDue(rounds: nat, since: int)
    ensures NextBbr(Starting, rounds, since) == Starting <==> rounds < 3
    ensures NextBbr(ProbingRtt, rounds, since) == ProbingRtt <==> since < 200_000
  {}

  /** While probing for bandwidth, the gain moves on once per round trip, and at most every 50 ms. */
  ghost predicate Cycled(state: BbrState, now: nat, minRtt: nat, cycle: nat, cycle': nat, start: int, start': int) {
    if state == ProbingBw && now - start >= minRtt && now - start >= 50 * MILLISECOND
    then start' == now && cycle' == (cycle + 1) % 8
    else start' == start && cycle' == cycle
  }

  ghost predicate UsualBbrGains(config: BbrConfig) {
    && 0.0 <= config.drainGain <= 1.0 && 0.0 <= config.probeRttGain <= 1.0
    && config.cwndGain * 0.75 * 0.9 >= 1.0 && config.cwndGain * 1.25 <= config.startupGain * config.headroom
  }

  lemma BbrDefaultsAreUsual()
    ensures UsualBbrGains(BbrConfig(2.885, 0.35, 2.0, 0.5, 10, 1.0))
  {}

  lemma CycleGainBounds(config: BbrConfig, cycle: nat, appLimited: bool)
    requires UsualBbrGains(config)
    ensures 1.0 <= CycleGain(config, cycle, appLimited) <= StartGain(config) == config.startupGain * config.headroom
    ensures appLimited ==> CycleGain(config, cycle, true) == 0.9 * CycleGain(config, cycle, false)
  {
    var gain := config.cwndGain * GAINS[cycle % 8];
    assert config.cwndGain * 0.75 <= gain <= config.cwndGain * 1.25;
  }

  /** Draining keeps the window at the delay product or below, probing for bandwidth at it or above, and startup
      grows it most. */
  lemma BbrWindowsOrdered(config: BbrConfig, bdp: nat, mtu: nat, cycle: nat, appLimited: bool)
    requires UsualBbrGains(config)
    ensures var probing := BbrTarget(config, ProbingBw, bdp, mtu, cycle, appLimited);
            var starting := BbrTarget(config, Starting, bdp, mtu, cycle, appLimited);
            var draining := BbrTarget(config, Draining, bdp, mtu, cycle, appLimited);
            && draining <= bdp <= probing <= starting
            && RoundedDown(starting, StartGain(config), bdp)
            && RoundedDown(draining, config.drainGain, bdp)
            && RoundedDown(probing, CycleGain(config, cycle, appLimited), bdp)
  {
    CycleGainBounds(config, cycle, appLimited);
    assert 0.0 <= config.drainGain <= 1.0;
    hide Scaled, CycleGain, RoundedDown, UsualBbrGains, StartGain;
    var gain := CycleGain(config, cycle, appLimited);
    ScaledOrder(bdp, config.drainGain, 1.0);
    ScaledOrder(bdp, 1.0, gain);
    ScaledOrder(bdp, gain, StartGain(config));
    ScaledIs(bdp, config.drainGain);
    ScaledIs(bdp, gain);
    ScaledIs(bdp, StartGain(config));
  }

  /** Probing for the round trip shrinks the window, but not below four packets. */
  lemma RestingWindow(config: BbrConfig, bdp: nat, mtu: nat, cycle: nat, appLimited: bool)
    requires 0.0 <= config.probeRttGain <= 1.0
    ensures var resting := BbrTarget(config, ProbingRtt, bdp, mtu, cycle, appLimited);
            && 4 * mtu <= resting && (bdp >= 4 * mtu ==> resting <= bdp)
            && (resting > 4 * mtu ==> RoundedDown(resting, config.probeRttGain, bdp))
  {
    hide Scaled, CycleGain, RoundedDown;
    ScaledOrder(bdp, config.probeRttGain, 1.0);
    ScaledIs(bdp, config.probeRttGain);
  }

  /** The controller of the file transport. */
  class BbrController {
    const config: BbrConfig
    var maxBandwidth: real
    var samples: seq<Sample>
    var minRtt: nat
    var minRttStamp: int
    var state: BbrState
    var cwnd: nat
    var bdp: nat
    var mtu: nat
    var noGrowth: nat
    var cycle: nat
    var lastAck: Option<int>
    var roundStart: int

    /** All samples, the largest cutoff so far, and the round trips since the last reset. */
    ghost var history: seq<Sample>
    ghost var bound: int
    ghost var rtts: seq<nat>

    /** For each acknowledgement, whether the bandwidth failed to grow by a twentieth; and whether the
        round trip filter was ever reset. */
    ghost var flats: seq<bool>
    ghost var reset: bool

    const FILTER: nat := 10 * SECOND

    ghost predicate Valid()
      reads this
    {
      && Tracks(samples, history, bound, if lastAck.Some? then lastAck.value else 0)
      && MinOf(rtts, minRtt)
      && cycle < |GAINS|
    }

    /** Startup lasts exactly until three rounds in a row see no growth or the round trip filter is reset,
        and is never entered again; ProbeRtt lasts less than 200 ms after the last new minimum. */
    ghost predicate Steady()
      reads this
    {
      && Valid()
      && (state == Starting <==> !ThreeFlat(flats) && !reset) && (state == Starting ==> noGrowth == Trailing(flats))
      && (state == ProbingRtt ==> lastAck.Some? && lastAck.value - minRttStamp < 200 * MILLISECOND)
    }

    constructor (config: BbrConfig, now: nat, mtu: nat)
      ensures Steady() && this.config == config && this.mtu == mtu && history == [] && bound == 0 && lastAck == None
      ensures rtts == [100 * MILLISECOND] && state == Starting && flats == [] && !reset
      ensures cwnd == config.initialPackets * mtu && minRttStamp == roundStart == now && cycle == 0
    {
      this.config, this.mtu := config, mtu;
      maxBandwidth, samples, minRtt, minRttStamp := 0.0, [], 100 * MILLISECOND, now;
      state, cwnd, bdp := Starting, config.initialPackets * mtu, config.initialPackets * mtu;
      noGrowth, cycle, lastAck, roundStart := 0, 0, None, now;
      history, bound, rtts, flats, reset := [], 0, [100 * MILLISECOND], [], false;
    }

    /** The time since the last acknowledgement, a millisecond for the first one. */
    function Elapsed(now: nat): nat
      reads this
    {
      if lastAck.None? then MILLISECOND else if now >= lastAck.value then now - lastAck.value else 0
    }

    /** The start of the bandwidth window; the clock cannot go below zero. */
    function Cutoff(now: nat): (c: int)
      reads this
      ensures 0 <= c <= now
      ensures now >= 2 * SECOND && now >= 10 * minRtt ==> c == Min(now - 2 * SECOND, now - 10 * minRtt)
      ensures now < 2 * SECOND || now < 10 * minRtt ==> c == now
    {
      var window := Max(minRtt * 10, 2 * SECOND);
      if now >= window then now - window else now
    }

    /** Keeps the history at or after the largest cutoff so far; the maximum is renewed unless the
        sender was limited by the application. */
    method UpdateBandwidth(rate: real, now: nat, appLimited: bool)
      requires Valid() && (lastAck.Some? ==> lastAck.value <= now)
      modifies this`samples, this`maxBandwidth, this`history, this`bound, this`lastAck
      ensures Valid() && history == Add(old(history), Sample(now, rate)) && lastAck == Some(now)
      ensures bound == Later(old(bound), old(Cutoff(now)))
      ensures maxBandwidth == if appLimited then old(maxBandwidth) else MaxRate(samples)
    {
      var s, cutoff := Sample(now, rate), Cutoff(now);
      hide Tracks, MaxRate, MinOf;
      samples := Slide(samples, s, cutoff, history, bound, if lastAck.Some? then lastAck.value else 0);
      if !appLimited { maxBandwidth := FoldMax(samples); }
      history, lastAck := history + [s], Some(now);
      bound := Later(bound, cutoff);
    }

    method UpdateMinRtt(rtt: nat, now: nat)
      requires Valid()
      modifies this`minRtt, this`minRttStamp, this`rtts, this`state
      ensures Valid()
      ensures rtts == NextRtts(old(rtts), rtt, now - old(minRttStamp) > 10 * SECOND)
      ensures state == if now - old(minRttStamp) > 10 * SECOND then ProbingRtt else old(state)
      ensures minRttStamp
              == if minRtt != old(minRtt) || now - old(minRttStamp) > 10 * SECOND then now else old(minRttStamp)
    {
      hide Tracks, MaxRate, MinOf, NextRtts;
      MinOfNext(rtts, minRtt, rtt, now - minRttStamp > FILTER);
      rtts := NextRtts(rtts, rtt, now - minRttStamp > FILTER);
      if now - minRttStamp > FILTER {
        minRtt, minRttStamp, state := rtt, now, ProbingRtt;
      } else if rtt < minRtt {
        minRtt, minRttStamp := rtt, now;
      }
      minRtt := Min(minRtt, rtt);
    }

    /** The window and the next state, once the estimates are up to date. */
    method Steer(now: nat, previous: real, appLimited: bool)
      requires Valid()
      modifies this`cwnd, this`state, this`noGrowth, this`cycle, this`roundStart
      ensures Valid() && cwnd == BbrTarget(config, old(state), bdp, mtu, cycle, appLimited)
      ensures old(state) == Starting ==> noGrowth == if maxBandwidth <= previous * 1.05 then old(noGrowth) + 1 else 0
      ensures state == NextBbr(old(state), noGrowth, now - minRttStamp)
      ensures Cycled(old(state), now, minRtt, old(cycle), cycle, old(roundStart), roundStart)
    {
      hide Tracks, MaxRate, MinOf, Scaled, StartGain, CycleGain;
      match state {
        case Starting =>
          cwnd := Scaled(bdp, StartGain(config));
          noGrowth := if maxBandwidth <= previous * 1.05 then noGrowth + 1 else 0;
          if noGrowth >= 3 { state := Draining; }
        case Draining =>
          cwnd := Scaled(bdp, config.drainGain);
          state := ProbingBw;
        case ProbingBw =>
          if now - roundStart >= Max(minRtt, 50 * MILLISECOND) {
            roundStart, cycle := now, (cycle + 1) % 8;
          }
          cwnd := Scaled(bdp, CycleGain(config, cycle, appLimited));
        case ProbingRtt =>
          cwnd := Max(Scaled(bdp, config.probeRttGain), 4 * mtu);
          if now - minRttStamp >= 200 * MILLISECOND { state := ProbingBw; }
      }
    }

    /** Brings bandwidth, round trip and their product up to date. */
    method Estimate(bytes: nat, rtt: nat, now: nat, appLimited: bool)
      requires Valid() && (lastAck.Some? ==> lastAck.value <= now)
      modifies this`samples, this`maxBandwidth, this`history, this`bound, this`lastAck, this`minRtt,
              this`minRttStamp, this`rtts, this`state, this`bdp
      ensures Valid() && lastAck == Some(now)
      ensures history == Add(old(history), Sample(now, DeliveryRate(bytes, old(Elapsed(now)))))
      ensures bound == Later(old(bound), old(Cutoff(now)))
      ensures maxBandwidth == if appLimited then old(maxBandwidth) else MaxRate(samples)
      ensures rtts == NextRtts(old(rtts), rtt, now - old(minRttStamp) > 10 * SECOND)
      ensures bdp == Max(DelayProduct(maxBandwidth, minRtt), 4 * mtu)
      ensures state == if now - old(minRttStamp) > 10 * SECOND then ProbingRtt else old(state)
      ensures minRttStamp
              == if minRtt != old(minRtt) || now - old(minRttStamp) > 10 * SECOND then now else old(minRttStamp)
    {
      hide Tracks, MaxRate, MinOf, DeliveryRate, DelayProduct, NextRtts, Add, Later;
      UpdateBandwidth(DeliveryRate(bytes, Elapsed(now)), now, appLimited);
      UpdateMinRtt(rtt, now);
      bdp := Max(DelayProduct(maxBandwidth, minRtt), 4 * mtu);
    }

    /** The choice of the next state keeps what startup and ProbeRtt are. */
    method Settle(now: nat, previous: real, appLimited: bool)
      requires Valid() && lastAck == Some(now)
      requires (state == Starting <==> !ThreeFlat(flats) && !reset) && (state == Starting ==> noGrowth == Trailing(flats))
      modifies this`cwnd, this`state, this`noGrowth, this`cycle, this`roundStart, this`flats
      ensures Steady() && flats == old(flats) + [maxBandwidth <= previous * 1.05]
      ensures cwnd == BbrTarget(config, old(state), bdp, mtu, cycle, appLimited)
      ensures state == NextBbr(old(state), noGrowth, now - minRttStamp)
      ensures Cycled(old(state), now, minRtt, old(cycle), cycle, old(roundStart), roundStart)
    {
      hide Tracks, MaxRate, MinOf, ThreeFlat, Trailing, BbrTarget, Cycled;
      ghost var flat := maxBandwidth <= previous * 1.05;
      TrailingStep(flats, flat);
      ThreeFlatStep(flats, flat);
      if !ThreeFlat(flats) { FewTrailing(flats); }
      Steer(now, previous, appLimited);
      flats := flats + [flat];
    }

    method OnAcked(bytes: nat, rtt: nat, now: nat, appLimited: bool)
      requires Steady() && (lastAck.Some? ==> lastAck.value <= now)
      modifies this
      ensures Steady() && lastAck == Some(now) && mtu == old(mtu)
      ensures flats == old(flats) + [maxBandwidth <= old(maxBandwidth) * 1.05]
      ensures reset == (old(reset) || now - old(minRttStamp) > 10 * SECOND)
      ensures history == Add(old(history), Sample(now, DeliveryRate(bytes, old(Elapsed(now)))))
      ensures bound == Later(old(bound), old(Cutoff(now)))
      ensures maxBandwidth == if appLimited then old(maxBandwidth) else MaxRate(samples)
      ensures rtts == NextRtts(old(rtts), rtt, now - old(minRttStamp) > 10 * SECOND)
      ensures minRttStamp
              == if minRtt != old(minRtt) || now - old(minRttStamp) > 10 * SECOND then now else old(minRttStamp)
      ensures bdp == Max(DelayProduct(maxBandwidth, minRtt), 4 * mtu)
      ensures old(history) == [] && old(lastAck).None? && !appLimited && rtt <= old(minRtt)
              ==> bdp == Max(Proportion(bytes, rtt, MILLISECOND), 4 * mtu)
      ensures var before := if now - old(minRttStamp) > 10 * SECOND then ProbingRtt else old(state);
              && cwnd == BbrTarget(config, before, bdp, mtu, cycle, appLimited)
              && state == NextBbr(before, noGrowth, now - minRttStamp)
              && Cycled(before, now, minRtt, old(cycle), cycle, old(roundStart), roundStart)
    {
      hide Tracks, MaxRate, MinOf, DeliveryRate, DelayProduct, NextRtts, Add, Later, ThreeFlat, Trailing, BbrTarget,
           Cycled, NextBbr, Proportion;
      var previous := maxBandwidth;
      reset := reset || now - minRttStamp > FILTER;
      Estimate(bytes, rtt, now, appLimited);
      NewMinimum(old(rtts), old(minRtt), rtt, now - old(minRttStamp) > FILTER, minRtt);
      FirstProduct(old(history), samples, history, now, bytes, MILLISECOND, bound, rtt);
      Settle(now, previous, appLimited);
    }

    method OnMtuUpdate(mtu: nat)
      requires Steady()
      modifies this`mtu, this`cwnd
      ensures Steady() && this.mtu == mtu && cwnd >= 4 * mtu && cwnd >= old(cwnd)
    {
      hide Tracks, MaxRate, MinOf;
      this.mtu := mtu;
      cwnd := Max(cwnd, 4 * mtu);
    }

    function Window(): (w: nat)
      reads this
      ensures w >= 2 * mtu && w >= cwnd
    {
      Max(cwnd, 2 * mtu)
    }
  }
}
