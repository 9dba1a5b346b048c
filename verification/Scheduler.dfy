/** Choice of path: each packet goes to one path, or to two different ones. */
module Scheduler {
  import opened Bytes
  import opened Packets

  const BUCKET: real := 3000.0

  type Paths = seq<seq<Packet>>

  /** The payloads handed to some path. */
  ghost function Handed(paths: Paths): set<Bytes> {
    set i, j | 0 <= i < |paths| && 0 <= j < |paths[i]| :: paths[i][j].payload
  }

  lemma HandedAppend(paths: Paths, i: nat, p: Packet)
    requires i < |paths|
    ensures Handed(paths[i := paths[i] + [p]]) == Handed(paths) + {p.payload}
  {
    var paths' := paths[i := paths[i] + [p]];
    assert paths'[i][|paths[i]|] == p;
    forall w | w in Handed(paths) ensures w in Handed(paths') {
      var x, j :| 0 <= x < |paths| && 0 <= j < |paths[x]| && paths[x][j].payload == w;
      assert paths'[x][j].payload == w;
    }
    forall w | w in Handed(paths') ensures w in Handed(paths) + {p.payload} {
      var x, j :| 0 <= x < |paths'| && 0 <= j < |paths'[x]| && paths'[x][j].payload == w;
      if x != i || j < |paths[i]| { assert paths[x][j].payload == w; }
    }
  }

  /** Every path has kept what it had. */
  ghost predicate Extends(before: Paths, after: Paths) {
    |before| == |after| && forall i :: 0 <= i < |before| ==> before[i] <= after[i]
  }

  /** What was appended to each path. */
  ghost function Appended(before: Paths, after: Paths): (r: Paths)
    requires Extends(before, after)
    ensures |r| == |before| && forall i :: 0 <= i < |r| ==> r[i] == after[i][|before[i]|..]
  {
    seq(|before|, i requires 0 <= i < |before| => after[i][|before[i]|..])
  }

  /** The payloads handed to some path between two states, also those that had been handed out before. */
  ghost function SentBetween(before: Paths, after: Paths): set<Bytes>
    requires Extends(before, after)
  {
    Handed(Appended(before, after))
  }

  function With(paths: Paths, i: nat, p: Packet): Paths
    requires i < |paths|
  {
    paths[i := paths[i] + [p]]
  }

  lemma WithSends(before: Paths, paths: Paths, i: nat, p: Packet)
    requires Extends(before, paths) && i < |paths|
    ensures Extends(before, With(paths, i, p))
    ensures SentBetween(before, With(paths, i, p)) == SentBetween(before, paths) + {p.payload}
  {
    var sent, sent' := Appended(before, paths), Appended(before, With(paths, i, p));
    assert sent'[i] == sent[i] + [p];
    assert sent' == With(sent, i, p);
    HandedAppend(sent, i, p);
  }

  lemma SameCount(before: Paths, after: Paths)
    requires Extends(before, after)
    ensures |before| == |after|
  {}

  lemma NoneSent(paths: Paths)
    ensures Extends(paths, paths) && SentBetween(paths, paths) == {}
  {}

  lemma HandedSplits(before: Paths, after: Paths)
    requires Extends(before, after)
    ensures Handed(after) == Handed(before) + SentBetween(before, after)
  {
    var sent := Appended(before, after);
    forall w | w in Handed(after) ensures w in Handed(before) + Handed(sent) {
      var i, j :| 0 <= i < |after| && 0 <= j < |after[i]| && after[i][j].payload == w;
      if j < |before[i]| { assert before[i][j].payload == w; } else { assert sent[i][j - |before[i]|].payload == w; }
    }
    forall w | w in Handed(before) ensures w in Handed(after) {
      var i, j :| 0 <= i < |before| && 0 <= j < |before[i]| && before[i][j].payload == w;
      assert after[i][j].payload == w;
    }
    forall w | w in Handed(sent) ensures w in Handed(after) {
      var i, j :| 0 <= i < |sent| && 0 <= j < |sent[i]| && sent[i][j].payload == w;
      assert after[i][|before[i]| + j].payload == w;
    }
  }

  lemma ProductNonNegative(a: real, b: real)
    requires a >= 0.0 && b >= 0.0
    ensures a * b >= 0.0
  {
    if a > 0.0 && b > 0.0 { assert a * b > 0.0; }
  }

  /** The paths after a packet was sent. */
  function Delivered(paths: Paths, primary: nat, secondary: Option<nat>, copy: Packet): Paths
    requires primary < |paths| && (secondary.Some? ==> secondary.value < |paths|)
  {
    var first := With(paths, primary, copy);
    if secondary.Some? then With(first, secondary.value, copy) else first
  }

  lemma DeliveredSends(before: Paths, paths: Paths, primary: nat, secondary: Option<nat>, copy: Packet)
    requires Extends(before, paths) && primary < |paths| && (secondary.Some? ==> secondary.value < |paths|)
    ensures var paths' := Delivered(paths, primary, secondary, copy);
            Extends(before, paths') && SentBetween(before, paths') == SentBetween(before, paths) + {copy.payload}
  {
    hide Extends, SentBetween;
    WithSends(before, paths, primary, copy);
    if secondary.Some? { WithSends(before, With(paths, primary, copy), secondary.value, copy); }
  }

  /** The tokens after the credit of the elapsed time, counted up to a tenth of a second, in bytes. */
  function Refilled(tokens: real, elapsed: real, rate: real): real {
    var added := (if elapsed <= 0.1 then elapsed else 0.1) * rate / 8.0;
    if tokens + added <= BUCKET then tokens + added else BUCKET
  }

  /** The tokens after a packet; one larger than the bucket is free. */
  function Spent(tokens: real, size: nat): real {
    if size as real > BUCKET then tokens else if tokens >= size as real then tokens - size as real else 0.0
  }

  /** Within a tenth of a second and the bucket, sending a packet costs exactly what the rate earns for it. */
  lemma PacketPaysForItself(tokens: real, elapsed: real, rate: real, size: nat)
    requires 0.0 <= tokens && 0.0 <= elapsed <= 0.1 && elapsed * rate == 8.0 * size as real
    requires tokens + size as real <= 3000.0
    ensures Spent(Refilled(tokens, elapsed, rate), size) == tokens
  {}

  const LARGE: nat := 128 * 1024
  const MEDIUM: nat := 64 * 1024

  /** What the estimators say about the paths when a packet is sent: a utility and a kind for each path, the utility
      of a second copy, loss and delay on the first path, the parity ratio, the tail penalty, the limits on copies
      in flight, whether copies are suppressed, whether the block is known to be complete, and the time. */
  datatype Outlook = Outlook(
    utilities: seq<real>, datagram: seq<bool>, copyUtility: real, loss: real, delayMs: real, parityRatio: real,
    tail: real, limit: nat, budget: nat, suppressed: bool, known: bool, nowMs: nat, rttMs: nat)

  /** Path `i` comes before path `j`: by utility, then by index. */
  predicate Ranks(utilities: seq<real>, i: nat, j: nat)
    requires i < |utilities| && j < |utilities|
  {
    utilities[i] > utilities[j] || (utilities[i] == utilities[j] && i < j)
  }

  /** The first path in that order, leaving one out. */
  predicate IsBest(utilities: seq<real>, except: Option<nat>, best: nat) {
    && best < |utilities| && Some(best) != except
    && forall i :: 0 <= i < |utilities| && i != best && Some(i) != except ==> Ranks(utilities, best, i)
  }

  lemma RanksOnce(utilities: seq<real>, i: nat, j: nat)
    requires i < |utilities| && j < |utilities|
    ensures !(Ranks(utilities, i, j) && Ranks(utilities, j, i))
  {}

  lemma BestUnique(utilities: seq<real>, except: Option<nat>, a: nat, b: nat)
    requires IsBest(utilities, except, a) && IsBest(utilities, except, b)
    ensures a == b
  {
    RanksOnce(utilities, a, b);
  }

  method PickBest(utilities: seq<real>, except: Option<nat>) returns (best: nat)
    requires exists i :: 0 <= i < |utilities| && Some(i) != except
    ensures IsBest(utilities, except, best)
  {
    var found := false;
    best := 0;
    for i := 0 to |utilities|
      invariant !found ==> forall j :: 0 <= j < i ==> Some(j) == except
      invariant found ==> best < i && Some(best) != except
      invariant found ==> forall j :: 0 <= j < i && j != best && Some(j) != except ==> Ranks(utilities, best, j)
    {
      if Some(i) != except && (!found || utilities[i] > utilities[best]) { found, best := true, i; }
    }
  }

  predicate Critical(p: Packet) { p.priority >= 200 || p.deadline.Some? }

  predicate NearDeadline(p: Packet, nowMs: nat) { p.deadline.Some? && p.deadline.value <= nowMs + 15 }

  function CopyLimit(o: Outlook): nat { if o.tail > 0.0035 then Min(o.limit, 12) else o.limit }

  /** The tail ratio estimate that lets medium packets use datagrams. */
  predicate MediumUnlocked(o: Outlook) { o.loss < 0.01 && 1.0 + o.tail * 80.0 < 1.25 }

  /** A second copy is worth sending, before the path is looked at. */
  predicate CopyWanted(o: Outlook, p: Packet, utility: real, inFlight: nat) {
    var near := NearDeadline(p, o.nowMs);
    && (o.suppressed ==> Critical(p) || near)
    && !(o.loss < 0.02 && o.delayMs < 8.0 && p.size >= LARGE)
    && !(o.parityRatio > 0.24 && p.size >= LARGE)
    && !(p.size >= LARGE && !near)
    && o.copyUtility > utility
    && inFlight < CopyLimit(o)
    && (|| (Critical(p) && (utility < 0.12 || near))
        || (utility < 0.08 && inFlight < CopyLimit(o))
        || (near && 3 * inFlight + 3 <= o.budget))
  }

  /** The parity in use makes a copy superfluous. */
  predicate ParitySuffices(o: Outlook, p: Packet) { o.parityRatio > 0.28 && (o.known || p.size >= LARGE) }

  /** The second path is no place for the packet: a datagram path, and the packet is large or, mostly, medium. */
  predicate Unfit(o: Outlook, p: Packet, utility: real, datagram: bool) {
    && datagram
    && (p.size >= LARGE || (MEDIUM <= p.size < LARGE && (!MediumUnlocked(o) || utility < 0.05)))
  }

  predicate Duplicates(o: Outlook, p: Packet, primary: nat, other: nat, inFlight: nat)
    requires primary < |o.utilities| && other < |o.datagram|
  {
    && CopyWanted(o, p, o.utilities[primary], inFlight) && !ParitySuffices(o, p) && inFlight < o.budget
    && !Unfit(o, p, o.utilities[primary], o.datagram[other])
  }

  /** The best path, or when the scheduler explores the second best, if there is one. */
  ghost predicate IsPrimary(utilities: seq<real>, explore: bool, primary: nat) {
    if explore && |utilities| > 1
    then exists best :: IsBest(utilities, None, best) && IsBest(utilities, Some(best), primary)
    else IsBest(utilities, None, primary)
  }

  /** The best path that is left gets a copy exactly when the rule calls for it. */
  ghost predicate IsSecond(o: Outlook, p: Packet, primary: nat, inFlight: nat, secondary: Option<nat>) {
    && primary < |o.utilities| == |o.datagram|
    && (secondary.Some? ==> IsBest(o.utilities, Some(primary), secondary.value))
    && forall other :: IsBest(o.utilities, Some(primary), other) ==>
         (secondary.Some? <==> Duplicates(o, p, primary, other, inFlight))
  }

  /** There is room for one more copy, and it helps. */
  ghost predicate Worthwhile(o: Outlook, utility: real, inFlight: nat) {
    && o.copyUtility > utility
    && inFlight < o.budget && inFlight < o.limit && (o.tail > 0.0035 ==> inFlight < 12)
  }

  /** What the rule comes to for a packet below 128 KiB that is critical, as every packet is once the scheduler has
      given it a deadline. It is copied when that is worthwhile, its path is poor or its deadline at most 15 ms away,
      and strong parity does not already cover a known block; and from 64 KiB on, over a datagram path, only when
      there is hardly any loss, the tail is short and the path is not among the worst. */
  lemma CopiedInNeed(o: Outlook, p: Packet, primary: nat, other: nat, inFlight: nat)
    requires primary < |o.utilities| && other < |o.datagram| && p.size < 128 * 1024
    requires p.priority >= 200 || p.deadline.Some?
    ensures var utility := o.utilities[primary];
            Duplicates(o, p, primary, other, inFlight) <==>
              && Worthwhile(o, utility, inFlight)
              && (utility < 0.12 || (p.deadline.Some? && p.deadline.value <= o.nowMs + 15))
              && !(o.parityRatio > 0.28 && o.known)
              && (p.size >= 64 * 1024 && o.datagram[other] ==>
                    o.loss < 0.01 && o.tail * 80.0 < 0.25 && utility >= 0.05)
  {}

  /** A packet of 128 KiB or more is copied when that is worthwhile, its deadline is at most 15 ms away, the path is
      lossy or slow, there is little parity, and the second path is a stream. */
  lemma LargeCopiedInNeed(o: Outlook, p: Packet, primary: nat, other: nat, inFlight: nat)
    requires primary < |o.utilities| && other < |o.datagram| && p.size >= 128 * 1024
    ensures Duplicates(o, p, primary, other, inFlight) <==>
              && Worthwhile(o, o.utilities[primary], inFlight)
              && p.deadline.Some? && p.deadline.value <= o.nowMs + 15
              && (o.loss >= 0.02 || o.delayMs >= 8.0) && o.parityRatio <= 0.24 && !o.datagram[other]
  {}

  /** Fewer copies in flight never take a copy away. */
  lemma CopyMonotone(o: Outlook, p: Packet, primary: nat, other: nat, inFlight: nat, fewer: nat)
    requires primary < |o.utilities| && other < |o.datagram| && fewer <= inFlight
    requires Duplicates(o, p, primary, other, inFlight)
    ensures Duplicates(o, p, primary, other, fewer)
  {}

  /** So a large packet is only sent twice near its deadline, with little parity, and over a stream; as the
      scheduler gives every packet of priority below 200 a fresh deadline, those are never. */
  lemma LargeOnlyInNeed(o: Outlook, p: Packet, primary: nat, other: nat, inFlight: nat)
    requires primary < |o.utilities| && other < |o.datagram| && p.size >= LARGE
    requires Duplicates(o, p, primary, other, inFlight)
    ensures NearDeadline(p, o.nowMs) && o.parityRatio <= 0.24 && !o.datagram[other] && inFlight < Min(o.limit, o.budget)
    ensures p.deadline != Some(o.nowMs + o.rttMs + 200)
  {}

  class MultiPathScheduler {
    var paths: Paths
    const duplicateBudget: nat
    var inFlightDuplicates: nat
    var tokens: real

    /** The packets sent so far, in the order of sending. */
    ghost var log: seq<Packet>

    ghost predicate Valid()
      reads this
    {
      0.0 <= tokens <= BUCKET && inFlightDuplicates <= Min(duplicateBudget, 64)
    }

    /** The outlook is about these paths, and its limits are as the estimators clamp them. */
    predicate Fits(o: Outlook)
      reads this
    {
      && |o.utilities| == |o.datagram| == |paths| && 2 <= o.limit <= 64
      && if duplicateBudget == 0 then o.budget == 0 else 1 <= o.budget <= duplicateBudget
    }

    constructor (count: nat, duplicateBudget: nat)
      ensures Valid() && this.duplicateBudget == duplicateBudget && paths == seq(count, _ => []) && Handed(paths) == {}
      ensures log == []
    {
      this.paths := seq(count, _ => []);
      this.duplicateBudget := duplicateBudget;
      this.inFlightDuplicates := 0;
      this.tokens := BUCKET;
      this.log := [];
    }

    /** Adds the credit of the time elapsed since the last call, counted up to a tenth of a second. */
    method RefillTokens(elapsed: real, rate: real)
      requires Valid() && elapsed >= 0.0 && rate >= 0.0
      modifies this`tokens
      ensures Valid() && old(tokens) <= tokens <= BUCKET
      ensures tokens == Refilled(old(tokens), elapsed, rate)
    {
      var counted := if elapsed <= 0.1 then elapsed else 0.1;
      ProductNonNegative(counted, rate);
      var added := counted * rate / 8.0;
      tokens := if tokens + added <= BUCKET then tokens + added else BUCKET;
    }

    /** Never drops the packet. It goes to the best path, or to the second best when the scheduler explores; a
        second copy goes to the best path that is left, exactly when the rule calls for it. */
    method DistributeAndSend(packet: Packet, elapsed: real, rate: real, o: Outlook, explore: bool)
      returns (primary: nat, secondary: Option<nat>, copy: Packet)
      requires Valid() && elapsed >= 0.0 && rate >= 0.0 && Fits(o)
      modifies this
      ensures Valid() && |paths| == old(|paths|)
      ensures copy == if packet.priority >= 200 || old(paths) == [] then packet
                      else packet.(deadline := Some(o.nowMs + o.rttMs + 200))
      ensures old(paths) == [] ==> secondary == None && inFlightDuplicates == old(inFlightDuplicates)
      ensures old(paths) != [] ==>
                && IsPrimary(o.utilities, explore, primary)
                && IsSecond(o, copy, primary, old(inFlightDuplicates), secondary)
      ensures old(paths) != [] ==>
                && primary < |paths| && paths[primary] == old(paths[primary]) + [copy]
                && (secondary.Some? ==> && primary != secondary.value < |paths|
                                        && paths[secondary.value] == old(paths[secondary.value]) + [copy])
                && inFlightDuplicates == old(inFlightDuplicates) + (if secondary.Some? then 1 else 0)
                && (forall i :: 0 <= i < |paths| && i != primary && Some(i) != secondary ==> paths[i] == old(paths[i]))
                && paths == Delivered(old(paths), primary, secondary, copy)
      ensures old(paths) != [] ==> log == old(log) + [copy]
      ensures old(paths) != [] ==> tokens == Spent(Refilled(old(tokens), elapsed, rate), packet.size)
    {
      primary, secondary, copy := 0, None, packet;
      if paths == [] { return; }
      hide Refilled;
      RefillTokens(elapsed, rate);
      if packet.size as real <= BUCKET {
        tokens := if tokens >= packet.size as real then tokens - packet.size as real else 0.0;
      }
      primary := PickPrimary(o.utilities, explore);
      if packet.priority < 200 { copy := packet.(deadline := Some(o.nowMs + o.rttMs + 200)); }
      secondary := PickSecond(o, copy, primary);
      hide Duplicates, IsBest;
      Send(primary, secondary, copy);
    }

    /** The estimators are not modelled: any outlook that fits may come out of them. */
    method SomeOutlook() returns (o: Outlook)
      ensures Fits(o)
    {
      ghost var none := Outlook(seq(|paths|, _ => 0.0), seq(|paths|, _ => false), 0.0, 0.0, 0.0, 0.0, 0.0, 2,
                                if duplicateBudget == 0 then 0 else 1, false, false, 0, 0);
      assert Fits(none);
      o :| Fits(o);
    }

    method PickPrimary(utilities: seq<real>, explore: bool) returns (primary: nat)
      requires utilities != []
      ensures IsPrimary(utilities, explore, primary)
    {
      assert Some(0) != None;
      primary := PickBest(utilities, None);
      if explore && |utilities| > 1 {
        ghost var other := if primary == 0 then 1 else 0;
        assert Some(other) != Some(primary);
        ghost var best := primary;
        primary := PickBest(utilities, Some(primary));
        assert IsBest(utilities, None, best) && IsBest(utilities, Some(best), primary);
      }
    }

    /** The path for a second copy, if there is to be one. */
    method PickSecond(o: Outlook, copy: Packet, primary: nat) returns (secondary: Option<nat>)
      requires Fits(o) && primary < |paths|
      ensures IsSecond(o, copy, primary, inFlightDuplicates, secondary)
    {
      secondary := None;
      if |paths| == 1 { return; }
      ghost var some := if primary == 0 then 1 else 0;
      assert Some(some) != Some(primary);
      var other := PickBest(o.utilities, Some(primary));
      forall x | IsBest(o.utilities, Some(primary), x) ensures x == other {
        BestUnique(o.utilities, Some(primary), x, other);
      }
      var utility := o.utilities[primary];
      var wanted := CopyWanted(o, copy, utility, inFlightDuplicates);
      if wanted && !ParitySuffices(o, copy) && inFlightDuplicates < o.budget {
        if Unfit(o, copy, utility, o.datagram[other]) { wanted := false; }
      } else {
        wanted := false;
      }
      hide CopyWanted, ParitySuffices, Unfit;
      if wanted { secondary := Some(other); }
      assert IsBest(o.utilities, Some(primary), other);
    }

    method Send(primary: nat, secondary: Option<nat>, copy: Packet)
      requires primary < |paths| && (secondary.Some? ==> primary != secondary.value < |paths|)
      modifies this`paths, this`inFlightDuplicates, this`log
      ensures log == old(log) + [copy]
      ensures |paths| == old(|paths|) && paths[primary] == old(paths[primary]) + [copy]
      ensures secondary.Some? ==> paths[secondary.value] == old(paths[secondary.value]) + [copy]
      ensures forall i :: 0 <= i < |paths| && i != primary && Some(i) != secondary ==> paths[i] == old(paths[i])
      ensures inFlightDuplicates == old(inFlightDuplicates) + (if secondary.Some? then 1 else 0)
      ensures paths == Delivered(old(paths), primary, secondary, copy)
    {
      log := log + [copy];
      paths := paths[primary := paths[primary] + [copy]];
      if secondary.Some? {
        paths := paths[secondary.value := paths[secondary.value] + [copy]];
        inFlightDuplicates := inFlightDuplicates + 1;
      }
    }

    method OnFeedbackTick()
      requires Valid()
      modifies this`inFlightDuplicates
      ensures Valid() && inFlightDuplicates == SatSub(old(inFlightDuplicates), 1)
    {
      inFlightDuplicates := SatSub(inFlightDuplicates, 1);
    }
  }
}
