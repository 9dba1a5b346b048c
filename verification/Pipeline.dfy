/** A batch through the pipeline: schedule, prioritise, add parity, choose paths. */
module Pipeline {
  import opened Bytes
  import opened Arith
  import opened Wire
  import opened ReedSolomon
  import opened Source
  import opened Safety
  import opened Packets
  import opened Encoder
  import opened Collect
  import opened Protection
  import opened Collector
  import opened Optimizer
  import opened Scheduler

  /** The parity count for group `g`: one more for stragglers, never above the cap. */
  function ParityFor(base: Fec, cap: nat, stragglers: set<nat>, g: nat): (p: nat)
    ensures Min(base.parityShards, cap) <= p <= Min(base.parityShards + 1, cap)
    ensures p > base.parityShards
            <==> g in stragglers && base.parityShards < cap && base.parityShards < base.dataShards / 2
  {
    if cap == 0 then 0
    else if g in stragglers then Min(Max(Min(base.parityShards + 1, base.dataShards / 2), base.parityShards), cap)
    else Min(base.parityShards, cap)
  }

  function NotLater(a: Option<nat>, b: Option<nat>): bool {
    b.None? || (a.Some? && a.value <= b.value)
  }

  /** Higher priority first, then the earlier deadline. */
  function Ahead(a: Packet, b: Packet): bool {
    || a.priority > b.priority
    || (a.priority == b.priority && NotLater(a.deadline, b.deadline))
  }

  /** By priority, and within one priority by deadline. */
  ghost predicate ByPriority(ps: seq<Packet>) {
    forall i, j :: 0 <= i < j < |ps| ==>
      || ps[i].priority > ps[j].priority
      || (ps[i].priority == ps[j].priority
          && (ps[j].deadline.Some? ==> ps[i].deadline.Some? && ps[i].deadline.value <= ps[j].deadline.value))
  }

  lemma SortsByPriority(ps: seq<Packet>)
    ensures ByPriority(Sort(ps, Ahead))
  {
    assert IsOrder(Ahead);
    SortArranges(ps, Ahead);
    var r := Sort(ps, Ahead);
    assert forall i, j :: 0 <= i < j < |r| ==> Ahead(r[i], r[j]);
  }

  /** What the batch was sent as: `order` holds each packet still needed, by priority, and the output follows it group
      by group. */
  ghost predicate UrgencyKept(n: nat, batch: seq<Packet>, completed: set<nat>, order: seq<Packet>, out: seq<Packet>,
          marks: seq<nat>) {
    && ByPriority(order) && OnceOrTwice(multiset(Kept(batch, completed)), multiset(order))
    && Prompt(n, order, out, marks)
  }

  /** The packets of `out` were sent one after the other; only their deadlines may differ. */
  ghost predicate SentInOrder(before: seq<Packet>, after: seq<Packet>, out: seq<Packet>) {
    && before <= after && |after| == |before| + |out|
    && forall i :: 0 <= i < |out| ==> after[|before| + i].(deadline := out[i].deadline) == out[i]
  }

  lemma NothingInOrder(log: seq<Packet>, out: seq<Packet>)
    ensures SentInOrder(log, log, out[..0])
  {}

  lemma OneMoreSent(before: seq<Packet>, after: seq<Packet>, out: seq<Packet>, i: nat, copy: Packet)
    requires i < |out| && SentInOrder(before, after, out[..i]) && copy.(deadline := out[i].deadline) == out[i]
    ensures SentInOrder(before, after + [copy], out[..i + 1])
  {
    var after', was, now := after + [copy], out[..i], out[..i + 1];
    forall j | 0 <= j < |now| ensures after'[|before| + j].(deadline := now[j].deadline) == now[j] {
      if j < i { assert after'[|before| + j] == after[|before| + j] && was[j] == now[j]; }
    }
  }

  /** Every packet of group `g` has a higher priority than every packet of group `h` with number `q`. */
  ghost predicate MoreUrgent(ps: seq<Packet>, g: nat, h: nat, q: nat) {
    forall x, y :: x in ps && y in ps && x.group == g && y.group == h && y.number == q ==> x.priority > y.priority
  }

  /** Urgent groups first: a group whose packets all come before some packet that another group cannot do without is
      sent before anything of that group. */
  lemma UrgentFirst(n: nat, order: seq<Packet>, out: seq<Packet>, marks: seq<nat>, g: nat, h: nat, q: nat)
    returns (k: nat)
    requires ByPriority(order) && Prompt(n, order, out, marks) && WholeGroup(n, order, g) && g != h
    requires Mul(h, n) <= q < Mul(h, n) + n
    requires MoreUrgent(order, g, h, q)
    ensures k <= |out| && WholeGroup(n, out[..k], g) && forall x :: x in out[..k] ==> x.group != h
  {
    var j := FirstOfNumber(order, h, q);
    hide Prompt;
    AllBefore(n, order, g, h, q, j);
    PromptAt(n, order, out, marks, j);
    k := marks[j];
    assert !HasPacket(order[..j], h, q);
  }

  lemma PromptAt(n: nat, input: seq<Packet>, out: seq<Packet>, marks: seq<nat>, j: nat)
    requires Prompt(n, input, out, marks) && j <= |input|
    ensures |marks| == |input| + 1 && marks[j] <= |out| && InStep(n, input[..j], out[..marks[j]])
  {}

  lemma FirstOfNumber(ps: seq<Packet>, h: nat, q: nat) returns (j: nat)
    ensures j <= |ps| && !HasPacket(ps[..j], h, q) && (j < |ps| ==> ps[j].group == h && ps[j].number == q)
  {
    j := 0;
    while j < |ps| && !(ps[j].group == h && ps[j].number == q)
      invariant j <= |ps| && !HasPacket(ps[..j], h, q)
    {
      assert ps[..j + 1] == ps[..j] + [ps[j]];
      j := j + 1;
    }
  }

  lemma AllBefore(n: nat, order: seq<Packet>, g: nat, h: nat, q: nat, j: nat)
    requires ByPriority(order) && WholeGroup(n, order, g) && g != h
    requires j <= |order| && (j < |order| ==> order[j].group == h && order[j].number == q)
    requires MoreUrgent(order, g, h, q)
    ensures WholeGroup(n, order[..j], g)
  {
    forall x: nat | Mul(g, n) <= x < Mul(g, n) + n ensures HasPacket(order[..j], g, x) {
      assert HasPacket(order, g, x);
      var i :| 0 <= i < |order| && order[i].number == x && order[i].group == g;
      assert order[i] in order && (j < |order| ==> order[j] in order);
      assert i < j;
      assert order[..j][i] == order[i];
    }
  }

  ghost predicate AllData(t: Transfer, ps: seq<Packet>)
    requires t.chunkSize > 0 && t.dataShards > 0
  {
    forall i :: 0 <= i < |ps| ==> IsDataPacket(t, ps[i])
  }

  ghost predicate AllPlain(t: Transfer, ps: seq<Packet>)
    requires t.dataShards > 0
  {
    forall i :: 0 <= i < |ps| ==> IsPlainPacket(t, ps[i])
  }

  lemma DataIsPlain(t: Transfer, ps: seq<Packet>)
    requires Valid(t) && AllData(t, ps)
    ensures AllPlain(t, ps)
  {
    NumChunksBounded(t);
    hide Lawful, DataFrame, NumChunks;
    assert t.dataShards <= MAX_SHARDS;
  }

  lemma PlainFiled(t: Transfer, p: Packet)
    requires t.dataShards > 0 && IsPlainPacket(t, p)
    ensures Filed(t.dataShards, p)
  {
    hide DataFrame;
  }

  lemma OptimizedPackets(packets: seq<Packet>, completed: set<nat>, out: seq<Packet>, p: Packet)
    requires OnceOrTwice(multiset(Kept(packets, completed)), multiset(out))
    ensures p in out <==> p in packets && p.group !in completed
  {
    assert p in out <==> multiset(out)[p] > 0;
    assert p in Kept(packets, completed) <==> multiset(Kept(packets, completed))[p] > 0;
  }

  lemma {:induction false} IncreasingInRange(ps: seq<Packet>, lo: nat, k: nat)
    requires Increasing(ps) && k <= |ps| && forall i :: 0 <= i < |ps| ==> lo <= ps[i].number
    ensures forall i :: 0 <= i < k ==> lo + i <= ps[i].number
  {
    if k > 0 {
      IncreasingInRange(ps, lo, k - 1);
      if k > 1 { assert ps[k - 2].number < ps[k - 1].number; }
    }
  }

  lemma {:induction false} IncreasingBelow(ps: seq<Packet>, hi: nat, k: nat)
    requires Increasing(ps) && k <= |ps| && forall i :: 0 <= i < |ps| ==> ps[i].number < hi
    ensures forall i :: |ps| - k <= i < |ps| ==> ps[i].number + (|ps| - i) <= hi
  {
    if k > 0 {
      IncreasingBelow(ps, hi, k - 1);
      var j := |ps| - k;
      if k > 1 { assert ps[j].number < ps[j + 1].number; }
    }
  }

  /** A full block, sorted by number, is the block of its group. */
  lemma SortedFullBlock(t: Transfer, g: nat, block: seq<Packet>)
    requires Valid(t) && FullBlock(t.dataShards, g, block) && AllData(t, block)
    ensures GroupBlock(t, g, SortByNumber(block))
  {
    hide Lawful, IsDataPacket, NumChunks, Filed;
    var n, sorted := t.dataShards, SortByNumber(block);
    assert |multiset(sorted)| == |sorted| && |multiset(block)| == |block|;
    SortIncreasing(block);
    forall i | 0 <= i < n ensures IsDataPacket(t, sorted[i]) && Mul(g, n) <= sorted[i].number < Mul(g, n) + n {
      assert sorted[i] in multiset(block);
      var j :| 0 <= j < |block| && block[j] == sorted[i];
      GroupBounds(n, g, block[j]);
    }
    IncreasingInRange(sorted, Mul(g, n), n);
    IncreasingBelow(sorted, Mul(g, n) + n, n);
  }

  /** Parity of a full block of data packets is parity of the transfer. */
  lemma BlockParity(t: Transfer, g: nat, block: seq<Packet>, p: nat, x: Packet)
    requires Valid(t) && FullBlock(t.dataShards, g, block) && AllData(t, block) && p <= t.parityShards
    requires x in Encoded(t.codecs, Fec(t.dataShards, p), block) && x.isParity
    ensures IsParityPacket(t, p, x)
  {
    var sorted := SortByNumber(block);
    SortedFullBlock(t, g, block);
    if p == 0 {
      NotParity(t, block, x);
    } else {
      OrderIndependent(t.codecs, Fec(t.dataShards, p), block, sorted);
      EncodedHonest(t, g, sorted, p);
      hide Encoded, GroupBlock, FullBlock, IsParityPacket;
      assert SentFor(t, g, sorted, p, x);
    }
  }

  lemma NotParity(t: Transfer, block: seq<Packet>, x: Packet)
    requires Valid(t) && AllData(t, block) && x in block
    ensures !x.isParity
  {
    var i :| 0 <= i < |block| && block[i] == x;
    assert IsDataPacket(t, block[i]);
  }

  lemma BlockIsData(t: Transfer, input: seq<Packet>, block: seq<Packet>)
    requires Valid(t) && AllData(t, input) && forall y :: y in block ==> y in input
    ensures AllData(t, block)
  {
    forall i | 0 <= i < |block| ensures IsDataPacket(t, block[i]) {
      assert block[i] in input;
      var j :| 0 <= j < |input| && input[j] == block[i];
    }
  }

  /** Every packet that leaves the parity stage is one the sender may send. */
  lemma StageHonest(t: Transfer, parityFor: nat -> nat, input: seq<Packet>, out: seq<Packet>, x: Packet)
    requires Valid(t) && AllData(t, input) && Conserved(t.codecs, t.dataShards, parityFor, input, out) && x in out
    requires forall g :: parityFor(g) <= t.parityShards
    ensures if x.isParity then IsParityPacket(t, parityFor(x.group), x) && GroupInBatch(t, input, x.group) else x in input
  {
    assert OutInv(t.codecs, t.dataShards, parityFor, input, x);
    if x.isParity {
      var block :| && FullBlock(t.dataShards, x.group, block) && (forall y :: y in block ==> y in input)
                   && x in Encoded(t.codecs, Fec(t.dataShards, parityFor(x.group)), block);
      BlockIsData(t, input, block);
      hide Encoded, FullBlock, IsParityPacket, AllData, Conserved, GroupInBatch;
      BlockParity(t, x.group, block, parityFor(x.group), x);
      BlockIsWhole(t, input, x.group, block);
    }
  }

  /** A full block has a packet of every chunk of its group. */
  lemma BlockIsWhole(t: Transfer, input: seq<Packet>, g: nat, block: seq<Packet>)
    requires Valid(t) && FullBlock(t.dataShards, g, block) && AllData(t, block) && forall y :: y in block ==> y in input
    ensures GroupInBatch(t, input, g)
  {
    SortedFullBlock(t, g, block);
    hide FullBlock, AllData, Lawful, NumChunks, DataFrame;
    var sorted := SortByNumber(block);
    forall slot | 0 <= slot < t.dataShards ensures HasPacket(input, g, ChunkAt(t, g, slot)) {
      var x := sorted[slot];
      assert x in multiset(sorted) && x in block;
      GroupOfChunk(t, g, slot);
      assert IsDataPacket(t, x);
      var i :| 0 <= i < |input| && input[i] == x;
    }
  }

  /** The batch has the chunks that the frame is made from, its group is not completed, and it is one of at most
      `cap` parity frames. */
  ghost predicate MadeFrom(t: Transfer, batch: seq<Packet>, completed: set<nat>, cap: nat, key: Key)
    requires t.dataShards > 0
  {
    && GroupOf(t, key) !in completed
    && match key
       case Data(i) => InBatch(batch, i)
       case Parity(g, _, p) => p <= cap && GroupInBatch(t, batch, g)
  }

  /** A frame of the transfer that the batch gives rise to. */
  ghost predicate SentFrom(t: Transfer, batch: seq<Packet>, completed: set<nat>, cap: nat, wire: Bytes)
    requires Valid(t)
  {
    exists key :: IsKey(t, key) && MadeFrom(t, batch, completed, cap, key) && wire == FrameOf(t, key)
  }

  ghost predicate InBatch(ps: seq<Packet>, i: nat) { exists j :: 0 <= j < |ps| && ps[j].number == i }

  lemma SubBatch(t: Transfer, ps: seq<Packet>, batch: seq<Packet>, completed: set<nat>, cap: nat, wire: Bytes)
    requires Valid(t) && AllPlain(t, ps) && SentFrom(t, ps, {}, cap, wire) && Selected(batch, completed, ps)
    ensures SentFrom(t, batch, completed, cap, wire)
  {
    hide FrameOf, IsKey, Lawful, DataFrame;
    var key :| IsKey(t, key) && MadeFrom(t, ps, {}, cap, key) && wire == FrameOf(t, key);
    match key {
      case Data(i) =>
        var j :| 0 <= j < |ps| && ps[j].number == i;
        assert IsPlainPacket(t, ps[j]) && ps[j] in ps;
        var x :| 0 <= x < |batch| && batch[x] == ps[j];
        assert batch[x].number == i;
      case Parity(g, _, _) =>
        assert HasPacket(ps, g, ChunkAt(t, g, 0));
        forall slot | 0 <= slot < t.dataShards ensures HasPacket(batch, g, ChunkAt(t, g, slot)) {
          assert HasPacket(ps, g, ChunkAt(t, g, slot));
          var j :| 0 <= j < |ps| && ps[j].number == ChunkAt(t, g, slot) && ps[j].group == g;
          assert ps[j] in ps;
          var x :| 0 <= x < |batch| && batch[x] == ps[j];
        }
    }
    assert MadeFrom(t, batch, completed, cap, key);
  }

  /** Every number that enters the parity stage leaves it, with the same payload. */
  lemma StageKeeps(t: Transfer, parityFor: nat -> nat, input: seq<Packet>, out: seq<Packet>, p: Packet)
    returns (x: Packet)
    requires Valid(t) && AllPlain(t, input) && Conserved(t.codecs, t.dataShards, parityFor, input, out) && p in input
    ensures x in out && x.payload == p.payload
  {
    hide IsPlainPacket, OutInv;
    var i :| 0 <= i < |input| && input[i] == p;
    assert IsPlainPacket(t, p);
    PayloadOfNumber(t, p);
    CopiesPositive(input, p.number);
    CopiesPositive(out, p.number);
    var j :| 0 <= j < |out| && !out[j].isParity && out[j].number == p.number;
    x := out[j];
    assert OutInv(t.codecs, t.dataShards, parityFor, input, x);
    SamePayload(t, parityFor, input, x, p);
  }

  lemma PayloadOfNumber(t: Transfer, p: Packet)
    requires Valid(t) && IsPlainPacket(t, p)
    ensures !p.isParity && p.payload == DataFrame(t, p.number)
  {}

  lemma SamePayload(t: Transfer, parityFor: nat -> nat, input: seq<Packet>, x: Packet, p: Packet)
    requires Valid(t) && AllPlain(t, input) && OutInv(t.codecs, t.dataShards, parityFor, input, x)
    requires !x.isParity && x.number == p.number && IsPlainPacket(t, p)
    ensures x.payload == p.payload
  {
    var i :| 0 <= i < |input| && input[i] == x;
    assert IsPlainPacket(t, input[i]);
  }

  /** Every packet of a group not completed is among what was sent. */
  ghost predicate BatchCovered(batch: seq<Packet>, completed: set<nat>, sent: set<Bytes>) {
    forall i :: 0 <= i < |batch| && batch[i].group !in completed ==> batch[i].payload in sent
  }

  /** The batch is out: every packet of a group not completed was handed to a path, and nothing else
      than data frames of the batch and parity frames of groups that are whole in it, none of them of a
      completed group. */
  ghost predicate BatchSent(t: Transfer, batch: seq<Packet>, completed: set<nat>, cap: nat, sent: set<Bytes>)
    requires Valid(t)
  {
    && BatchCovered(batch, completed, sent)
    && (forall w :: w in sent ==> SentFrom(t, batch, completed, cap, w))
  }

  lemma PacketSent(t: Transfer, input: seq<Packet>, most: nat, cap: nat, x: Packet)
    requires Valid(t) && most <= cap <= t.parityShards
    requires (IsDataPacket(t, x) && x in input) || (IsParityPacket(t, most, x) && GroupInBatch(t, input, x.group))
    ensures SentFrom(t, input, {}, cap, x.payload)
  {
    hide GroupInBatch, Lawful;
    if IsParityPacket(t, most, x) && GroupInBatch(t, input, x.group) {
      var rows :| x.parityIndex < rows <= most && x.payload == ParityFrame(t, x.group, x.parityIndex, rows);
      var key := Parity(x.group, x.parityIndex, rows);
      assert IsKey(t, key) && MadeFrom(t, input, {}, cap, key) && x.payload == FrameOf(t, key);
    } else {
      var key := Data(x.number);
      var i :| 0 <= i < |input| && input[i] == x;
      assert IsKey(t, key) && MadeFrom(t, input, {}, cap, key) && x.payload == FrameOf(t, key);
    }
  }

  lemma StageSent(t: Transfer, parityFor: nat -> nat, cap: nat, input: seq<Packet>, out: seq<Packet>, x: Packet)
    requires Valid(t) && AllData(t, input) && Conserved(t.codecs, t.dataShards, parityFor, input, out) && x in out
    requires cap <= t.parityShards && forall g :: parityFor(g) <= cap
    ensures SentFrom(t, input, {}, cap, x.payload)
  {
    hide IsParityPacket, IsDataPacket, Conserved, SentFrom, GroupInBatch;
    StageHonest(t, parityFor, input, out, x);
    if !x.isParity {
      var i :| 0 <= i < |input| && input[i] == x;
      assert IsDataPacket(t, input[i]);
    }
    PacketSent(t, input, parityFor(x.group), cap, x);
  }

  /** The packets that go into the parity stage. */
  ghost predicate Selected(batch: seq<Packet>, completed: set<nat>, ps: seq<Packet>) {
    forall x :: x in ps <==> x in batch && x.group !in completed
  }

  lemma Scheduled(t: Transfer, batch: seq<Packet>, completed: set<nat>, optimized: seq<Packet>, ps: seq<Packet>)
    requires Valid(t) && AllPlain(t, batch) && multiset(ps) == multiset(optimized)
    requires OnceOrTwice(multiset(Kept(batch, completed)), multiset(optimized))
    ensures Selected(batch, completed, ps) && AllPlain(t, ps) && AllFiled(t.dataShards, ps)
    ensures AllData(t, batch) ==> AllData(t, ps)
  {
    hide IsDataPacket, IsPlainPacket, Filed, OnceOrTwice, Lawful;
    forall x ensures x in ps <==> x in batch && x.group !in completed {
      OptimizedPackets(batch, completed, optimized, x);
      assert x in ps <==> x in multiset(ps);
    }
    if AllData(t, batch) { BlockIsData(t, batch, ps); }
    forall i | 0 <= i < |ps| ensures IsPlainPacket(t, ps[i]) && Filed(t.dataShards, ps[i]) {
      assert ps[i] in batch;
      var j :| 0 <= j < |batch| && batch[j] == ps[i];
      PlainFiled(t, ps[i]);
    }
  }

  lemma BatchOut(t: Transfer, parityFor: nat -> nat, cap: nat, batch: seq<Packet>, completed: set<nat>, ps: seq<Packet>,
          out: seq<Packet>, sent: set<Bytes>)
    requires Valid(t) && AllPlain(t, ps) && Selected(batch, completed, ps)
    requires Conserved(t.codecs, t.dataShards, parityFor, ps, out) && forall x :: x in out ==> x.payload in sent
    ensures BatchCovered(batch, completed, sent)
    ensures (forall w :: w in sent ==> SentFrom(t, ps, {}, cap, w)) ==> BatchSent(t, batch, completed, cap, sent)
  {
    hide Conserved, AllPlain, SentFrom;
    if forall w :: w in sent ==> SentFrom(t, ps, {}, cap, w) {
      forall w | w in sent ensures SentFrom(t, batch, completed, cap, w) { SubBatch(t, ps, batch, completed, cap, w); }
    }
    forall i | 0 <= i < |batch| && batch[i].group !in completed ensures batch[i].payload in sent {
      assert batch[i] in ps;
      var x := StageKeeps(t, parityFor, ps, out, batch[i]);
    }
  }

  /** All `p` parity frames of group `g` were handed out. */
  ghost predicate ParityHanded(t: Transfer, g: nat, p: nat, handed: set<Bytes>)
    requires 0 < t.dataShards && p <= t.parityShards && t.dataShards + t.parityShards <= MAX_SHARDS
  {
    forall i :: 0 <= i < p ==> ParityFrame(t, g, i, p) in handed
  }

  /** The batch has a packet of every chunk of group `g`. */
  ghost predicate GroupInBatch(t: Transfer, batch: seq<Packet>, g: nat) {
    forall slot :: 0 <= slot < t.dataShards ==> HasPacket(batch, g, ChunkAt(t, g, slot))
  }

  /** Every group that is whole in the batch and not completed goes out with `least` parity frames or more. */
  ghost predicate GroupsProtected(t: Transfer, batch: seq<Packet>, completed: set<nat>, least: nat, handed: set<Bytes>)
    requires Valid(t)
  {
    forall g :: FullGroup(t, g) && g !in completed && GroupInBatch(t, batch, g) ==>
      exists p :: least <= p <= t.parityShards && ParityHanded(t, g, p, handed)
  }

  /** A block that was encoded and sent puts its group's parity on the paths. */
  lemma BlockHanded(t: Transfer, g: nat, block: seq<Packet>, p: nat, handed: set<Bytes>, i: nat)
    requires Valid(t) && FullBlock(t.dataShards, g, block) && AllData(t, block) && i < p <= t.parityShards
    requires forall x :: x in Encoded(t.codecs, Fec(t.dataShards, p), block) ==> x.payload in handed
    ensures ParityFrame(t, g, i, p) in handed
  {
    var sorted := SortByNumber(block);
    SortedFullBlock(t, g, block);
    OrderIndependent(t.codecs, Fec(t.dataShards, p), block, sorted);
    EncodedGroup(t, g, sorted, p);
    GroupParity(t, g, sorted, p, i);
    assert |sorted| == t.dataShards && t.dataShards + p <= MAX_SHARDS;
    hide *;
    var parity := ParityPackets(t.codecs, sorted, p);
    assert parity[i] in sorted + parity;
  }

  lemma WholeInStage(t: Transfer, batch: seq<Packet>, completed: set<nat>, ps: seq<Packet>, g: nat)
    requires Valid(t) && Selected(batch, completed, ps) && FullGroup(t, g) && g !in completed && GroupInBatch(t, batch, g)
    ensures WholeGroup(t.dataShards, ps, g)
  {
    var n := t.dataShards;
    NumChunksBounded(t);
    assert Mul(g + 1, n) == Mul(g, n) + n;
    forall q: nat | Mul(g, n) <= q < Mul(g, n) + n ensures HasPacket(ps, g, q) {
      assert HasPacket(batch, g, ChunkAt(t, g, q - Mul(g, n)));
      var i :| 0 <= i < |batch| && batch[i].number == q && batch[i].group == g;
      assert batch[i] in ps;
      var j :| 0 <= j < |ps| && ps[j] == batch[i];
    }
  }

  lemma GroupHanded(t: Transfer, parityFor: nat -> nat, ps: seq<Packet>, out: seq<Packet>, handed: set<Bytes>, g: nat)
    requires Valid(t) && AllData(t, ps) && BlockSent(t.codecs, t.dataShards, parityFor, ps, out, g)
    requires parityFor(g) <= t.parityShards && forall x :: x in out ==> x.payload in handed
    ensures ParityHanded(t, g, parityFor(g), handed)
  {
    var p := parityFor(g);
    var block :| && FullBlock(t.dataShards, g, block) && (forall y :: y in block ==> y in ps)
                 && forall x :: x in Encoded(t.codecs, Fec(t.dataShards, p), block) ==> x in out;
    BlockIsData(t, ps, block);
    hide FullBlock, Encoded, AllData, ParityFrame;
    forall i | 0 <= i < p ensures ParityFrame(t, g, i, p) in handed {
      BlockHanded(t, g, block, p, handed, i);
    }
  }

  lemma BatchProtected(t: Transfer, parityFor: nat -> nat, least: nat, batch: seq<Packet>, completed: set<nat>,
          ps: seq<Packet>, out: seq<Packet>, handed: set<Bytes>)
    requires Valid(t) && AllData(t, ps) && Selected(batch, completed, ps)
    requires Protected(t.codecs, t.dataShards, parityFor, ps, out) && forall x :: x in out ==> x.payload in handed
    requires forall g :: least <= parityFor(g) <= t.parityShards
    ensures GroupsProtected(t, batch, completed, least, handed)
  {
    hide BlockSent, AllData, ParityHanded, WholeGroup, Selected, FullGroup, GroupInBatch;
    forall g | FullGroup(t, g) && g !in completed && GroupInBatch(t, batch, g)
      ensures exists p :: least <= p <= t.parityShards && ParityHanded(t, g, p, handed)
    {
      WholeInStage(t, batch, completed, ps, g);
      GroupHanded(t, parityFor, ps, out, handed, g);
    }
  }

  class AutopilotRuntime {
    const scheduler: MultiPathScheduler
    const codecs: Codecs
    var fec: Fec
    var completed: set<nat>

    constructor (codecs: Codecs, fec: Fec, duplicateBudget: nat)
      ensures this.codecs == codecs && this.fec == fec && completed == {}
      ensures fresh(scheduler) && scheduler.Valid() && |scheduler.paths| == 2 && Handed(scheduler.paths) == {}
    {
      this.scheduler := new MultiPathScheduler(2, duplicateBudget);
      this.codecs, this.fec, this.completed := codecs, fec, {};
    }

    /** Optimise, prioritise, encode, distribute. What it sends, it sends now, whether or not it was sent before. */
    method RunPipeline(batch: seq<Packet>, cap: nat, ghost t: Transfer)
      returns (ghost order: seq<Packet>, ghost out: seq<Packet>, ghost marks: seq<nat>)
      requires Valid(t) && codecs == t.codecs && fec.dataShards == t.dataShards && cap <= t.parityShards
      requires AllPlain(t, batch) && scheduler.Valid() && scheduler.paths != []
      modifies scheduler
      ensures scheduler.Valid() && Extends(old(scheduler.paths), scheduler.paths)
      ensures var sent := SentBetween(old(scheduler.paths), scheduler.paths);
              && BatchCovered(batch, completed, sent)
              && (AllData(t, batch) ==>
                    && BatchSent(t, batch, completed, cap, sent)
                    && GroupsProtected(t, batch, completed, Min(fec.parityShards, cap), sent))
      ensures UrgencyKept(fec.dataShards, batch, completed, order, out, marks)
      ensures SentInOrder(old(scheduler.log), scheduler.log, out)
    {
      hide OnceOrTwice, Conserved, Protected, GroupsProtected, AllData, AllPlain, AllFiled, StageInv, BatchSent,
           BatchCovered, SentBetween, Extends, ByPriority, Prompt, SentInOrder;
      var optimized := OptimizeTransfer(batch, completed, true, fec.dataShards, fec.parityShards);
      var prioritized := Sort(optimized, Ahead);
      Scheduled(t, batch, completed, optimized, prioritized);
      var stragglers: set<nat> := *;
      var base := fec;
      var parityFor := (g: nat) => ParityFor(base, cap, stragglers, g);
      var stage := new FecStage(codecs, fec.dataShards, parityFor);
      SortsByPriority(optimized);
      order := prioritized;
      marks := stage.Run(prioritized);
      out := stage.out;
      Distribute(stage.out, t, parityFor, cap, prioritized);
      ghost var sent := SentBetween(old(scheduler.paths), scheduler.paths);
      BatchOut(t, parityFor, cap, batch, completed, prioritized, stage.out, sent);
      if AllData(t, batch) {
        BatchProtected(t, parityFor, Min(fec.parityShards, cap), batch, completed, prioritized, stage.out, sent);
      }
    }

    method Distribute(out: seq<Packet>, ghost t: Transfer, ghost parityFor: nat -> nat, ghost cap: nat,
            ghost input: seq<Packet>)
      requires Valid(t) && Conserved(t.codecs, t.dataShards, parityFor, input, out)
      requires cap <= t.parityShards && forall g :: parityFor(g) <= cap
      requires scheduler.Valid() && scheduler.paths != []
      modifies scheduler
      ensures scheduler.Valid() && Extends(old(scheduler.paths), scheduler.paths)
      ensures var sent := SentBetween(old(scheduler.paths), scheduler.paths);
              && (forall x :: x in out ==> x.payload in sent)
              && (AllData(t, input) ==> forall w :: w in sent ==> SentFrom(t, input, {}, cap, w))
      ensures SentInOrder(old(scheduler.log), scheduler.log, out)
    {
      hide Conserved, AllData, SentFrom, SentBetween, Extends, Delivered, SentInOrder;
      ghost var before, sent: set<Bytes> := scheduler.paths, {};
      NothingInOrder(scheduler.log, out);
      NoneSent(before);
      for i := 0 to |out|
        invariant scheduler.Valid() && scheduler.paths != []
        invariant Extends(before, scheduler.paths) && SentBetween(before, scheduler.paths) == sent
        invariant forall j :: 0 <= j < i ==> out[j].payload in sent
        invariant SentInOrder(old(scheduler.log), scheduler.log, out[..i])
        invariant AllData(t, input) ==> forall w :: w in sent ==> SentFrom(t, input, {}, cap, w)
      {
        if AllData(t, input) { StageSent(t, parityFor, cap, input, out, out[i]); }
        var elapsed: nat, rate: nat, explore: bool := *, *, *;
        var outlook := scheduler.SomeOutlook();
        ghost var paths, log := scheduler.paths, scheduler.log;
        var primary, secondary, copy := scheduler.DistributeAndSend(out[i], elapsed as real, rate as real, outlook, explore);
        DeliveredSends(before, paths, primary, secondary, copy);
        OneMoreSent(old(scheduler.log), log, out, i, copy);
        sent := sent + {out[i].payload};
        scheduler.OnFeedbackTick();
      }
      assert out[..|out|] == out;
    }
  }
}
