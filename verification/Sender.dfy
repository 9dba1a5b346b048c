/** The sending side of a transfer: batches, retransmissions and feedback. */
module Sender {
  import opened Bytes
  import opened Arith
  import opened Wire
  import opened ReedSolomon
  import opened Source
  import opened Session
  import opened Runs
  import opened Packets
  import opened Encoder
  import opened Scheduler
  import opened Pipeline
  import opened Safety

  const NACKS_PER_BATCH: nat := 8

  function ComputeChunkSize(rttMs: nat, loss: real): nat {
    if rttMs > 120 || loss > 0.08 then 64 * 1024
    else if rttMs > 50 || loss > 0.03 then 256 * 1024
    else 1024 * 1024
  }

  /** Two tests, each of which divides the chunk size by four. */
  lemma ChunkSizeIs(rttMs: nat, loss: real)
    ensures ComputeChunkSize(rttMs, loss) == 64 * 1024 * (if rttMs <= 120 && loss <= 0.08 then 4 else 1)
                                                       * (if rttMs <= 50 && loss <= 0.03 then 4 else 1)
  {}

  /** The parity part of the suggested ratio. */
  function ComputeParity(loss: real, rttVariance: real): (p: nat)
    ensures 1 <= p <= 3
  {
    if loss > 0.12 || rttVariance > 0.08 then 3
    else if loss > 0.05 || rttVariance > 0.04 then 2
    else if loss > 0.02 || rttVariance > 0.02 then 2
    else 1
  }

  /** The group dimensions announced in the manifest: always ones the receiver's decoder accepts. */
  function PlanFec(rttMs: nat, loss: real): (fec: Fec)
    ensures fec.dataShards == 2 || fec.dataShards == 4
    ensures 1 <= fec.parityShards <= 3 && fec.dataShards + fec.parityShards <= MAX_SHARDS
  {
    var n := if ComputeChunkSize(rttMs, loss) <= 128 * 1024 then 2 else 4;
    var p := ComputeParity(loss, 0.0);
    Fec(n, Max(Max(Min(p + 1, n / 2), p), 1))
  }

  /** A slow or lossy path gets groups of two, with one parity shard per step of loss; any other, two in four. */
  lemma PlanIs(rttMs: nat, loss: real)
    ensures PlanFec(rttMs, loss) == if rttMs <= 120 && loss <= 0.08 then Fec(4, 2)
                                    else Fec(2, if loss <= 0.02 then 1 else if loss <= 0.12 then 2 else 3)
  {}

  /** More loss or delay never gives larger chunks or groups, nor a smaller share of parity. */
  lemma PlanMonotone(rttMs: nat, loss: real, rttMs': nat, loss': real)
    requires rttMs <= rttMs' && loss <= loss'
    ensures ComputeChunkSize(rttMs', loss') <= ComputeChunkSize(rttMs, loss)
    ensures var fec, fec' := PlanFec(rttMs, loss), PlanFec(rttMs', loss');
            fec'.dataShards <= fec.dataShards && fec.parityShards * fec'.dataShards <= fec'.parityShards * fec.dataShards
  {
    PlanIs(rttMs, loss);
    PlanIs(rttMs', loss');
  }

  datatype Mode = Aggressive | Balanced | Conservative

  function Boldness(mode: Mode): nat {
    match mode
    case Conservative => 0
    case Balanced => 1
    case Aggressive => 2
  }

  /** The parity count after feedback, for any loss and mode: within the manifest's count and the cap. */
  function ParityAfterFeedback(suggested: nat, mode: Mode, manifestParity: nat, cap: nat): (p: nat)
    ensures p <= cap && p <= manifestParity
    ensures manifestParity > 0 && cap > 0 ==> p >= 1
  {
    if manifestParity == 0 || cap == 0 then 0
    else
      var wanted := match mode
        case Aggressive => suggested + 1
        case Balanced => suggested
        case Conservative => Max(SatSub(suggested, 1), 1);
      Max(Min(Min(wanted, manifestParity), cap), 1)
  }

  /** More loss, more jitter or a bolder mode never takes parity away. */
  lemma FeedbackMonotone(loss: real, loss': real, variance: real, variance': real, mode: Mode, mode': Mode,
    manifestParity: nat, cap: nat)
    requires loss <= loss' && variance <= variance' && Boldness(mode) <= Boldness(mode')
    ensures ParityAfterFeedback(ComputeParity(loss, variance), mode, manifestParity, cap)
            <= ParityAfterFeedback(ComputeParity(loss', variance'), mode', manifestParity, cap)
  {}

  /** Where the bounds allow, the modes are one apart, and heavy loss or jitter calls for all the parity there is. */
  lemma FeedbackExact(loss: real, variance: real, mode: Mode, manifestParity: nat, cap: nat)
    ensures var p := ParityAfterFeedback(ComputeParity(loss, variance), mode, manifestParity, cap);
            && (manifestParity >= 4 && cap >= 4 ==>
                  p == Max((if loss > 0.12 || variance > 0.08 then 3 else if loss > 0.02 || variance > 0.02 then 2 else 1)
                           + Boldness(mode) - 1, 1))
            && (manifestParity <= 3 && (loss > 0.12 || variance > 0.08) && mode != Conservative ==>
                  p == Min(manifestParity, cap))
  {}

  /** Parity is withheld altogether when a chunk of the first group is skipped. */
  function ParityCap(t: Transfer, skip: set<nat>): (cap: nat)
    ensures cap == 0 || cap == t.parityShards
  {
    if exists i :: i in skip && i < t.dataShards then 0 else t.parityShards
  }

  function DataPacket(t: Transfer, i: nat, priority: nat, deadline: nat): (p: Packet)
    requires t.dataShards > 0
    ensures t.chunkSize > 0 && i < NumChunks(t) ==> IsDataPacket(t, p)
    ensures p.number == i && p.payload == DataFrame(t, i) && p.group == Div(i, t.dataShards) && !p.isParity
  {
    Packet(i, i, DataFrame(t, i), false, if i < 2 then 240 else priority, Some(deadline), |ChunkBytes(t, i)|,
           Div(i, t.dataShards), false, 0)
  }

  /** The size that the scheduler goes by is the length of the chunk, without header and compression. */
  lemma PacketSize(t: Transfer, i: nat, priority: nat, deadline: nat)
    requires t.dataShards > 0 && t.chunkSize > 0 && i < NumChunks(t)
    ensures DataPacket(t, i, priority, deadline).size == End(t, i) - Start(t, i)
  {
    hide DataFrame;
    ChunkRange(t, i);
  }

  /** A retransmission is more urgent than a chunk sent for the first time, except among the first two chunks. */
  lemma RetransmitsAhead(t: Transfer, i: nat, deadline: nat, j: nat, later: nat)
    requires t.dataShards > 0
    ensures DataPacket(t, i, 255, deadline).priority > DataPacket(t, j, 100, later).priority <==> i >= 2 || j >= 2
  {}

  /** The next index, the batch being filled, the blocks reported complete, the payloads handed out, and
      the parity count in use. */
  datatype SenderState = SenderState(
    next: nat, packets: seq<Packet>, completed: set<nat>, handed: set<Bytes>, parity: nat)

  /** All data frames of the group and `p` parity frames were handed out. */
  ghost predicate Shielded(t: Transfer, handed: set<Bytes>, g: nat, p: nat)
    requires Valid(t)
  {
    && FullGroup(t, g) && p <= t.parityShards && ParityHanded(t, g, p, handed)
    && forall slot :: 0 <= slot < t.dataShards ==> DataFrame(t, ChunkAt(t, g, slot)) in handed
  }

  /** The group is whole in the batch and still needed. */
  ghost predicate SentWhole(t: Transfer, batch: seq<Packet>, completed: set<nat>, g: nat)
    requires t.chunkSize > 0
  {
    FullGroup(t, g) && g !in completed && GroupInBatch(t, batch, g)
  }

  /** A group sent whole is shielded by the frames of its batch. */
  lemma WholeShielded(t: Transfer, least: nat, batch: seq<Packet>, completed: set<nat>, sent: set<Bytes>, g: nat)
    returns (p: nat)
    requires Valid(t) && AllData(t, batch) && BatchCovered(batch, completed, sent)
    requires GroupsProtected(t, batch, completed, least, sent) && SentWhole(t, batch, completed, g)
    ensures least <= p && Shielded(t, sent, g, p)
  {
    hide Sent, ParityHanded, FullGroup;
    p :| least <= p <= t.parityShards && ParityHanded(t, g, p, sent);
    forall slot | 0 <= slot < t.dataShards ensures DataFrame(t, ChunkAt(t, g, slot)) in sent {
      assert Protection.HasPacket(batch, g, ChunkAt(t, g, slot));
      var i :| 0 <= i < |batch| && batch[i].number == ChunkAt(t, g, slot) && batch[i].group == g;
      assert IsDataPacket(t, batch[i]);
    }
  }

  lemma ShieldedStays(t: Transfer, before: set<Bytes>, after: set<Bytes>, g: nat, p: nat)
    requires Valid(t) && Shielded(t, before, g, p) && before <= after
    ensures Shielded(t, after, g, p)
  {}

  /** Chunk `i` needs no further attention from the sender. */
  ghost predicate Covered(t: Transfer, skip: set<nat>, s: SenderState, i: nat)
    requires t.dataShards > 0
  {
    i in skip || DataFrame(t, i) in s.handed || Div(i, t.dataShards) in s.completed
  }

  /** No chunk that the frame is made from is skipped, and there is parity only when no chunk of the first group is. */
  ghost predicate Clear(t: Transfer, skip: set<nat>, key: Key) {
    match key
    case Data(i) => i !in skip
    case Parity(g, _, _) =>
      && (forall slot :: 0 <= slot < t.dataShards ==> ChunkAt(t, g, slot) !in skip)
      && forall c :: c in skip ==> c >= t.dataShards
  }

  ghost predicate SentClear(t: Transfer, skip: set<nat>, wire: Bytes)
    requires Valid(t)
  {
    exists key :: IsKey(t, key) && Clear(t, skip, key) && wire == FrameOf(t, key)
  }

  ghost predicate NoneSkipped(skip: set<nat>, ps: seq<Packet>) {
    forall i :: 0 <= i < |ps| ==> ps[i].number !in skip
  }

  /** What holds whatever the reports say. */
  ghost predicate CoverInv(t: Transfer, skip: set<nat>, s: SenderState)
    requires Valid(t)
  {
    && s.next <= NumChunks(t) && AllPlain(t, s.packets)
    && (forall i :: 0 <= i < s.next ==> Covered(t, skip, s, i) || InBatch(s.packets, i))
    && NoneSkipped(skip, s.packets)
    && (ParityCap(t, skip) > 0 ==> s.parity >= 1)
  }

  ghost predicate SenderInv(t: Transfer, skip: set<nat>, s: SenderState)
    requires Valid(t)
  {
    CoverInv(t, skip, s) && AllData(t, s.packets) && forall w :: w in s.handed ==> SentClear(t, skip, w)
  }

  /** One turn of the sender's loop over the chunks. */
  ghost predicate Advance(t: Transfer, skip: set<nat>, s: SenderState, s': SenderState)
    requires Valid(t)
  {
    && s.next < NumChunks(t)
    && if s.next in skip then s' == s.(next := s.next + 1)
       else exists deadline: nat ::
              s' == s.(next := s.next + 1, packets := s.packets + [DataPacket(t, s.next, 100, deadline)])
  }

  /** The parity count that feedback may lead to. */
  ghost predicate ParityStep(t: Transfer, skip: set<nat>, before: nat, after: nat, fb: Option<Feedback>) {
    if fb.None? then after == before
    else exists loss: real, variance: real, mode ::
           after == ParityAfterFeedback(ComputeParity(loss, variance), mode, t.parityShards, ParityCap(t, skip))
  }

  function ReportedBlock(fb: Option<Feedback>): set<nat> {
    if fb.Some? && fb.value.reconstructable then {fb.value.group} else {}
  }

  /** A flush: the feedback is applied, `nacks` are added, and the batch goes through the pipeline. */
  ghost predicate FlushAny(t: Transfer, skip: set<nat>, s: SenderState, s': SenderState, fb: Option<Feedback>,
          nacks: seq<Packet>, sent: set<Bytes>)
    requires Valid(t)
  {
    && s'.next == s.next && s'.packets == [] && AllPlain(t, nacks) && NoneSkipped(skip, nacks)
    && ParityStep(t, skip, s.parity, s'.parity, fb)
    && s'.completed == s.completed + ReportedBlock(fb)
    && s'.handed == s.handed + sent && BatchCovered(s.packets + nacks, s'.completed, sent)
  }

  /** A flush of chunks of the file. */
  ghost predicate Flush(t: Transfer, skip: set<nat>, s: SenderState, s': SenderState, fb: Option<Feedback>,
          nacks: seq<Packet>, sent: set<Bytes>)
    requires Valid(t)
  {
    && FlushAny(t, skip, s, s', fb, nacks, sent) && AllData(t, nacks)
    && BatchSent(t, s.packets + nacks, s'.completed, ParityCap(t, skip), sent)
    && GroupsProtected(t, s.packets + nacks, s'.completed, Min(s'.parity, ParityCap(t, skip)), sent)
  }

  lemma AdvanceKeepsCover(t: Transfer, skip: set<nat>, s: SenderState, s': SenderState)
    requires Valid(t) && CoverInv(t, skip, s) && Advance(t, skip, s, s')
    ensures CoverInv(t, skip, s')
  {
    hide DataFrame, Lawful, IsPlainPacket;
    if s.next !in skip {
      var deadline: nat :| s' == s.(next := s.next + 1, packets := s.packets + [DataPacket(t, s.next, 100, deadline)]);
      AppendKeepsCover(t, skip, s, DataPacket(t, s.next, 100, deadline));
    }
  }

  lemma AppendKeepsCover(t: Transfer, skip: set<nat>, s: SenderState, p: Packet)
    requires Valid(t) && CoverInv(t, skip, s) && s.next < NumChunks(t) && s.next !in skip
    requires p.number == s.next && IsDataPacket(t, p)
    ensures CoverInv(t, skip, s.(next := s.next + 1, packets := s.packets + [p]))
  {
    DataIsPlain(t, [p]);
    hide IsDataPacket, IsPlainPacket, Lawful, NumChunks;
    assert IsPlainPacket(t, [p][0]);
    var s' := s.(next := s.next + 1, packets := s.packets + [p]);
    forall i | 0 <= i < s'.next ensures Covered(t, skip, s', i) || InBatch(s'.packets, i) {
      if i == s.next {
        assert s'.packets[|s.packets|].number == i;
      } else if !Covered(t, skip, s, i) {
        var j :| 0 <= j < |s.packets| && s.packets[j].number == i;
        assert s'.packets[j].number == i;
      }
    }
  }

  lemma AdvanceKeepsInv(t: Transfer, skip: set<nat>, s: SenderState, s': SenderState)
    requires Valid(t) && SenderInv(t, skip, s) && Advance(t, skip, s, s')
    ensures SenderInv(t, skip, s')
  {
    AdvanceKeepsCover(t, skip, s, s');
    hide SentClear, IsDataPacket, Lawful, CoverInv, DataFrame;
  }

  lemma FlushKeepsCover(t: Transfer, skip: set<nat>, s: SenderState, s': SenderState, fb: Option<Feedback>,
          nacks: seq<Packet>, sent: set<Bytes>)
    requires Valid(t) && CoverInv(t, skip, s) && FlushAny(t, skip, s, s', fb, nacks, sent)
    ensures CoverInv(t, skip, s')
  {
    hide Lawful, DataFrame, NumChunks;
    var batch := s.packets + nacks;
    forall i | 0 <= i < s'.next ensures Covered(t, skip, s', i) {
      if !Covered(t, skip, s, i) {
        var j :| 0 <= j < |s.packets| && s.packets[j].number == i;
        assert batch[j] == s.packets[j];
        assert IsPlainPacket(t, s.packets[j]);
      }
    }
  }

  lemma FlushKeepsInv(t: Transfer, skip: set<nat>, s: SenderState, s': SenderState, fb: Option<Feedback>,
          nacks: seq<Packet>, sent: set<Bytes>)
    requires Valid(t) && SenderInv(t, skip, s) && Flush(t, skip, s, s', fb, nacks, sent)
    ensures SenderInv(t, skip, s')
  {
    FlushKeepsCover(t, skip, s, s', fb, nacks, sent);
    hide SentFrom, SentClear, GroupsProtected, Lawful, DataFrame, Covered, AllPlain, BatchCovered;
    var batch := s.packets + nacks;
    forall w | w in s'.handed ensures SentClear(t, skip, w) {
      if w !in s.handed { BatchClear(t, skip, batch, s'.completed, w); }
    }
  }

  /** A batch without skipped chunks gives rise to clear frames only. */
  lemma BatchClear(t: Transfer, skip: set<nat>, batch: seq<Packet>, completed: set<nat>, wire: Bytes)
    requires Valid(t) && NoneSkipped(skip, batch) && SentFrom(t, batch, completed, ParityCap(t, skip), wire)
    ensures SentClear(t, skip, wire)
  {
    hide FrameOf, Lawful, FullGroup, NumChunks;
    var key :| IsKey(t, key) && MadeFrom(t, batch, completed, ParityCap(t, skip), key) && wire == FrameOf(t, key);
    if key.Parity? {
      assert ParityCap(t, skip) > 0;
      forall slot | 0 <= slot < t.dataShards ensures ChunkAt(t, key.g, slot) !in skip {
        assert Protection.HasPacket(batch, key.g, ChunkAt(t, key.g, slot));
      }
    }
    assert Clear(t, skip, key);
  }

  lemma AllDataAppend(t: Transfer, a: seq<Packet>, b: seq<Packet>)
    requires t.chunkSize > 0 && t.dataShards > 0 && AllData(t, a) && AllData(t, b)
    ensures AllData(t, a + b)
  {}

  /** Feedback that only names chunks of the file. */
  ghost predicate InFile(t: Transfer, fb: Option<Feedback>)
    requires t.chunkSize > 0
  {
    fb.Some? ==> forall i :: 0 <= i < |fb.value.missing| ==> fb.value.missing[i] < NumChunks(t)
  }

  /** The numbers of a report leave room for a group below 2^64. */
  ghost predicate Bounded(t: Transfer, fb: Option<Feedback>) {
    fb.Some? ==> forall i :: 0 <= i < |fb.value.missing| ==> fb.value.missing[i] + t.dataShards < U64_LIMIT
  }

  /** The numbers of the packets. */
  ghost function Numbers(ps: seq<Packet>): set<nat> { set i | 0 <= i < |ps| :: ps[i].number }

  lemma NumbersAppend(ps: seq<Packet>, p: Packet)
    ensures Numbers(ps + [p]) == Numbers(ps) + {p.number}
  {
    var all := ps + [p];
    assert all[|ps|] == p;
    forall i | 0 <= i < |ps| ensures ps[i].number in Numbers(all) { assert all[i] == ps[i]; }
  }

  /** A missing chunk that is neither skipped nor was sent again before, with the priority of a retransmission. */
  ghost predicate SentAgain(t: Transfer, skip: set<nat>, nacked: set<nat>, fb: Feedback, p: Packet)
    requires t.dataShards > 0
  {
    && p.number in fb.missing && p.number !in skip && p.number !in nacked
    && !p.isParity && p.payload == DataFrame(t, p.number) && p.priority == if p.number < 2 then 240 else 255
  }

  /** Of the chunks named as missing, each of the first eight that is due was sent. */
  ghost predicate Retransmitted(t: Transfer, skip: set<nat>, nacked: set<nat>, completed: set<nat>, fb: Option<Feedback>,
          sent: set<Bytes>)
    requires t.dataShards > 0
  {
    fb.Some? ==> forall i :: 0 <= i < |fb.value.missing| && i < 8 ==>
      var c := fb.value.missing[i];
      c in skip || c in nacked || Div(c, t.dataShards) in completed || DataFrame(t, c) in sent
  }

  lemma NacksSent(t: Transfer, skip: set<nat>, nacked: set<nat>, completed: set<nat>, fb: Option<Feedback>,
          packets: seq<Packet>, nacks: seq<Packet>, sent: set<Bytes>)
    requires Valid(t) && AllPlain(t, nacks) && BatchCovered(packets + nacks, completed, sent)
    requires fb.Some? ==> forall i :: 0 <= i < |fb.value.missing| && i < NACKS_PER_BATCH ==>
               fb.value.missing[i] in skip || fb.value.missing[i] in nacked + Numbers(nacks)
    ensures Retransmitted(t, skip, nacked, completed, fb, sent)
  {
    hide DataFrame, Lawful;
    if fb.Some? {
      forall i | 0 <= i < |fb.value.missing| && i < 8
        ensures var c := fb.value.missing[i];
                c in skip || c in nacked || Div(c, t.dataShards) in completed || DataFrame(t, c) in sent
      {
        var c := fb.value.missing[i];
        if c !in skip && c !in nacked {
          var j :| 0 <= j < |nacks| && nacks[j].number == c;
          assert (packets + nacks)[|packets| + j] == nacks[j] && IsPlainPacket(t, nacks[j]);
        }
      }
    }
  }

  class FileSender {
    const t: Transfer
    const skip: set<nat>
    const batchSize: nat
    const runtime: AutopilotRuntime
    var next: nat
    var packets: seq<Packet>
    var nacked: set<nat>

    /** Every report on missing chunks so far only named chunks of the file. */
    ghost var honest: bool

    ghost function View(): SenderState
      reads this, runtime, runtime.scheduler
    {
      SenderState(next, packets, runtime.completed, Handed(runtime.scheduler.paths), runtime.fec.parityShards)
    }

    ghost predicate Ready()
      reads this, runtime, runtime.scheduler
    {
      && Valid(t) && runtime.codecs == t.codecs && runtime.fec.dataShards == t.dataShards
      && runtime.scheduler.Valid() && runtime.scheduler.paths != []
      && CoverInv(t, skip, View()) && (honest ==> SenderInv(t, skip, View()))
    }

    constructor (t: Transfer, skip: set<nat>, batchSize: nat, duplicateBudget: nat)
      requires Valid(t)
      ensures this.t == t && this.skip == skip && this.batchSize == batchSize
      ensures fresh(runtime) && fresh(runtime.scheduler) && Ready()
      ensures View() == SenderState(0, [], {}, {}, ParityCap(t, skip)) && nacked == {} && honest
    {
      this.t, this.skip, this.batchSize := t, skip, batchSize;
      this.runtime := new AutopilotRuntime(t.codecs, Fec(t.dataShards, ParityCap(t, skip)), duplicateBudget);
      this.next, this.packets, this.nacked, this.honest := 0, [], {}, true;
    }

    /** Notes a block reported complete and picks the parity count for what follows. */
    method ApplyFeedback(fb: Feedback, loss: real, variance: real, mode: Mode)
      modifies runtime
      ensures runtime.completed == old(runtime.completed) + ReportedBlock(Some(fb))
      ensures runtime.fec.dataShards == Max(t.dataShards, 1)
      ensures ParityStep(t, skip, old(runtime.fec.parityShards), runtime.fec.parityShards, Some(fb))
    {
      if fb.reconstructable { runtime.completed := runtime.completed + {fb.group}; }
      var suggested := ComputeParity(loss, variance);
      runtime.fec := Fec(Max(t.dataShards, 1), ParityAfterFeedback(suggested, mode, t.parityShards, ParityCap(t, skip)));
    }

    /** Adds up to eight missing chunks to the batch, each at most once per transfer. */
    method PushNackRetransmits(fb: Feedback) returns (ghost nacks: seq<Packet>)
      requires t.dataShards > 0
      modifies this`packets, this`nacked
      ensures packets == old(packets) + nacks && |nacks| <= NACKS_PER_BATCH
      ensures t.chunkSize > 0 && InFile(t, Some(fb)) ==> AllData(t, nacks)
      ensures Bounded(t, Some(fb)) ==> AllPlain(t, nacks)
      ensures forall i :: 0 <= i < |nacks| ==> SentAgain(t, skip, old(nacked), fb, nacks[i])
      ensures nacked == old(nacked) + Numbers(nacks)
      ensures forall i :: 0 <= i < |fb.missing| && i < NACKS_PER_BATCH ==>
                fb.missing[i] in skip || fb.missing[i] in nacked
    {
      hide IsDataPacket, DataFrame;
      nacks := [];
      ghost var bounded := Bounded(t, Some(fb));
      for k := 0 to Min(|fb.missing|, NACKS_PER_BATCH)
        invariant packets == old(packets) + nacks && |nacks| <= k && nacked == old(nacked) + Numbers(nacks)
        invariant t.chunkSize > 0 && InFile(t, Some(fb)) ==> AllData(t, nacks)
        invariant bounded ==> AllPlain(t, nacks)
        invariant forall i :: 0 <= i < |nacks| ==> SentAgain(t, skip, old(nacked), fb, nacks[i])
        invariant forall i :: 0 <= i < k ==> fb.missing[i] in skip || fb.missing[i] in nacked
      {
        var i := fb.missing[k];
        if i !in skip && i !in nacked {
          var deadline: nat := *;
          var p := DataPacket(t, i, 255, deadline);
          assert SentAgain(t, skip, old(nacked), fb, p);
          nacked := nacked + {i};
          packets := packets + [p];
          NumbersAppend(nacks, p);
          nacks := nacks + [p];
        }
      }
    }

    /** Applies the feedback and adds what it names as missing to the batch. */
    method Gather(applied: Option<Feedback>, nacking: Option<Feedback>) returns (ghost nacks: seq<Packet>)
      requires Ready() && Bounded(t, nacking)
      modifies this`packets, this`nacked, runtime
      ensures packets == old(packets) + nacks && AllPlain(t, packets) && AllPlain(t, nacks) && NoneSkipped(skip, nacks)
      ensures old(honest) && InFile(t, nacking) ==> AllData(t, nacks) && AllData(t, packets)
      ensures runtime.completed == old(runtime.completed) + ReportedBlock(applied)
      ensures runtime.fec.dataShards == t.dataShards
      ensures ParityStep(t, skip, old(runtime.fec.parityShards), runtime.fec.parityShards, applied)
      ensures nacking.Some? ==> forall i :: 0 <= i < |nacking.value.missing| && i < NACKS_PER_BATCH ==>
                nacking.value.missing[i] in skip || nacking.value.missing[i] in old(nacked) + Numbers(nacks)
    {
      hide IsDataPacket, IsPlainPacket, Covered, SentClear, Handed, Lawful, DataFrame, NumChunks, ComputeParity,
           ParityAfterFeedback;
      if applied.Some? {
        var loss: real, variance: real, mode: Mode := *, *, *;
        ApplyFeedback(applied.value, loss, variance, mode);
      }
      nacks := [];
      if nacking.Some? { nacks := PushNackRetransmits(nacking.value); }
      assert packets == old(packets) + nacks;
      if honest && InFile(t, nacking) { AllDataAppend(t, old(packets), nacks); }
    }

    /** Sends the batch. The two feedback reads may see different reports. Of the chunks that the second one names
        as missing, each of the first eight is sent now, unless it is skipped, was sent again before, or belongs to
        a completed block. */
    method FlushBatch(applied: Option<Feedback>, nacking: Option<Feedback>) returns (ghost nacks: seq<Packet>)
      requires Ready() && Bounded(t, nacking)
      modifies this`packets, this`nacked, this`honest, runtime, runtime.scheduler
      ensures Ready() && Extends(old(runtime.scheduler.paths), runtime.scheduler.paths)
      ensures var sent := SentBetween(old(runtime.scheduler.paths), runtime.scheduler.paths);
              && FlushAny(t, skip, old(View()), View(), applied, nacks, sent)
              && (honest ==> Flush(t, skip, old(View()), View(), applied, nacks, sent))
              && Retransmitted(t, skip, old(nacked), runtime.completed, nacking, sent)
      ensures honest == (old(honest) && InFile(t, nacking))
      ensures packets == [] && runtime.completed == old(runtime.completed) + ReportedBlock(applied)
    {
      hide IsDataPacket, IsPlainPacket, Covered, BatchSent, BatchCovered, GroupsProtected, SentClear, Handed, Lawful,
           SentBetween, Extends, Retransmitted, DataFrame, UrgencyKept, SentInOrder,
           NumChunks, ComputeParity, ParityAfterFeedback;
      nacks := Gather(applied, nacking);
      honest := honest && InFile(t, nacking);
      ghost var order, out, marks := runtime.RunPipeline(packets, ParityCap(t, skip), t);
      ghost var sent := SentBetween(old(runtime.scheduler.paths), runtime.scheduler.paths);
      HandedSplits(old(runtime.scheduler.paths), runtime.scheduler.paths);
      SameCount(old(runtime.scheduler.paths), runtime.scheduler.paths);
      NacksSent(t, skip, old(nacked), runtime.completed, nacking, old(packets), nacks, sent);
      packets := [];
      FlushKeepsCover(t, skip, old(View()), View(), applied, nacks, sent);
      if honest { FlushKeepsInv(t, skip, old(View()), View(), applied, nacks, sent); }
    }

    /** One turn of the loop over the chunks: the chunk is skipped or put in the batch. */
    method TakeChunk()
      requires Ready() && next < NumChunks(t)
      modifies this`next, this`packets
      ensures Ready() && next == old(next) + 1 && Advance(t, skip, old(View()), View())
      ensures |packets| == |old(packets)| + (if old(next) in skip then 0 else 1)
    {
      hide Covered, SentClear, Handed, Lawful, IsDataPacket, IsPlainPacket, CoverInv, SenderInv, DataFrame, NumChunks;
      if next !in skip {
        var deadline: nat := *;
        packets := packets + [DataPacket(t, next, 100, deadline)];
      }
      next := next + 1;
      AdvanceKeepsCover(t, skip, old(View()), View());
      if honest { AdvanceKeepsInv(t, skip, old(View()), View()); }
    }

    /** The flush with number `k`. */
    method FlushWith(reports: seq<(Option<Feedback>, Option<Feedback>)>, k: nat)
      requires Ready() && forall i :: 0 <= i < |reports| ==> Bounded(t, reports[i].1)
      modifies this`packets, this`nacked, this`honest, runtime, runtime.scheduler
      ensures Ready() && packets == []
      ensures runtime.completed <= old(runtime.completed) + ReportedBlocks(reports)
      ensures old(honest) && (forall i :: 0 <= i < |reports| ==> InFile(t, reports[i].1)) ==> honest
    {
      hide Covered, SentClear, Sent, Handed, Lawful, FlushAny, Flush, InFile, NumChunks;
      NoReport(t);
      ghost var _ := FlushBatch(ReportAt(reports, k).0, ReportAt(reports, k).1);
    }

    /** Sends all chunks; `reports` is what the two feedback reads of each flush see. On return every
        chunk was skipped, handed to a path, or belongs to a block reported complete, whatever the reports say. */
    method SendAdaptive(reports: seq<(Option<Feedback>, Option<Feedback>)>) returns (flushes: nat)
      requires Ready() && next == 0 && packets == []
      requires forall i :: 0 <= i < |reports| ==> Bounded(t, reports[i].1)
      modifies this, runtime, runtime.scheduler
      ensures Ready() && next == NumChunks(t) && packets == []
      ensures forall i :: 0 <= i < NumChunks(t) ==> Covered(t, skip, View(), i)
      ensures runtime.completed <= old(runtime.completed) + ReportedBlocks(reports)
      ensures old(honest) && (forall i :: 0 <= i < |reports| ==> InFile(t, reports[i].1)) ==> honest
      ensures honest ==> forall w :: w in Handed(runtime.scheduler.paths) ==> Sent(t, w)
      ensures var due := Unskipped(skip, NumChunks(t)); var size := Max(batchSize, 1);
              due <= Mul(flushes, size) < due + size
    {
      hide Covered, SentClear, Sent, Handed, Lawful, FlushAny, Flush, Advance, InFile, NumChunks, Batched, Mul, Unskipped;
      flushes := 0;
      var size := Max(batchSize, 1);
      BatchedSteps(skip, 0, 0, size, 0);
      ghost var inFile := old(honest) && forall i :: 0 <= i < |reports| ==> InFile(t, reports[i].1);
      while next < NumChunks(t)
        invariant Ready() && runtime.completed <= old(runtime.completed) + ReportedBlocks(reports)
        invariant inFile ==> honest
        invariant |packets| < Max(batchSize, 1) && Batched(skip, next, flushes, Max(batchSize, 1), |packets|)
        decreases NumChunks(t) - next
      {
        BatchedSteps(skip, next, flushes, size, |packets|);
        TakeChunk();
        BatchedSteps(skip, next, flushes, size, |packets|);
        if |packets| >= size {
          FlushWith(reports, flushes);
          flushes := flushes + 1;
        }
      }
      BatchedEnd(skip, next, flushes, size, |packets|);
      if packets != [] {
        FlushWith(reports, flushes);
        flushes := flushes + 1;
      }
      if honest { HandedSent(t, skip, View()); }
    }
  }

  /** How many of the first `n` chunks are not skipped. */
  function Unskipped(skip: set<nat>, n: nat): (k: nat)
    ensures k <= n && (k == n <==> forall i :: 0 <= i < n ==> i !in skip)
  {
    if n == 0 then 0 else Unskipped(skip, n - 1) + (if n - 1 in skip then 0 else 1)
  }

  /** The chunks taken so far went out in full batches, but for those that wait. */
  ghost predicate Batched(skip: set<nat>, next: nat, flushes: nat, size: nat, waiting: nat) {
    Unskipped(skip, next) == Mul(flushes, size) + waiting
  }

  lemma BatchedSteps(skip: set<nat>, next: nat, flushes: nat, size: nat, waiting: nat)
    ensures next == flushes == waiting == 0 ==> Batched(skip, next, flushes, size, waiting)
    ensures Batched(skip, next, flushes, size, waiting) ==>
              Batched(skip, next + 1, flushes, size, waiting + (if next in skip then 0 else 1))
    ensures Batched(skip, next, flushes, size, waiting) && waiting == size ==> Batched(skip, next, flushes + 1, size, 0)
  {}

  lemma BatchedEnd(skip: set<nat>, next: nat, flushes: nat, size: nat, waiting: nat)
    requires Batched(skip, next, flushes, size, waiting) && waiting < size
    ensures var due := Unskipped(skip, next); var all := if waiting > 0 then flushes + 1 else flushes;
            due <= Mul(all, size) < due + size
  {}

  lemma NoReport(t: Transfer)
    requires t.chunkSize > 0
    ensures InFile(t, None)
  {}

  lemma HandedSent(t: Transfer, skip: set<nat>, s: SenderState)
    requires Valid(t) && SenderInv(t, skip, s)
    ensures forall w :: w in s.handed ==> Sent(t, w)
  {
    hide FrameOf, IsKey, Lawful;
  }

  ghost function ReportedBlocks(reports: seq<(Option<Feedback>, Option<Feedback>)>): set<nat> {
    set i | 0 <= i < |reports| && reports[i].0.Some? && reports[i].0.value.reconstructable :: reports[i].0.value.group
  }

  function ReportAt(reports: seq<(Option<Feedback>, Option<Feedback>)>, i: nat): (Option<Feedback>, Option<Feedback>) {
    if i < |reports| then reports[i] else (None, None)
  }
}
