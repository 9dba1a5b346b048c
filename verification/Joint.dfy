/** Sender, network and receiver together. The network delivers any frame handed to it, any number
    of times and in any order, and feedback may be read late. */
module Joint {
  import opened Bytes
  import opened Arith
  import opened Source
  import opened Receiver
  import opened Safety
  import opened Delivery
  import opened Exactness
  import opened Session
  import opened Runs
  import opened Packets
  import opened Sender
  import Resume

  /** `mailbox` is the last report the sender has read, `delivered` what the network has delivered. */
  datatype World = World(sender: SenderState, recv: State, mailbox: Option<Feedback>, delivered: set<Key>)

  ghost predicate Init(t: Transfer, skip: set<nat>, part: Bytes, received: set<nat>, w: World) {
    && w.sender == SenderState(0, [], {}, {}, ParityCap(t, skip))
    && w.recv.recv == Recv(part, received, map[]) && w.recv.feedback == []
    && w.mailbox == None && w.delivered == {}
  }

  /** A frame longer than a stream may be never gets past the reading of its stream. */
  ghost predicate DeliverStep(t: Transfer, k: Settings, w: World, w': World, key: Key)
    requires Valid(t) && Accepts(k.config)
  {
    && IsKey(t, key) && FrameOf(t, key) in w.sender.handed && |FrameOf(t, key)| <= MAX_STREAM_BYTES
    && w' == w.(recv := Handle(k, w.recv, FrameOf(t, key)).0, delivered := w.delivered + {key})
  }

  ghost predicate ReadStep(w: World, w': World, i: nat) {
    i < |w.recv.feedback| && w' == w.(mailbox := Some(w.recv.feedback[i]))
  }

  ghost predicate SendStep(t: Transfer, skip: set<nat>, w: World, w': World)
    requires Valid(t)
  {
    && w'.recv == w.recv && w'.mailbox == w.mailbox && w'.delivered == w.delivered
    && (|| Advance(t, skip, w.sender, w'.sender)
        || exists nacks, sent :: Flush(t, skip, w.sender, w'.sender, w.mailbox, nacks, sent))
  }

  ghost predicate Next(t: Transfer, k: Settings, skip: set<nat>, w: World, w': World)
    requires Valid(t) && Accepts(k.config)
  {
    || SendStep(t, skip, w, w')
    || (exists key :: DeliverStep(t, k, w, w', key))
    || (exists i: nat :: ReadStep(w, w', i))
  }

  /** A run: the worlds passed through, from the start on. */
  ghost predicate IsRun(t: Transfer, k: Settings, skip: set<nat>, part: Bytes, received: set<nat>, run: seq<World>)
    requires Valid(t) && Accepts(k.config)
  {
    && run != [] && Init(t, skip, part, received, run[0])
    && forall i :: 0 <= i < |run| - 1 ==> Next(t, k, skip, run[i], run[i + 1])
  }

  /** Every block the sender regards as complete is complete at the receiver. */
  ghost predicate CancelSafe(t: Transfer, w: World) {
    forall g :: g in w.sender.completed ==> Complete(t, w.recv.recv.received, g)
  }

  ghost predicate WorldInv(t: Transfer, skip: set<nat>, part: Bytes, received: set<nat>, w: World)
    requires Valid(t)
  {
    && SenderInv(t, skip, w.sender)
    && Inv(t, w.recv.recv, w.delivered)
    && AllTruthful(t, w.recv.recv.received, w.recv.feedback)
    && (w.mailbox.Some? ==> Truthful(t, w.recv.recv.received, w.mailbox.value))
    && CancelSafe(t, w)
    && received <= w.recv.recv.received && OnlySource(t, part, w.recv.recv.file)
    && (forall key :: key in w.delivered ==> Clear(t, skip, key)) && Justified(t, w.recv.recv, received, w.delivered)
  }

  lemma InitInv(t: Transfer, skip: set<nat>, part: Bytes, received: set<nat>, w: World)
    requires Valid(t) && Safe(t, part, received) && Init(t, skip, part, received, w)
    ensures WorldInv(t, skip, part, received, w)
  {}

  lemma DeliverKeepsInv(t: Transfer, k: Settings, skip: set<nat>, part: Bytes, received: set<nat>, w: World,
          w': World, key: Key)
    requires Valid(t) && For(t, k) && Accepts(k.config)
    requires WorldInv(t, skip, part, received, w) && DeliverStep(t, k, w, w', key)
    ensures WorldInv(t, skip, part, received, w')
  {
    hide SenderInv, Inv, AllTruthful, FrameOf, Handle, OnlySource, Clear, Justified, For, Wire.Lawful;
    HandleRecv(t, k, w.recv, w.delivered, key);
    OnlySourceThen(t, part, w.recv.recv.file, w'.recv.recv.file);
    HandleJustified(t, k, w.recv, received, w.delivered, key);
    HandedClear(t, skip, w.sender, FrameOf(t, key));
    ClearFrame(t, skip, key);
  }

  lemma HandedClear(t: Transfer, skip: set<nat>, s: SenderState, wire: Bytes)
    requires Valid(t) && SenderInv(t, skip, s) && wire in s.handed
    ensures SentClear(t, skip, wire)
  {}

  /** A frame tells the chunks it is made from. */
  lemma ClearFrame(t: Transfer, skip: set<nat>, key: Key)
    requires Valid(t) && IsKey(t, key) && SentClear(t, skip, FrameOf(t, key))
    ensures Clear(t, skip, key)
  {
    hide FrameOf, IsKey, Wire.Lawful;
    var other :| IsKey(t, other) && Clear(t, skip, other) && FrameOf(t, key) == FrameOf(t, other);
    ContentOfFrame(t, key);
    ContentOfFrame(t, other);
  }

  lemma HandleJustified(t: Transfer, k: Settings, s: State, base: set<nat>, delivered: set<Key>, key: Key)
    requires Valid(t) && For(t, k) && Accepts(k.config) && IsKey(t, key) && Inv(t, s.recv, delivered)
    requires Justified(t, s.recv, base, delivered)
    ensures Justified(t, Handle(k, s, FrameOf(t, key)).0.recv, base, delivered + {key})
  {
    hide Inv, Ingest, Justified, FrameOf, Wire.Lawful;
    IngestJustified(t, k.config.verify, s.recv, base, delivered, key);
  }

  lemma SendKeepsInv(t: Transfer, skip: set<nat>, part: Bytes, received: set<nat>, w: World, w': World)
    requires Valid(t) && WorldInv(t, skip, part, received, w) && SendStep(t, skip, w, w')
    ensures WorldInv(t, skip, part, received, w')
  {
    hide SenderInv, Inv, AllTruthful;
    if Advance(t, skip, w.sender, w'.sender) {
      AdvanceKeepsInv(t, skip, w.sender, w'.sender);
    } else {
      var nacks, sent :| Flush(t, skip, w.sender, w'.sender, w.mailbox, nacks, sent);
      FlushKeepsInv(t, skip, w.sender, w'.sender, w.mailbox, nacks, sent);
    }
  }

  lemma NextKeepsInv(t: Transfer, k: Settings, skip: set<nat>, part: Bytes, received: set<nat>, w: World, w': World)
    requires Valid(t) && For(t, k) && Accepts(k.config)
    requires WorldInv(t, skip, part, received, w) && Next(t, k, skip, w, w')
    ensures WorldInv(t, skip, part, received, w')
  {
    if SendStep(t, skip, w, w') {
      SendKeepsInv(t, skip, part, received, w, w');
    } else if key :| DeliverStep(t, k, w, w', key) {
      DeliverKeepsInv(t, k, skip, part, received, w, w', key);
    } else {
      hide SenderInv, Inv;
      var i: nat :| ReadStep(w, w', i);
      assert Truthful(t, w.recv.recv.received, w.recv.feedback[i]);
    }
  }

  /** The invariant holds in every world of every run. */
  lemma {:induction false} RunInv(t: Transfer, k: Settings, skip: set<nat>, part: Bytes, received: set<nat>,
          run: seq<World>, i: nat)
    requires Valid(t) && For(t, k) && Accepts(k.config) && Safe(t, part, received)
    requires IsRun(t, k, skip, part, received, run) && i < |run|
    ensures WorldInv(t, skip, part, received, run[i])
    decreases i
  {
    if i == 0 {
      InitInv(t, skip, part, received, run[0]);
    } else {
      RunInv(t, k, skip, part, received, run, i - 1);
      NextKeepsInv(t, k, skip, part, received, run[i - 1], run[i]);
    }
  }

  /** Cancelling is safe in every flush of every run: a packet of the batch or of the retransmissions that
      is dropped because its block is complete, even by the report read in this very flush, carries a
      chunk that the part file holds already. */
  lemma CancelSafety(t: Transfer, k: Settings, skip: set<nat>, part: Bytes, received: set<nat>, run: seq<World>, i: nat,
          nacks: seq<Packet>, sent: set<Bytes>, p: Packet)
    requires Valid(t) && For(t, k) && Accepts(k.config) && Safe(t, part, received)
    requires IsRun(t, k, skip, part, received, run) && i + 1 < |run|
    requires Flush(t, skip, run[i].sender, run[i + 1].sender, run[i].mailbox, nacks, sent)
    requires p in run[i].sender.packets + nacks && p.group in run[i + 1].sender.completed
    ensures var s := run[i].recv.recv; p.number in s.received && Holds(t, s.file, p.number)
  {
    var w := run[i];
    RunInv(t, k, skip, part, received, run, i);
    assert Safe(t, w.recv.recv.file, w.recv.recv.received);
    hide Handle, Next, FrameOf, Inv, SenderInv, AllTruthful;
    FlushedPacket(t, skip, w, run[i + 1].sender, nacks, sent, p);
  }

  lemma FlushedPacket(t: Transfer, skip: set<nat>, w: World, s': SenderState, nacks: seq<Packet>, sent: set<Bytes>,
          p: Packet)
    requires Valid(t) && SenderInv(t, skip, w.sender) && CancelSafe(t, w) && Safe(t, w.recv.recv.file, w.recv.recv.received)
    requires w.mailbox.Some? ==> Truthful(t, w.recv.recv.received, w.mailbox.value)
    requires Flush(t, skip, w.sender, s', w.mailbox, nacks, sent)
    requires p in w.sender.packets + nacks && p.group in s'.completed
    ensures var s := w.recv.recv; p.number in s.received && Holds(t, s.file, p.number)
  {
    var batch := w.sender.packets + nacks;
    var j :| 0 <= j < |batch| && batch[j] == p;
    AllDataAppend(t, w.sender.packets, nacks);
    assert Complete(t, w.recv.recv.received, p.group);
    GroupMember(t, w.recv.recv, batch, j);
  }

  lemma GroupMember(t: Transfer, s: Recv, packets: seq<Packet>, j: nat)
    requires Valid(t) && j < |packets| && Pipeline.AllData(t, packets) && Safe(t, s.file, s.received)
    requires Complete(t, s.received, packets[j].group)
    ensures packets[j].number in s.received && Holds(t, s.file, packets[j].number)
  {
    var p := packets[j];
    assert Encoder.IsDataPacket(t, p);
    DataSlot(t, p.number);
  }

  /** The sender has gone through all chunks and flushed its last batch. */
  ghost predicate SenderDone(t: Transfer, w: World)
    requires Valid(t)
  {
    w.sender.next == NumChunks(t) && w.sender.packets == []
  }

  /** Every frame handed to the network has been delivered at least once. */
  ghost predicate NothingLost(t: Transfer, w: World)
    requires Valid(t)
  {
    forall wire :: wire in w.sender.handed ==> Carried(t, w.delivered, wire)
  }

  lemma DataCarried(t: Transfer, s: Recv, delivered: set<Key>, i: nat)
    requires Valid(t) && Inv(t, s, delivered) && i < NumChunks(t) && Carried(t, delivered, DataFrame(t, i))
    ensures i in s.received
  {
    var key :| key in delivered && IsKey(t, key) && DataFrame(t, i) == FrameOf(t, key);
    assert FrameOf(t, Data(i)) == DataFrame(t, i);
    ContentOfFrame(t, key);
    ContentOfFrame(t, Data(i));
    assert key.Data? && key.i == i;
  }

  /** The frames of a group sent with `p` parity rows that have not been delivered. */
  ghost function LostSlots(t: Transfer, delivered: set<Key>, g: nat, p: nat): set<nat>
    requires t.dataShards > 0
  {
    Below(t.dataShards + p) - SlotsOf(t, g, delivered)
  }

  /** The group was sent with its parity, has lost no more frames than its parity, and kept a data frame. */
  ghost predicate Survives(t: Transfer, w: World, g: nat)
    requires Valid(t)
  {
    && (exists p :: Shielded(t, w.sender.handed, g, p) && |LostSlots(t, w.delivered, g, p)| <= p)
    && exists slot :: slot in SlotsOf(t, g, w.delivered) && slot < t.dataShards
  }

  lemma SlotCount(slots: set<nat>, n: nat, p: nat)
    requires |Below(n + p) - slots| <= p
    ensures |slots| >= n
  {
    var all := Below(n + p);
    assert |all| == |all * slots| + |all - slots| by { assert all == (all * slots) + (all - slots); }
    SubsetSize(all * slots, slots);
  }

  /** Such a group is complete at the receiver. */
  lemma EnoughSlots(t: Transfer, delivered: set<Key>, g: nat, p: nat)
    requires t.dataShards > 0 && |LostSlots(t, delivered, g, p)| <= p
    ensures |SlotsOf(t, g, delivered)| >= t.dataShards
  {
    hide SlotsOf;
    SlotCount(SlotsOf(t, g, delivered), t.dataShards, p);
  }

  lemma AllSlotsReceived(t: Transfer, s: Recv, delivered: set<Key>, g: nat)
    requires Valid(t) && Inv(t, s, delivered) && |LostSlots(t, delivered, g, 0)| <= 0
    ensures Complete(t, s.received, g)
  {
    hide Inv, LostSlots, ChunkAt;
    forall x | 0 <= x < t.dataShards ensures ChunkAt(t, g, x) in s.received { DataSlotReceived(t, s, delivered, g, x); }
  }

  lemma SurvivesComplete(t: Transfer, s: Recv, delivered: set<Key>, g: nat, p: nat)
    requires Valid(t) && Inv(t, s, delivered) && FullGroup(t, g) && p <= t.parityShards
    requires |LostSlots(t, delivered, g, p)| <= p && exists slot :: slot in SlotsOf(t, g, delivered) && slot < t.dataShards
    ensures Complete(t, s.received, g)
  {
    hide *;
    ValidShape(t, false);
    if t.parityShards > 0 {
      var slot :| slot in SlotsOf(t, g, delivered) && slot < t.dataShards;
      var i := DataKey(t, delivered, g, slot);
      EnoughSlots(t, delivered, g, p);
      EnoughShardsComplete(t, s, delivered, g, i);
    } else {
      AllSlotsReceived(t, s, delivered, g);
    }
  }

  lemma DataKey(t: Transfer, delivered: set<Key>, g: nat, slot: nat) returns (i: nat)
    requires t.dataShards > 0 && slot in SlotsOf(t, g, delivered) && slot < t.dataShards
    ensures Data(i) in delivered && GroupOf(t, Data(i)) == g
  {
    var key :| key in delivered && GroupOf(t, key) == g && SlotOf(t, key) == slot;
    i := key.i;
  }

  lemma DataSlotReceived(t: Transfer, s: Recv, delivered: set<Key>, g: nat, x: nat)
    requires Valid(t) && Inv(t, s, delivered) && x < t.dataShards && LostSlots(t, delivered, g, 0) == {}
    ensures ChunkAt(t, g, x) in s.received
  {
    assert x in Below(t.dataShards + 0);
    assert x in SlotsOf(t, g, delivered);
    var key :| key in delivered && GroupOf(t, key) == g && SlotOf(t, key) == x;
    assert IsKey(t, key) && key.Data?;
    DataSlot(t, key.i);
  }

  /** Every data frame that was lost belongs to a group that survives. */
  ghost predicate LossTolerable(t: Transfer, w: World)
    requires Valid(t)
  {
    forall c :: 0 <= c < NumChunks(t) && DataFrame(t, c) in w.sender.handed && !Carried(t, w.delivered, DataFrame(t, c)) ==>
      Survives(t, w, Div(c, t.dataShards))
  }

  lemma CoveredReceived(t: Transfer, skip: set<nat>, part: Bytes, received: set<nat>, w: World, i: nat)
    requires Valid(t) && WorldInv(t, skip, part, received, w) && SenderDone(t, w) && LossTolerable(t, w) && i < NumChunks(t)
    ensures i in skip || i in w.recv.recv.received
  {
    var g := Div(i, t.dataShards);
    assert Covered(t, skip, w.sender, i);
    hide Inv, AllTruthful, Carried, Survives, Shielded;
    if i in skip {
    } else if Carried(t, w.delivered, DataFrame(t, i)) {
      DataCarried(t, w.recv.recv, w.delivered, i);
    } else if DataFrame(t, i) in w.sender.handed {
      assert Survives(t, w, g);
      SurvivorComplete(t, skip, part, received, w, g);
      InComplete(t, w.recv.recv.received, i);
    } else {
      InComplete(t, w.recv.recv.received, i);
    }
  }

  lemma SurvivorComplete(t: Transfer, skip: set<nat>, part: Bytes, received: set<nat>, w: World, g: nat)
    requires Valid(t) && WorldInv(t, skip, part, received, w) && Survives(t, w, g)
    ensures Complete(t, w.recv.recv.received, g)
  {
    hide Inv, AllTruthful, LostSlots, SlotsOf, SenderInv, Justified;
    var p :| Shielded(t, w.sender.handed, g, p) && |LostSlots(t, w.delivered, g, p)| <= p;
    SurvivesComplete(t, w.recv.recv, w.delivered, g, p);
  }

  lemma InComplete(t: Transfer, received: set<nat>, i: nat)
    requires Valid(t) && i < NumChunks(t) && Complete(t, received, Div(i, t.dataShards))
    ensures i in received
  {
    DataSlot(t, i);
  }

  /** When the sender is done and every loss is tolerable, the receiver has every chunk that was not
      skipped; if the part file held the skipped chunks at the start, it is the source file. */
  lemma TransferSurvivesLoss(t: Transfer, k: Settings, skip: set<nat>, part: Bytes, received: set<nat>,
          run: seq<World>, i: nat)
    requires Valid(t) && For(t, k) && Accepts(k.config) && Safe(t, part, received)
    requires IsRun(t, k, skip, part, received, run) && i < |run|
    requires SenderDone(t, run[i]) && LossTolerable(t, run[i])
    ensures forall c :: 0 <= c < NumChunks(t) ==> c in skip || c in run[i].recv.recv.received
    ensures (forall c :: c in skip ==> Holds(t, part, c)) ==> run[i].recv.recv.file == t.source
  {
    var w := run[i];
    RunInv(t, k, skip, part, received, run, i);
    hide LossTolerable;
    forall c | 0 <= c < NumChunks(t) ensures c in skip || c in w.recv.recv.received {
      CoveredReceived(t, skip, part, received, w, c);
    }
    hide Next, SenderInv, AllTruthful;
    if forall c :: c in skip ==> Holds(t, part, c) {
      forall c | 0 <= c < NumChunks(t) ensures Holds(t, w.recv.recv.file, c) {
        if c in skip { OnlySourceHolds(t, part, w.recv.recv.file, c); }
      }
      FileHolds(t, w.recv.recv.file);
    }
  }

  /** A group that one flush sends whole is shielded from then on, by the parity count in use, within the cap. */
  lemma {:induction false} WholeGroupsShielded(t: Transfer, k: Settings, skip: set<nat>, part: Bytes, received: set<nat>,
          run: seq<World>, i: nat, j: nat, nacks: seq<Packet>, sent: set<Bytes>, g: nat)
    requires Valid(t) && For(t, k) && Accepts(k.config) && Safe(t, part, received)
    requires IsRun(t, k, skip, part, received, run) && i < j < |run|
    requires Flush(t, skip, run[i].sender, run[i + 1].sender, run[i].mailbox, nacks, sent)
    requires SentWhole(t, run[i].sender.packets + nacks, run[i + 1].sender.completed, g)
    ensures ParityCap(t, skip) > 0 ==> run[i + 1].sender.parity >= 1
    ensures exists p :: Min(run[i + 1].sender.parity, ParityCap(t, skip)) <= p && Shielded(t, run[j].sender.handed, g, p)
    decreases j
  {
    hide *;
    var least := Min(run[i + 1].sender.parity, ParityCap(t, skip));
    if j == i + 1 {
      RunStep(t, k, skip, part, received, run, i);
      var p := FlushShields(t, skip, run[i].sender, run[j].sender, run[i].mailbox, nacks, sent, g);
    } else {
      WholeGroupsShielded(t, k, skip, part, received, run, i, j - 1, nacks, sent, g);
      RunStep(t, k, skip, part, received, run, j - 1);
      HandedGrows(t, k, skip, run[j - 1], run[j]);
      var p :| least <= p && Shielded(t, run[j - 1].sender.handed, g, p);
      ShieldedStays(t, run[j - 1].sender.handed, run[j].sender.handed, g, p);
    }
  }

  /** No chunk of the first group is skipped. */
  ghost predicate FirstGroupWhole(t: Transfer, skip: set<nat>) { forall c :: c in skip ==> c >= t.dataShards }

  lemma CapIs(t: Transfer, skip: set<nat>)
    ensures ParityCap(t, skip) == if FirstGroupWhole(t, skip) then t.parityShards else 0
  {}

  /** The parity count is the announced one until the first report is read. */
  lemma {:induction false} UntilFeedback(t: Transfer, k: Settings, skip: set<nat>, part: Bytes, received: set<nat>,
          run: seq<World>, i: nat)
    requires Valid(t) && Accepts(k.config) && IsRun(t, k, skip, part, received, run) && i < |run|
    requires run[i].mailbox == None
    ensures run[i].sender.parity == ParityCap(t, skip)
    decreases i
  {
    hide FrameOf, Handle, Wire.Lawful, Pipeline.BatchSent, Pipeline.GroupsProtected, Pipeline.BatchCovered, ParityCap;
    if i > 0 {
      assert Next(t, k, skip, run[i - 1], run[i - 1 + 1]);
      if run[i - 1].mailbox == None { UntilFeedback(t, k, skip, part, received, run, i - 1); }
    }
  }

  /** With parity announced and no chunk of the first group skipped, a group sent whole always goes out with parity,
      and with all that was announced until the first report is read. */
  lemma WholeGroupsGetParity(t: Transfer, k: Settings, skip: set<nat>, part: Bytes, received: set<nat>,
          run: seq<World>, i: nat, j: nat, nacks: seq<Packet>, sent: set<Bytes>, g: nat)
    requires Valid(t) && For(t, k) && Accepts(k.config) && Safe(t, part, received)
    requires IsRun(t, k, skip, part, received, run) && i < j < |run|
    requires Flush(t, skip, run[i].sender, run[i + 1].sender, run[i].mailbox, nacks, sent)
    requires SentWhole(t, run[i].sender.packets + nacks, run[i + 1].sender.completed, g)
    requires FirstGroupWhole(t, skip) && t.parityShards > 0
    ensures exists p :: p >= 1 && Shielded(t, run[j].sender.handed, g, p)
    ensures run[i].mailbox == None ==> Shielded(t, run[j].sender.handed, g, t.parityShards)
  {
    hide *;
    WholeGroupsShielded(t, k, skip, part, received, run, i, j, nacks, sent, g);
    CapIs(t, skip);
    if run[i].mailbox == None {
      UntilFeedback(t, k, skip, part, received, run, i);
      SameParity(t, skip, run[i].sender, run[i + 1].sender, nacks, sent);
    }
    var p :| Min(run[i + 1].sender.parity, ParityCap(t, skip)) <= p && Shielded(t, run[j].sender.handed, g, p);
    AtMostAll(t, run[j].sender.handed, g, p, run[i + 1].sender.parity, ParityCap(t, skip));
  }

  lemma SameParity(t: Transfer, skip: set<nat>, s: SenderState, s': SenderState, nacks: seq<Packet>, sent: set<Bytes>)
    requires Valid(t) && Flush(t, skip, s, s', None, nacks, sent)
    ensures s'.parity == s.parity
  {
    hide Pipeline.BatchSent, Pipeline.GroupsProtected, Pipeline.BatchCovered, Wire.Lawful;
  }

  lemma AtMostAll(t: Transfer, handed: set<Bytes>, g: nat, p: nat, parity: nat, cap: nat)
    requires Valid(t) && Shielded(t, handed, g, p) && Min(parity, cap) <= p
    ensures p <= t.parityShards && (parity <= p || cap <= p)
  {}

  /** When a chunk of the first group is skipped, no parity frame is ever handed out. */
  lemma NoParityAfterGap(t: Transfer, k: Settings, skip: set<nat>, part: Bytes, received: set<nat>, run: seq<World>,
          i: nat, key: Key)
    requires Valid(t) && For(t, k) && Accepts(k.config) && Safe(t, part, received)
    requires IsRun(t, k, skip, part, received, run) && i < |run|
    requires !FirstGroupWhole(t, skip) && IsKey(t, key) && key.Parity?
    ensures FrameOf(t, key) !in run[i].sender.handed
  {
    RunStep(t, k, skip, part, received, run, i);
    hide IsRun, SenderInv, FrameOf, Next, Wire.Lawful, FullGroup;
    if FrameOf(t, key) in run[i].sender.handed {
      HandedClear(t, skip, run[i].sender, FrameOf(t, key));
      ClearFrame(t, skip, key);
    }
  }

  /** A block that the sender has read to be complete: nothing of it is handed out that was not before. */
  lemma {:induction false} CompletedNotSent(t: Transfer, k: Settings, skip: set<nat>, part: Bytes, received: set<nat>,
          run: seq<World>, i: nat, j: nat, nacks: seq<Packet>, sent: set<Bytes>, fb: Feedback, key: Key)
    requires Valid(t) && Accepts(k.config) && IsRun(t, k, skip, part, received, run) && i < j < |run|
    requires Flush(t, skip, run[i].sender, run[i + 1].sender, run[i].mailbox, nacks, sent)
    requires run[i].mailbox == Some(fb) && fb.reconstructable && IsKey(t, key) && GroupOf(t, key) == fb.group
    ensures fb.group in run[j].sender.completed
    ensures FrameOf(t, key) in run[j].sender.handed ==> FrameOf(t, key) in run[i].sender.handed
    decreases j
  {
    hide IsRun, FrameOf, Next, Wire.Lawful, FullGroup, GroupOf, Flush, IsKey;
    if j == i + 1 {
      FlushKeepsOut(t, skip, run[i].sender, run[j].sender, run[i].mailbox, nacks, sent, fb.group, key);
    } else {
      CompletedNotSent(t, k, skip, part, received, run, i, j - 1, nacks, sent, fb, key);
      NextIn(t, k, skip, part, received, run, j - 1);
      NextKeepsOut(t, k, skip, run[j - 1], run[j], fb.group, key);
    }
  }

  lemma NextIn(t: Transfer, k: Settings, skip: set<nat>, part: Bytes, received: set<nat>, run: seq<World>, i: nat)
    requires Valid(t) && Accepts(k.config) && IsRun(t, k, skip, part, received, run) && i + 1 < |run|
    ensures Next(t, k, skip, run[i], run[i + 1])
  {
    hide Next;
  }

  lemma SameGroup(t: Transfer, a: Key, b: Key)
    requires Valid(t) && IsKey(t, a) && IsKey(t, b) && FrameOf(t, a) == FrameOf(t, b)
    ensures GroupOf(t, a) == GroupOf(t, b)
  {
    hide FrameOf, Wire.Lawful, FullGroup, NumChunks;
    ContentOfFrame(t, a);
    ContentOfFrame(t, b);
  }

  /** Frames of a completed group are not among what a flush sends. */
  lemma FlushKeepsOut(t: Transfer, skip: set<nat>, s: SenderState, s': SenderState, fb: Option<Feedback>,
          nacks: seq<Packet>, sent: set<Bytes>, g: nat, key: Key)
    requires Valid(t) && Flush(t, skip, s, s', fb, nacks, sent) && IsKey(t, key) && GroupOf(t, key) == g
    requires g in s.completed || (fb.Some? && fb.value.reconstructable && fb.value.group == g)
    ensures g in s'.completed && (FrameOf(t, key) in s'.handed ==> FrameOf(t, key) in s.handed)
  {
    hide FrameOf, Wire.Lawful, FullGroup, Pipeline.GroupsProtected, NumChunks;
    if FrameOf(t, key) in sent {
      assert Pipeline.SentFrom(t, s.packets + nacks, s'.completed, ParityCap(t, skip), FrameOf(t, key));
      var other :| IsKey(t, other) && GroupOf(t, other) !in s'.completed && FrameOf(t, other) == FrameOf(t, key);
      SameGroup(t, key, other);
    }
  }

  lemma NextKeepsOut(t: Transfer, k: Settings, skip: set<nat>, w: World, w': World, g: nat, key: Key)
    requires Valid(t) && Accepts(k.config) && Next(t, k, skip, w, w') && IsKey(t, key) && GroupOf(t, key) == g
    requires g in w.sender.completed
    ensures g in w'.sender.completed && (FrameOf(t, key) in w'.sender.handed ==> FrameOf(t, key) in w.sender.handed)
  {
    hide FrameOf, Handle, Wire.Lawful, FullGroup, Flush, IsKey, GroupOf;
    if SendStep(t, skip, w, w') && !Advance(t, skip, w.sender, w'.sender) {
      var nacks, sent :| Flush(t, skip, w.sender, w'.sender, w.mailbox, nacks, sent);
      FlushKeepsOut(t, skip, w.sender, w'.sender, w.mailbox, nacks, sent, g, key);
    }
  }

  lemma RunStep(t: Transfer, k: Settings, skip: set<nat>, part: Bytes, received: set<nat>, run: seq<World>, i: nat)
    requires Valid(t) && For(t, k) && Accepts(k.config) && Safe(t, part, received)
    requires IsRun(t, k, skip, part, received, run) && i < |run|
    ensures SenderInv(t, skip, run[i].sender) && (i + 1 < |run| ==> Next(t, k, skip, run[i], run[i + 1]))
  {
    RunInv(t, k, skip, part, received, run, i);
    hide Next, SenderInv, Inv, AllTruthful, Clear, OnlySource, Justified;
  }

  lemma FlushShields(t: Transfer, skip: set<nat>, s: SenderState, s': SenderState, fb: Option<Feedback>,
          nacks: seq<Packet>, sent: set<Bytes>, g: nat)
    returns (p: nat)
    requires Valid(t) && SenderInv(t, skip, s) && Flush(t, skip, s, s', fb, nacks, sent)
    requires SentWhole(t, s.packets + nacks, s'.completed, g)
    ensures Min(s'.parity, ParityCap(t, skip)) <= p && Shielded(t, s'.handed, g, p)
    ensures ParityCap(t, skip) > 0 ==> s'.parity >= 1
  {
    hide Pipeline.BatchSent, SentWhole, Shielded, Pipeline.GroupsProtected;
    FlushKeepsInv(t, skip, s, s', fb, nacks, sent);
    AllDataAppend(t, s.packets, nacks);
    assert Pipeline.BatchCovered(s.packets + nacks, s'.completed, sent);
    p := WholeShielded(t, Min(s'.parity, ParityCap(t, skip)), s.packets + nacks, s'.completed, sent, g);
    ShieldedStays(t, sent, s'.handed, g, p);
  }

  lemma HandedGrows(t: Transfer, k: Settings, skip: set<nat>, w: World, w': World)
    requires Valid(t) && Accepts(k.config) && Next(t, k, skip, w, w')
    ensures w.sender.handed <= w'.sender.handed
  {
    hide FrameOf, Handle, Wire.Lawful, Pipeline.SentFrom, Pipeline.GroupsProtected;
  }

  /** When nothing handed out is lost, every loss is tolerable. */
  lemma TransferCompletes(t: Transfer, k: Settings, skip: set<nat>, part: Bytes, received: set<nat>,
          run: seq<World>, i: nat)
    requires Valid(t) && For(t, k) && Accepts(k.config) && Safe(t, part, received)
    requires IsRun(t, k, skip, part, received, run) && i < |run|
    requires SenderDone(t, run[i]) && NothingLost(t, run[i])
    ensures forall c :: 0 <= c < NumChunks(t) ==> c in skip || c in run[i].recv.recv.received
    ensures (forall c :: c in skip ==> Holds(t, part, c)) ==> run[i].recv.recv.file == t.source
  {
    AllCarried(t, run[i]);
    hide *;
    TransferSurvivesLoss(t, k, skip, part, received, run, i);
  }

  lemma AllCarried(t: Transfer, w: World)
    requires Valid(t) && NothingLost(t, w)
    ensures LossTolerable(t, w)
  {
    hide Carried, Survives;
  }

  /** The receiver counts all chunks, so its session ends. */
  predicate Full(t: Transfer, w: World)
    requires t.chunkSize > 0
  {
    |w.recv.recv.received| >= NumChunks(t)
  }

  /** The clear frames of a group with a skipped chunk are the data frames of its other chunks. */
  lemma OnlyOthers(t: Transfer, skip: set<nat>, key: Key, c: nat)
    requires Valid(t) && c in skip && c < NumChunks(t) && Clear(t, skip, key) && GroupOf(t, key) == Div(c, t.dataShards)
    ensures key.Data? && key.i != c
  {
    DataSlot(t, c);
    assert ChunkAt(t, GroupOf(t, key), SlotOf(t, Data(c))) == c;
  }

  /** A group with a skipped chunk never has enough shards to be recovered. */
  lemma SkippedNotEnough(t: Transfer, skip: set<nat>, delivered: set<Key>, c: nat)
    requires Valid(t) && c in skip && c < NumChunks(t)
    requires forall key :: key in delivered ==> IsKey(t, key) && Clear(t, skip, key)
    ensures Data(c) !in delivered && !Enough(t, Div(c, t.dataShards), delivered)
  {
    hide Wire.Lawful, NumChunks;
    var n, g, own := t.dataShards, Div(c, t.dataShards), SlotOf(t, Data(c));
    DataSlot(t, c);
    forall slot | slot in SlotsOf(t, g, delivered) ensures slot < n && slot != own {
      var key :| key in delivered && GroupOf(t, key) == g && SlotOf(t, key) == slot;
      assert Clear(t, skip, key) && IsKey(t, key);
      OnlyOthers(t, skip, key, c);
      DataSlot(t, key.i);
    }
    assert SlotsOf(t, g, delivered) <= Below(n) - {own};
    SubsetSize(SlotsOf(t, g, delivered), Below(n) - {own});
  }

  /** A chunk that the sender skips and the receiver did not count at the start is never counted: it is
      not sent, it is not retransmitted, and its group gets no parity. */
  lemma SkippedNeverCounted(t: Transfer, k: Settings, skip: set<nat>, part: Bytes, received: set<nat>,
          run: seq<World>, i: nat, c: nat)
    requires Valid(t) && For(t, k) && Accepts(k.config) && Safe(t, part, received)
    requires IsRun(t, k, skip, part, received, run) && i < |run| && c in skip && c < NumChunks(t)
    ensures c in run[i].recv.recv.received <==> c in received
  {
    RunInv(t, k, skip, part, received, run, i);
    hide Next, SenderInv, AllTruthful, Clear, Enough, OnlySource, Wire.Lawful;
    var w := run[i];
    assert Inv(t, w.recv.recv, w.delivered) && Justified(t, w.recv.recv, received, w.delivered);
    SkippedNotEnough(t, skip, w.delivered, c);
  }

  lemma FullCounts(t: Transfer, s: Recv)
    requires Valid(t) && Safe(t, s.file, s.received)
    ensures |s.received| >= NumChunks(t) <==> forall c: nat :: c < NumChunks(t) ==> c in s.received
  {
    hide Wire.Lawful, NumChunks;
    var n := NumChunks(t);
    assert s.received <= Below(n);
    SubsetSize(s.received, Below(n));
    if forall c: nat :: c < n ==> c in s.received {
      assert s.received == Below(n);
    } else {
      var c: nat :| c < n && c !in s.received;
      assert s.received <= Below(n) - {c};
      SubsetSize(s.received, Below(n) - {c});
    }
  }

  /** When the sender is done and every loss is tolerable, the session is full if and only if the receiver
      counted every skipped chunk from the start. */
  lemma SessionFills(t: Transfer, k: Settings, skip: set<nat>, part: Bytes, received: set<nat>, run: seq<World>, i: nat)
    requires Valid(t) && For(t, k) && Accepts(k.config) && Safe(t, part, received)
    requires IsRun(t, k, skip, part, received, run) && i < |run|
    requires SenderDone(t, run[i]) && LossTolerable(t, run[i])
    ensures Full(t, run[i]) <==> forall c :: c in skip && c < NumChunks(t) ==> c in received
  {
    var s := run[i].recv.recv;
    RunSafe(t, k, skip, part, received, run, i);
    FullCounts(t, s);
    hide IsRun, SenderDone, LossTolerable, Safe, Wire.Lawful, For, NumChunks;
    TransferSurvivesLoss(t, k, skip, part, received, run, i);
    forall c | c in skip && c < NumChunks(t) ensures c in s.received <==> c in received {
      SkippedNeverCounted(t, k, skip, part, received, run, i, c);
    }
  }

  lemma RunSafe(t: Transfer, k: Settings, skip: set<nat>, part: Bytes, received: set<nat>, run: seq<World>, i: nat)
    requires Valid(t) && For(t, k) && Accepts(k.config) && Safe(t, part, received)
    requires IsRun(t, k, skip, part, received, run) && i < |run|
    ensures Safe(t, run[i].recv.recv.file, run[i].recv.recv.received)
  {
    RunInv(t, k, skip, part, received, run, i);
    hide Next, SenderInv, AllTruthful, Clear, OnlySource, Wire.Lawful, Justified;
  }

  /** A resumed session: what the earlier sessions left, what the receiver says of it, what the sender skips. */
  ghost predicate Resumed(t: Transfer, oldPart: Bytes, saved: set<nat>, hashes: seq<Bytes>, skip: set<nat>)
    requires Valid(t)
  {
    && Resume.SavedHeld(t, oldPart, saved)
    && |hashes| == NumChunks(t)
    && (forall c :: 0 <= c < NumChunks(t) ==> hashes[c] == Resume.ExistingHash(t.codecs, ManifestOf(t), oldPart, c))
    && forall c :: c in skip <==> c in saved || (0 <= c < NumChunks(t) && Resume.HashMatches(t, hashes, c))
  }

  lemma ResumedSafe(t: Transfer, oldPart: Bytes, saved: set<nat>, hashes: seq<Bytes>, skip: set<nat>)
    requires Valid(t) && Resumed(t, oldPart, saved, hashes, skip)
    ensures Safe(t, Resize(oldPart, |t.source|), saved)
  {
    hide Wire.Lawful, NumChunks;
    forall c | c in saved ensures c < NumChunks(t) && Holds(t, Resize(oldPart, |t.source|), c) {
      Resume.ResizedHolds(t, oldPart, c);
    }
  }

  /** Whatever part file and resume file the earlier sessions left, the chunks skipped because they were
      acknowledged or because their hashes matched need not be sent: once the rest has arrived, the part
      file is the source. */
  lemma ResumedFileIsSource(t: Transfer, k: Settings, oldPart: Bytes, saved: set<nat>, hashes: seq<Bytes>,
          skip: set<nat>, run: seq<World>, i: nat)
    requires Valid(t) && For(t, k) && Accepts(k.config)
    requires Resumed(t, oldPart, saved, hashes, skip) && Resume.NoCollision(t, oldPart)
    requires IsRun(t, k, skip, Resize(oldPart, |t.source|), saved, run) && i < |run|
    requires SenderDone(t, run[i]) && LossTolerable(t, run[i])
    ensures run[i].recv.recv.file == t.source
  {
    var part := Resize(oldPart, |t.source|);
    ResumedSafe(t, oldPart, saved, hashes, skip);
    Resume.SkipSafe(t, oldPart, saved, hashes, skip);
    assert Resume.Opened(Resume.Disk(Some(oldPart), saved), true, |t.source|) == part;
    hide *;
    TransferSurvivesLoss(t, k, skip, part, saved, run, i);
  }

  /** But the session ends if and only if every chunk that matches by hash is listed in the resume file. */
  lemma ResumedSessionFills(t: Transfer, k: Settings, oldPart: Bytes, saved: set<nat>, hashes: seq<Bytes>,
          skip: set<nat>, run: seq<World>, i: nat)
    requires Valid(t) && For(t, k) && Accepts(k.config) && Resumed(t, oldPart, saved, hashes, skip)
    requires IsRun(t, k, skip, Resize(oldPart, |t.source|), saved, run) && i < |run|
    requires SenderDone(t, run[i]) && LossTolerable(t, run[i])
    ensures Full(t, run[i]) <==> forall c :: 0 <= c < NumChunks(t) && Resume.HashMatches(t, hashes, c) ==> c in saved
  {
    ResumedSafe(t, oldPart, saved, hashes, skip);
    SessionFills(t, k, skip, Resize(oldPart, |t.source|), saved, run, i);
    hide IsRun, SenderDone, LossTolerable, Safe, Wire.Lawful, For, NumChunks, Full, Resume.HashMatches, Resume.ExistingHash;
  }

  /** A chunk that matches by hash and is not listed keeps the session from ever ending, in every run. */
  lemma UnlistedMatchStalls(t: Transfer, k: Settings, oldPart: Bytes, saved: set<nat>, hashes: seq<Bytes>,
          skip: set<nat>, run: seq<World>, i: nat, c: nat)
    requires Valid(t) && For(t, k) && Accepts(k.config) && Resumed(t, oldPart, saved, hashes, skip)
    requires IsRun(t, k, skip, Resize(oldPart, |t.source|), saved, run) && i < |run|
    requires c < NumChunks(t) && Resume.HashMatches(t, hashes, c) && c !in saved
    ensures !Full(t, run[i])
  {
    var part := Resize(oldPart, |t.source|);
    ResumedSafe(t, oldPart, saved, hashes, skip);
    assert c in skip;
    hide IsRun, Safe, Wire.Lawful, For, NumChunks, Resume.HashMatches, Resume.ExistingHash;
    SkippedNeverCounted(t, k, skip, part, saved, run, i, c);
    RunSafe(t, k, skip, part, saved, run, i);
    FullCounts(t, run[i].recv.recv);
  }

  /** Such a run, of a file of one chunk whose only chunk is in place and not listed: the sender is done without
      handing anything out, the part file is the source, and the receiver waits. */
  lemma StalledRun(t: Transfer, k: Settings) returns (run: seq<World>, skip: set<nat>, hashes: seq<Bytes>)
    requires Valid(t) && For(t, k) && Accepts(k.config) && 0 < |t.source| <= t.chunkSize
    requires t.codecs.hash(t.source) != Resume.NO_HASH
    ensures Resumed(t, t.source, {}, hashes, skip) && IsRun(t, k, skip, Resize(t.source, |t.source|), {}, run)
    ensures var w := run[|run| - 1];
            && SenderDone(t, w) && LossTolerable(t, w) && w.sender.handed == {}
            && w.recv.recv.file == t.source && !Full(t, w) && Accept(k, w.recv, []).1 == Waiting
  {
    OnlyChunkWhole(t);
    hashes, skip := [t.codecs.hash(t.source)], {0};
    var file := Resize(t.source, |t.source|);
    var first := World(SenderState(0, [], {}, {}, ParityCap(t, skip)), Start0(file, {}, {}), None, {});
    var last := first.(sender := first.sender.(next := 1));
    run := [first, last];
    hide Wire.Lawful, NumChunks, Valid;
    assert Advance(t, skip, first.sender, last.sender);
    assert SendStep(t, skip, first, last);
    assert Next(t, k, skip, run[0], run[1]);
  }

  lemma OnlyChunkWhole(t: Transfer)
    requires Valid(t) && 0 < |t.source| <= t.chunkSize
    ensures NumChunks(t) == 1 && ChunkBytes(t, 0) == t.source && Resize(t.source, |t.source|) == t.source
    ensures Resume.ExistingHash(t.codecs, ManifestOf(t), t.source, 0) == t.codecs.hash(t.source)
  {
    ChunkRange(t, 0);
    ChunkRange(t, 1);
    assert Start(t, 0) == 0 && Start(t, 1) == t.chunkSize;
    assert t.source[0..|t.source|] == t.source && t.source + Zeros(0) == t.source;
  }
}
