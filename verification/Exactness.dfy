/** Which chunks a receiver holds, as a function of the set of frames delivered to it. */
module Exactness {
  import opened Bytes
  import opened Arith
  import opened ReedSolomon
  import opened Source
  import opened Receiver
  import opened Safety
  import opened Delivery

  /** The delivered shards of the group suffice: as many as it has data shards, one of them data. */
  ghost predicate Enough(t: Transfer, g: nat, delivered: set<Key>)
    requires t.dataShards > 0
  {
    && t.parityShards > 0
    && |SlotsOf(t, g, delivered)| >= t.dataShards
    && (exists slot :: slot in SlotsOf(t, g, delivered) && slot < t.dataShards)
  }

  /** Nothing is received or held without a cause in what was delivered. */
  ghost predicate Justified(t: Transfer, s: Recv, base: set<nat>, delivered: set<Key>)
    requires t.dataShards > 0
  {
    && (forall i :: i in s.received ==> i in base || Data(i) in delivered || Enough(t, Div(i, t.dataShards), delivered))
    && (forall g, slot: nat :: g in s.groups && slot < |s.groups[g]| && s.groups[g][slot].Some? ==>
            slot in SlotsOf(t, g, delivered))
  }

  lemma EnoughGrows(t: Transfer, g: nat, delivered: set<Key>, key: Key)
    requires t.dataShards > 0
    ensures SlotsOf(t, g, delivered) <= SlotsOf(t, g, delivered + {key})
    ensures Enough(t, g, delivered) ==> Enough(t, g, delivered + {key})
  {
    assert SlotsOf(t, g, delivered) <= SlotsOf(t, g, delivered + {key});
    SubsetSize(SlotsOf(t, g, delivered), SlotsOf(t, g, delivered + {key}));
  }

  lemma JustifiedGrows(t: Transfer, s: Recv, base: set<nat>, delivered: set<Key>, key: Key)
    requires t.dataShards > 0 && Justified(t, s, base, delivered)
    ensures Justified(t, s, base, delivered + {key})
  {
    forall i | i in s.received ensures i in base || Data(i) in delivered + {key}
            || Enough(t, Div(i, t.dataShards), delivered + {key}) {
      EnoughGrows(t, Div(i, t.dataShards), delivered, key);
    }
    forall g, slot: nat | g in s.groups && slot < |s.groups[g]| && s.groups[g][slot].Some?
      ensures slot in SlotsOf(t, g, delivered + {key})
    {
      EnoughGrows(t, g, delivered, key);
    }
  }

  /** A group that is ready to recover holds enough delivered shards. */
  lemma ReadyIsEnough(t: Transfer, g: nat, group: Group, delivered: set<Key>)
    requires 0 < t.dataShards && 0 < t.parityShards && 0 < t.chunkSize && RecoveryReady(ManifestOf(t), group)
    requires forall slot: nat :: slot < |group| && group[slot].Some? ==> slot in SlotsOf(t, g, delivered)
    ensures Enough(t, g, delivered)
  {
    assert Present(group) <= SlotsOf(t, g, delivered);
    SubsetSize(Present(group), SlotsOf(t, g, delivered));
    var i :| 0 <= i < t.dataShards && group[i].Some?;
    assert i in SlotsOf(t, g, delivered);
  }

  lemma StoredJustified(t: Transfer, s: Recv, base: set<nat>, delivered: set<Key>, key: Key, shard: Bytes, s1: Recv)
    requires Valid(t) && t.parityShards > 0 && key in delivered && Justified(t, s, base, delivered)
    requires var g, slot := GroupOf(t, key), SlotOf(t, key);
             RecoverPost(t, s.(groups := StoreShard(ManifestOf(t), s.groups, g, slot, shard)), g, s1)
    ensures Justified(t, s1, base, delivered)
  {
    var g, slot := GroupOf(t, key), SlotOf(t, key);
    var groups: map<nat, Group> := StoreShard(ManifestOf(t), s.groups, g, slot, shard);
    assert slot in SlotsOf(t, g, delivered);
    forall x: nat | x < |groups[g]| && groups[g][x].Some? ensures x in SlotsOf(t, g, delivered) {
      if x != slot { assert g in s.groups && s.groups[g][x].Some?; }
    }
    if RecoveryReady(ManifestOf(t), groups[g]) { ReadyIsEnough(t, g, groups[g], delivered); }
  }

  lemma StoreAndRecoverJustified(t: Transfer, verify: bool, s: Recv, base: set<nat>, delivered: set<Key>, key: Key,
          g: nat, slot: nat, shard: Bytes)
    requires Valid(t) && t.parityShards > 0 && Good(t, s) && key in delivered && Justified(t, s, base, delivered)
    requires g == GroupOf(t, key) && slot == SlotOf(t, key) && FitsSlot(t, s.received, g, slot, shard)
    ensures Justified(t, StoreAndRecover(ConfigOf(t, verify), s, g, slot, shard).0, base, delivered)
  {
    var s0 := s.(groups := StoreShard(ManifestOf(t), s.groups, g, slot, shard));
    StoreKeepsGood(t, s, g, slot, shard);
    TryRecoverHonest(t, verify, s0, g);
    StoredJustified(t, s, base, delivered, key, shard, TryRecover(ConfigOf(t, verify), s0, g).0);
  }

  lemma IngestDataJustified(t: Transfer, verify: bool, s: Recv, base: set<nat>, delivered: set<Key>, i: nat)
    requires Valid(t) && i < NumChunks(t) && Inv(t, s, delivered) && Justified(t, s, base, delivered)
    ensures Justified(t, Ingest(ConfigOf(t, verify), s, DataFrame(t, i)).0, base, delivered + {Data(i)})
  {
    var key := Data(i);
    var s1 := Persist(ConfigOf(t, verify), s, DataFrame(t, i)).0;
    PersistKeepsInv(t, verify, s, delivered, i);
    JustifiedGrows(t, s, base, delivered, key);
    assert Justified(t, s1, base, delivered + {key});
    assert Good(t, s1) && Safe(t, s.file, s.received);
    hide Inv, Justified, Persist, Ingest, StoreAndRecover, FitsSlot, Good, Safe, DataFrame;
    IngestDataFrame(t, verify, s, i);
    if t.parityShards > 0 {
      DataFitsSlot(t, s1.received, i);
      StoreAndRecoverJustified(t, verify, s1, base, delivered + {key}, key, GroupOf(t, key), SlotOf(t, key),
              DataFrame(t, i));
    }
  }

  lemma InvIsGood(t: Transfer, s: Recv, delivered: set<Key>)
    requires Valid(t) && Inv(t, s, delivered)
    ensures Good(t, s)
  {}

  lemma IngestParityJustified(t: Transfer, verify: bool, s: Recv, base: set<nat>, delivered: set<Key>, g: nat,
          i: nat, p: nat)
    requires Valid(t) && IsKey(t, Parity(g, i, p)) && Inv(t, s, delivered) && Justified(t, s, base, delivered)
    ensures Justified(t, Ingest(ConfigOf(t, verify), s, ParityFrame(t, g, i, p)).0, base, delivered + {Parity(g, i, p)})
  {
    hide *;
    var key := Parity(g, i, p);
    ParityKey(t, g, i, p);
    InvIsGood(t, s, delivered);
    JustifiedGrows(t, s, base, delivered, key);
    IngestParityFrame(t, verify, s, g, i, p);
    ParityFitsSlot(t, s.received, g, i);
    StoreAndRecoverJustified(t, verify, s, base, delivered + {key}, key, g, t.dataShards + i, ParityBody(t, g, i));
  }

  lemma IngestJustified(t: Transfer, verify: bool, s: Recv, base: set<nat>, delivered: set<Key>, key: Key)
    requires Valid(t) && IsKey(t, key) && Inv(t, s, delivered) && Justified(t, s, base, delivered)
    ensures Justified(t, Ingest(ConfigOf(t, verify), s, FrameOf(t, key)).0, base, delivered + {key})
  {
    hide Inv, Justified, Ingest;
    match key
    case Data(i) => IngestDataJustified(t, verify, s, base, delivered, i);
    case Parity(g, i, p) => IngestParityJustified(t, verify, s, base, delivered, g, i, p);
  }

  lemma {:induction false} RunJustified(t: Transfer, verify: bool, s: Recv, base: set<nat>, delivered: set<Key>,
          keys: seq<Key>)
    requires Valid(t) && AreKeys(t, keys) && Inv(t, s, delivered) && Justified(t, s, base, delivered)
    ensures Justified(t, IngestAll(ConfigOf(t, verify), s, FramesOf(t, keys)).0, base, delivered + KeySet(keys))
    decreases |keys|
  {
    hide Inv, Ingest, Justified, FrameOf, KeySet, FramesOf;
    KeySetStep(delivered, keys);
    if keys != [] {
      IngestHonest(t, verify, s, delivered, keys[0]);
      FirstFrame(t, verify, s, keys);
      IngestJustified(t, verify, s, base, delivered, keys[0]);
      RunJustified(t, verify, Ingest(ConfigOf(t, verify), s, FrameOf(t, keys[0])).0, base, delivered + {keys[0]},
              keys[1..]);
      hide IngestAll;
    }
  }

  /** A fresh receiver ends up with exactly the chunks whose frame arrived and the chunks of groups
      of which enough shards arrived. The order and the number of copies make no difference. */
  lemma ReceivedExactly(t: Transfer, verify: bool, keys: seq<Key>, i: nat)
    requires Valid(t) && AreKeys(t, keys) && i < NumChunks(t)
    ensures var s := IngestAll(ConfigOf(t, verify), Fresh(t), FramesOf(t, keys)).0;
            i in s.received <==> Data(i) in keys || Enough(t, Div(i, t.dataShards), KeySet(keys))
  {
    var D := KeySet(keys);
    FreshInv(t);
    assert {} + D == D;
    RunKeepsInv(t, verify, Fresh(t), {}, keys);
    RunJustified(t, verify, Fresh(t), {}, {}, keys);
    var s := IngestAll(ConfigOf(t, verify), Fresh(t), FramesOf(t, keys)).0;
    var g := Div(i, t.dataShards);
    if Enough(t, g, D) {
      var slot :| slot in SlotsOf(t, g, D) && slot < t.dataShards;
      var key :| key in D && GroupOf(t, key) == g && SlotOf(t, key) == slot;
      EnoughShardsComplete(t, s, D, g, key.i);
      DataSlot(t, i);
    }
  }
}
