/** The completion-first scheduler: it reorders and repeats packets, and drops completed groups. */
module Optimizer {
  import opened Bytes
  import opened Packets

  datatype Block = Block(id: nat, total: nat, required: nat, sent: nat, acks: nat, inFlight: nat)

  datatype Decision = Decision(additional: nat, duplicate: bool, urgent: bool)

  predicate IsComplete(b: Block) { b.acks >= b.required }

  function RemainingDataShards(b: Block): nat {
    SatSub(b.required, Max(b.acks, Min(b.sent, b.required)))
  }

  /** How many shards of the block to send next; never none while the block is incomplete. A straggler gets three,
      twice; a block that lacks at most two shards gets two, twice; any other what it lacks, and one more when
      completion comes first, but at least one and at most three. */
  function ScheduleBlock(b: Block, straggler: bool, completionFirst: bool): (d: Decision)
    ensures IsComplete(b) <==> d.additional == 0
    ensures d.additional <= 3 && (d.urgent ==> d.duplicate && d.additional == 3)
    ensures d.urgent <==> b.acks < b.required && completionFirst && straggler
    ensures d.duplicate <==> d.urgent || (b.acks < b.required && b.required <= Max(b.acks, b.sent) + 2)
    ensures d.duplicate && !d.urgent ==> d.additional == 2
    ensures !d.duplicate && !IsComplete(b) ==>
              var goal := b.required + (if completionFirst then 1 else 0);
              var after := b.sent + b.inFlight + d.additional;
              (d.additional < 3 ==> after >= goal) && (d.additional > 1 ==> after <= goal)
  {
    if IsComplete(b) then Decision(0, false, false)
    else if completionFirst && straggler then Decision(3, true, true)
    else if RemainingDataShards(b) <= 2 then Decision(2, true, false)
    else
      var missing := SatSub(b.required, b.sent + b.inFlight);
      Decision(Min(Max(missing + (if completionFirst then 1 else 0), 1), 3), false, false)
  }

  /** The packets whose group is not completed. */
  function Kept(ps: seq<Packet>, completed: set<nat>): (r: seq<Packet>)
    ensures forall p :: p in r <==> p in ps && p.group !in completed
  {
    if ps == [] then []
    else
      var last := |ps| - 1;
      assert ps == ps[..last] + [ps[last]];
      Kept(ps[..last], completed) + (if ps[last].group in completed then [] else [ps[last]])
  }

  /** Each packet of `sent` once or twice, and nothing else. */
  ghost predicate OnceOrTwice(sent: multiset<Packet>, out: multiset<Packet>) {
    forall p :: sent[p] <= out[p] <= 2 * sent[p]
  }

  type Shards = map<nat, seq<Packet>>

  /** The copies of `p` not scheduled yet. */
  ghost function Left(shards: Shards, p: Packet): nat {
    if p.group in shards then multiset(shards[p.group])[p] else 0
  }

  /** Every packet of `kept` is still waiting, or was output once or twice. */
  ghost predicate Accounted(kept: multiset<Packet>, shards: Shards, out: multiset<Packet>) {
    && (forall p :: Left(shards, p) <= kept[p])
    && (forall p :: kept[p] - Left(shards, p) <= out[p] <= 2 * (kept[p] - Left(shards, p)))
    && (forall g :: g in shards ==> forall i :: 0 <= i < |shards[g]| ==> shards[g][i].group == g)
  }

  lemma MultisetLast(s: seq<Packet>)
    requires s != []
    ensures multiset(s) == multiset(s[..|s| - 1]) + multiset{s[|s| - 1]}
  {
    assert s == s[..|s| - 1] + [s[|s| - 1]];
  }

  /** Moving the last waiting shard of group `g` to the output, with or without a second copy. */
  lemma PopAccounted(kept: multiset<Packet>, shards: Shards, out: multiset<Packet>, g: nat, twice: bool)
    requires Accounted(kept, shards, out) && g in shards && shards[g] != []
    ensures var last := |shards[g]| - 1; var p := shards[g][last];
            Accounted(kept, shards[g := shards[g][..last]],
                    out + multiset{p} + (if twice then multiset{p} else multiset{}))
  {
    var last := |shards[g]| - 1;
    var p := shards[g][last];
    var shards' := shards[g := shards[g][..last]];
    MultisetLast(shards[g]);
    forall x ensures Left(shards', x) == Left(shards, x) - (if x == p then 1 else 0) {
      assert p.group == g;
    }
  }

  lemma SubMultisetSize(a: multiset<Packet>, b: multiset<Packet>)
    requires forall p :: a[p] <= b[p]
    ensures |a| <= |b|
  {
    assert b == a + (b - a);
  }

  /** The output is at most twice as long as the input. */
  lemma OutputBound(kept: multiset<Packet>, shards: Shards, out: multiset<Packet>)
    requires Accounted(kept, shards, out)
    ensures |out| <= 2 * |kept|
  {
    forall p ensures out[p] <= (kept + kept)[p] { assert Left(shards, p) >= 0; }
    SubMultisetSize(out, kept + kept);
  }

  lemma EmptyLeft(kept: multiset<Packet>, shards: Shards, out: multiset<Packet>)
    requires Accounted(kept, shards, out) && forall g :: g in shards ==> shards[g] == []
    ensures OnceOrTwice(kept, out)
  {
    forall p ensures kept[p] <= out[p] <= 2 * kept[p] { assert Left(shards, p) == 0; }
  }

  /** `shards` holds the packets of `kept`, each under its group. */
  ghost predicate Sorted(kept: seq<Packet>, shards: Shards) {
    && (forall p :: Left(shards, p) == multiset(kept)[p])
    && (forall g :: g in shards ==> forall j :: 0 <= j < |shards[g]| ==> shards[g][j].group == g)
  }

  /** One more copy of `p` is waiting, and as many of every other packet as before. */
  lemma PushLeft(kept: seq<Packet>, shards: Shards, p: Packet, x: Packet)
    requires Left(shards, x) == multiset(kept)[x]
    ensures Left(shards[p.group := (if p.group in shards then shards[p.group] else []) + [p]], x) == multiset(kept + [p])[x]
  {}

  lemma PushSorted(kept: seq<Packet>, shards: Shards, p: Packet)
    requires Sorted(kept, shards)
    ensures Sorted(kept + [p], shards[p.group := (if p.group in shards then shards[p.group] else []) + [p]])
  {
    hide Left;
    var buf := if p.group in shards then shards[p.group] else [];
    var shards' := shards[p.group := buf + [p]];
    forall x ensures Left(shards', x) == multiset(kept + [p])[x] {
      assert Left(shards, x) == multiset(kept)[x];
      PushLeft(kept, shards, p, x);
    }
  }

  /** Groups the packets that are still needed. */
  method GroupPackets(packets: seq<Packet>, completed: set<nat>) returns (shards: Shards)
    ensures Accounted(multiset(Kept(packets, completed)), shards, multiset{})
  {
    shards := map[];
    assert Sorted(Kept(packets[..0], completed), shards);
    hide Sorted, Accounted;
    for i := 0 to |packets|
      invariant Sorted(Kept(packets[..i], completed), shards)
    {
      var p := packets[i];
      KeptStep(packets, completed, i);
      if p.group !in completed {
        PushSorted(Kept(packets[..i], completed), shards, p);
        shards := shards[p.group := (if p.group in shards then shards[p.group] else []) + [p]];
      }
    }
    assert packets[..|packets|] == packets;
    NothingSent(Kept(packets, completed), shards);
  }

  lemma KeptStep(ps: seq<Packet>, completed: set<nat>, i: nat)
    requires i < |ps|
    ensures Kept(ps[..i + 1], completed)
            == if ps[i].group in completed then Kept(ps[..i], completed) else Kept(ps[..i], completed) + [ps[i]]
  {
    assert ps[..i + 1][..i] == ps[..i];
  }

  lemma NothingSent(kept: seq<Packet>, shards: Shards)
    requires Sorted(kept, shards)
    ensures Accounted(multiset(kept), shards, multiset{})
  {}

  /** The blocks of the packets still needed, none of them acknowledged. */
  ghost predicate BlocksOf(blocks: seq<Block>, shards: Shards) {
    && (forall i :: 0 <= i < |blocks| ==> !IsComplete(blocks[i]) && blocks[i].id in shards)
    && (forall g :: g in shards ==> exists i :: 0 <= i < |blocks| && blocks[i].id == g)
  }

  /** A block of `n` packets of which none was acknowledged: it requires all but the parity, and at least one. */
  ghost predicate Unacknowledged(b: Block, n: nat, dataShards: nat, parityShards: nat) {
    && b.total == n && (b.required + parityShards == n || (b.required == 1 && n <= parityShards)) && b.required >= 1
    && b.sent <= n && b.sent <= dataShards && (b.sent == n || b.sent == dataShards) && b.acks == b.inFlight == 0
  }

  ghost predicate Describes(b: Block, shards: Shards, dataShards: nat, parityShards: nat) {
    b.id in shards && Unacknowledged(b, |shards[b.id]|, dataShards, parityShards)
  }

  /** With at most two packets beyond its data and parity shards, a block counts as nearly done from the start: its
      first shards may be sent twice. */
  lemma NearlyDoneFromTheStart(b: Block, n: nat, dataShards: nat, parityShards: nat, straggler: bool, first: bool)
    requires Unacknowledged(b, n, dataShards, parityShards) && n <= dataShards + parityShards + 2
    ensures ScheduleBlock(b, straggler, first).duplicate && ScheduleBlock(b, straggler, first).additional >= 2
  {}

  method MakeBlocks(shards: Shards, dataShards: nat, parityShards: nat) returns (blocks: seq<Block>)
    ensures BlocksOf(blocks, shards)
    ensures forall i :: 0 <= i < |blocks| ==> Describes(blocks[i], shards, dataShards, parityShards)
  {
    blocks := [];
    var todo := shards.Keys;
    while todo != {}
      invariant todo <= shards.Keys
      invariant forall i :: 0 <= i < |blocks| ==> !IsComplete(blocks[i]) && blocks[i].id in shards
      invariant forall i :: 0 <= i < |blocks| ==> Describes(blocks[i], shards, dataShards, parityShards)
      invariant forall g :: g in shards && g !in todo ==> exists i :: 0 <= i < |blocks| && blocks[i].id == g
      decreases todo
    {
      var g :| g in todo;
      var n := |shards[g]|;
      var before := blocks;
      blocks := blocks + [Block(g, n, Max(SatSub(n, parityShards), 1), Min(n, dataShards), 0, 0)];
      todo := todo - {g};
      assert blocks[|before|].id == g;
      forall h | h in shards && h !in todo ensures exists i :: 0 <= i < |blocks| && blocks[i].id == h {
        if h != g {
          var i :| 0 <= i < |before| && before[i].id == h;
          assert blocks[i].id == h;
        }
      }
    }
  }

  /** Moves the last waiting shard of group `g` to the output, with a second copy if asked. */
  method SendOne(shards: Shards, g: nat, out: seq<Packet>, twice: bool, ghost kept: multiset<Packet>)
    returns (shards': Shards, out': seq<Packet>)
    requires Accounted(kept, shards, multiset(out)) && g in shards && shards[g] != []
    ensures Accounted(kept, shards', multiset(out')) && |out'| == |out| + (if twice then 2 else 1)
    ensures shards' == shards[g := shards[g][..|shards[g]| - 1]]
  {
    var last := |shards[g]| - 1;
    var p := shards[g][last];
    PopAccounted(kept, shards, multiset(out), g, twice);
    hide Accounted;
    shards' := shards[g := shards[g][..last]];
    out' := out + [p] + (if twice then [p] else []);
    assert multiset(out') == multiset(out) + multiset{p} + (if twice then multiset{p} else multiset{});
  }

  /** Schedules up to `decision.additional` shards of the block at `next`. The path utilities that
      decide on a second copy are arbitrary. */
  method SendShards(blocks: seq<Block>, next: nat, decision: Decision, shards: Shards, out: seq<Packet>,
          ghost kept: multiset<Packet>)
    returns (blocks': seq<Block>, shards': Shards, out': seq<Packet>)
    requires next < |blocks| && BlocksOf(blocks, shards) && Accounted(kept, shards, multiset(out))
    requires decision.additional > 0 && shards[blocks[next].id] != [] && (decision.urgent ==> decision.duplicate)
    ensures BlocksOf(blocks', shards') && Accounted(kept, shards', multiset(out'))
    ensures |out| < |out'| && shards'.Keys == shards.Keys && |blocks'| == |blocks|
    ensures var g := blocks[next].id; var taken := |shards[g]| - |shards'[g]|;
            && taken == Min(decision.additional, |shards[g]|)
            && |out'| - |out| <= 2 * taken && (decision.urgent ==> |out'| - |out| == 2 * taken)
            && |out'| - |out| >= taken && (!decision.duplicate ==> |out'| - |out| == taken)
  {
    blocks', shards', out' := blocks, shards, out;
    var g := blocks[next].id;
    assert g in shards;
    hide Accounted, BlocksOf;
    for k := 0 to decision.additional
      invariant BlocksOf(blocks', shards') && Accounted(kept, shards', multiset(out'))
      invariant shards'.Keys == shards.Keys && |blocks'| == |blocks|
      invariant g in shards' && |shards'[g]| == SatSub(|shards[g]|, k)
      invariant |out'| - |out| >= |shards[g]| - |shards'[g]|
      invariant !decision.duplicate ==> |out'| - |out| == |shards[g]| - |shards'[g]|
      invariant |out'| - |out| <= 2 * (|shards[g]| - |shards'[g]|)
      invariant decision.urgent ==> |out'| - |out| == 2 * (|shards[g]| - |shards'[g]|)
    {
      if shards'[g] != [] {
        var twice := *;
        PopKeepsBlocks(blocks', shards', g, shards'[g][..|shards'[g]| - 1]);
        shards', out' := SendOne(shards', g, out', decision.duplicate && (decision.urgent || twice), kept);
        blocks' := BumpBlock(blocks', next, shards');
      }
    }
  }

  lemma PopKeepsBlocks(blocks: seq<Block>, shards: Shards, g: nat, rest: seq<Packet>)
    requires BlocksOf(blocks, shards) && g in shards
    ensures BlocksOf(blocks, shards[g := rest])
  {}

  /** Counts one more shard of the block as sent and in flight. */
  method BumpBlock(blocks: seq<Block>, next: nat, ghost shards: Shards) returns (blocks': seq<Block>)
    requires next < |blocks| && BlocksOf(blocks, shards)
    ensures BlocksOf(blocks', shards) && |blocks'| == |blocks|
    ensures var b := blocks[next]; blocks' == blocks[next := b.(sent := b.sent + 1, inFlight := b.inFlight + 1)]
  {
    var b := blocks[next];
    blocks' := blocks[next := b.(sent := b.sent + 1, inFlight := b.inFlight + 1)];
    forall g | g in shards ensures exists i :: 0 <= i < |blocks'| && blocks'[i].id == g {
      var i :| 0 <= i < |blocks| && blocks[i].id == g;
      assert blocks'[i].id == g;
    }
  }

  /** Drains what the loop left behind. */
  method DrainRest(shards: Shards, out: seq<Packet>, ghost kept: multiset<Packet>) returns (out': seq<Packet>)
    requires Accounted(kept, shards, multiset(out))
    ensures OnceOrTwice(kept, multiset(out'))
  {
    out' := out;
    var shards', todo := shards, shards.Keys;
    while todo != {}
      invariant todo <= shards'.Keys && Accounted(kept, shards', multiset(out'))
      invariant forall g :: g in shards' && g !in todo ==> shards'[g] == []
      decreases todo
    {
      hide Accounted;
      var g :| g in todo;
      while shards'[g] != []
        invariant g in shards' && todo <= shards'.Keys && Accounted(kept, shards', multiset(out'))
        invariant forall h :: h in shards' && h !in todo ==> shards'[h] == []
        decreases |shards'[g]|
      {
        var last := |shards'[g]| - 1;
        PopAccounted(kept, shards', multiset(out'), g, false);
        out' := out' + [shards'[g][last]];
        shards' := shards'[g := shards'[g][..last]];
      }
      todo := todo - {g};
    }
    EmptyLeft(kept, shards', multiset(out'));
  }

  /** Orders the batch by block utility. Utilities, stragglers and path choices come from floating
      point estimates; the result holds for every value of them. */
  method OptimizeTransfer(packets: seq<Packet>, completed: set<nat>, completionFirst: bool, dataShards: nat,
          parityShards: nat)
    returns (out: seq<Packet>)
    ensures completionFirst ==> OnceOrTwice(multiset(Kept(packets, completed)), multiset(out))
    ensures !completionFirst ==> out == packets
  {
    if !completionFirst { return packets; }
    hide Accounted, BlocksOf, Kept;
    var shards: Shards := GroupPackets(packets, completed);
    ghost var kept := multiset(Kept(packets, completed));
    var blocks := MakeBlocks(shards, dataShards, parityShards);
    out := [];
    while exists i :: 0 <= i < |blocks| && !IsComplete(blocks[i]) && blocks[i].id in shards && shards[blocks[i].id] != []
      invariant BlocksOf(blocks, shards) && Accounted(kept, shards, multiset(out))
      invariant |out| <= 2 * |kept|
      decreases 2 * |kept| - |out|
    {
      var next :| 0 <= next < |blocks| && !IsComplete(blocks[next]) && blocks[next].id in shards
              && shards[blocks[next].id] != [];
      var straggler := *;
      var decision := ScheduleBlock(blocks[next], straggler, completionFirst);
      blocks, shards, out := SendShards(blocks, next, decision, shards, out, kept);
      OutputBound(kept, shards, multiset(out));
    }
    out := DrainRest(shards, out, kept);
  }
}
