/** Every group whose packets all go through the parity stage leaves it with its parity. */
module Protection {
  import opened Bytes
  import opened Arith
  import opened Wire
  import opened Packets
  import opened Encoder
  import opened Stage
  import opened Collect

  /** A full block of consumed packets of group `g` was encoded, and all of it was sent. */
  ghost predicate BlockSent(c: Codecs, n: nat, parityFor: nat -> nat, consumed: seq<Packet>, out: seq<Packet>, g: nat)
    requires n > 0
  {
    exists block :: && FullBlock(n, g, block) && (forall y :: y in block ==> y in consumed)
                    && forall x :: x in Encoded(c, Fec(n, parityFor(g)), block) ==> x in out
  }

  /** Every number of the group consumed so far is in its buffer. */
  ghost predicate AllBuffered(consumed: seq<Packet>, buf: seq<Packet>, g: nat) {
    forall i :: 0 <= i < |consumed| && consumed[i].group == g ==> FirstAt(buf, consumed[i].number).Some?
  }

  /** The group has been sent with parity, or is waiting for a number that has not come yet. */
  ghost predicate GroupServed(c: Codecs, n: nat, parityFor: nat -> nat, consumed: seq<Packet>, stash: Stash,
          out: seq<Packet>, g: nat)
    requires n > 0
  {
    || BlockSent(c, n, parityFor, consumed, out, g)
    || (AllBuffered(consumed, Buffer(stash, g), g) && !AllPresent(Buffer(stash, g), Lo(n, g), Hi(n, g)))
  }

  ghost predicate Served(c: Codecs, n: nat, parityFor: nat -> nat, consumed: seq<Packet>, stash: Stash, out: seq<Packet>)
    requires n > 0
  {
    forall g :: Mul(g, n) + n < U64_LIMIT ==> GroupServed(c, n, parityFor, consumed, stash, out, g)
  }

  lemma NothingServed(c: Codecs, n: nat, parityFor: nat -> nat)
    requires n > 0
    ensures Served(c, n, parityFor, [], map[], [])
  {
    forall g | Mul(g, n) + n < U64_LIMIT ensures GroupServed(c, n, parityFor, [], map[], [], g) {
      assert FirstAt([], Lo(n, g)).None?;
    }
  }

  lemma SentStays(c: Codecs, n: nat, parityFor: nat -> nat, consumed: seq<Packet>, more: seq<Packet>,
          out: seq<Packet>, out': seq<Packet>, g: nat)
    requires n > 0 && BlockSent(c, n, parityFor, consumed, out, g)
    requires (forall x :: x in consumed ==> x in more) && forall x :: x in out ==> x in out'
    ensures BlockSent(c, n, parityFor, more, out', g)
  {
    var block :| && FullBlock(n, g, block) && (forall y :: y in block ==> y in consumed)
                 && forall x :: x in Encoded(c, Fec(n, parityFor(g)), block) ==> x in out;
    hide FullBlock, Encoded;
    assert forall x :: x in Encoded(c, Fec(n, parityFor(g)), block) ==> x in out';
  }

  lemma UpsertHas(buf: seq<Packet>, p: Packet, q: nat)
    requires q == p.number || FirstAt(buf, q).Some?
    ensures FirstAt(Upsert(buf, p), q).Some?
  {
    var after := Upsert(buf, p);
    if q == p.number {
      var i := if FirstAt(buf, q).Some? then FirstAt(buf, q).value else |buf|;
      assert after[i].number == q;
    } else {
      var i := FirstAt(buf, q).value;
      assert after[i].number == q;
    }
  }

  /** Stashing a packet leaves its group with every consumed number buffered, unless it was sent before. */
  lemma StashBuffers(c: Codecs, n: nat, parityFor: nat -> nat, consumed: seq<Packet>, stash: Stash, out: seq<Packet>,
          p: Packet)
    requires n > 0 && Served(c, n, parityFor, consumed, stash, out) && Filed(n, p)
    ensures var g := p.group;
            || BlockSent(c, n, parityFor, consumed + [p], out, g)
            || AllBuffered(consumed + [p], Upsert(Buffer(stash, g), p), g)
  {
    var g := p.group;
    assert GroupServed(c, n, parityFor, consumed, stash, out, g);
    if BlockSent(c, n, parityFor, consumed, out, g) {
      SentStays(c, n, parityFor, consumed, consumed + [p], out, out, g);
    } else {
      hide BlockSent;
      var all := consumed + [p];
      forall i | 0 <= i < |all| && all[i].group == g ensures FirstAt(Upsert(Buffer(stash, g), p), all[i].number).Some? {
        UpsertHas(Buffer(stash, g), p, all[i].number);
      }
    }
  }

  /** The other groups are served as before. */
  lemma OthersServed(c: Codecs, n: nat, parityFor: nat -> nat, consumed: seq<Packet>, stash: Stash, out: seq<Packet>,
          p: Packet, stash': Stash, out': seq<Packet>, g: nat)
    requires n > 0 && GroupServed(c, n, parityFor, consumed, stash, out, g) && g != p.group
    requires Buffer(stash', g) == Buffer(stash, g) && forall x :: x in out ==> x in out'
    ensures GroupServed(c, n, parityFor, consumed + [p], stash', out', g)
  {
    if BlockSent(c, n, parityFor, consumed, out, g) {
      SentStays(c, n, parityFor, consumed, consumed + [p], out, out', g);
    }
  }

  /** A packet stashed and its group drained: every group is served again. */
  lemma ServeStep(c: Codecs, n: nat, parityFor: nat -> nat, consumed: seq<Packet>, stash: Stash, out: seq<Packet>,
          p: Packet, stash': Stash, out': seq<Packet>)
    requires n > 0 && Served(c, n, parityFor, consumed, stash, out) && Filed(n, p)
    requires forall x :: x in out ==> x in out'
    requires forall g :: g != p.group ==> Buffer(stash', g) == Buffer(stash, g)
    requires var g := p.group; var buf := Upsert(Buffer(stash, g), p);
             || BlockSent(c, n, parityFor, consumed + [p], out', g)
             || (Buffer(stash', g) == buf && !AllPresent(buf, Lo(n, g), Hi(n, g)))
    ensures Served(c, n, parityFor, consumed + [p], stash', out')
  {
    hide BlockSent, AllBuffered, AllPresent;
    forall g | Mul(g, n) + n < U64_LIMIT ensures GroupServed(c, n, parityFor, consumed + [p], stash', out', g) {
      if g != p.group {
        OthersServed(c, n, parityFor, consumed, stash, out, p, stash', out', g);
      } else {
        StashBuffers(c, n, parityFor, consumed, stash, out, p);
        if BlockSent(c, n, parityFor, consumed + [p], out, g) {
          SentStays(c, n, parityFor, consumed + [p], consumed + [p], out, out', g);
        }
      }
    }
  }

  ghost predicate HasPacket(ps: seq<Packet>, g: nat, q: nat) {
    exists i :: 0 <= i < |ps| && ps[i].number == q && ps[i].group == g
  }

  /** Every number of group `g` is among the packets. */
  ghost predicate WholeGroup(n: nat, ps: seq<Packet>, g: nat) {
    Mul(g, n) + n < U64_LIMIT && forall q: nat :: Mul(g, n) <= q < Mul(g, n) + n ==> HasPacket(ps, g, q)
  }

  /** Every whole group was sent with its parity. */
  ghost predicate Protected(c: Codecs, n: nat, parityFor: nat -> nat, input: seq<Packet>, out: seq<Packet>)
    requires n > 0
  {
    forall g :: WholeGroup(n, input, g) ==> BlockSent(c, n, parityFor, input, out, g)
  }

  lemma ServedProtects(c: Codecs, n: nat, parityFor: nat -> nat, input: seq<Packet>, stash: Stash, out: seq<Packet>)
    requires n > 0 && Served(c, n, parityFor, input, stash, out)
    ensures Protected(c, n, parityFor, input, out)
  {
    forall g | WholeGroup(n, input, g) ensures BlockSent(c, n, parityFor, input, out, g) {
      assert GroupServed(c, n, parityFor, input, stash, out, g);
      if AllBuffered(input, Buffer(stash, g), g) {
        forall q: nat | Lo(n, g) <= q < Hi(n, g) ensures FirstAt(Buffer(stash, g), q).Some? {
          assert HasPacket(input, g, q);
          var i :| 0 <= i < |input| && input[i].number == q && input[i].group == g;
        }
      }
    }
  }

  lemma ProtectedStays(c: Codecs, n: nat, parityFor: nat -> nat, input: seq<Packet>, out: seq<Packet>, out': seq<Packet>)
    requires n > 0 && Protected(c, n, parityFor, input, out) && forall x :: x in out ==> x in out'
    ensures Protected(c, n, parityFor, input, out')
  {
    hide BlockSent, WholeGroup;
    forall g | WholeGroup(n, input, g) ensures BlockSent(c, n, parityFor, input, out', g) {
      SentStays(c, n, parityFor, input, input, out, out', g);
    }
  }

  /** Draining the full buffer of group `g` sends a block of it. */
  lemma DrainSends(c: Codecs, n: nat, parityFor: nat -> nat, consumed: seq<Packet>, stash: Stash, out: seq<Packet>,
          g: nat, block: seq<Packet>)
    requires n > 0 && StageInv(c, n, parityFor, consumed, stash, out) && g in stash
    requires FullBlock(n, g, stash[g]) && multiset(block) == multiset(stash[g])
    ensures BlockSent(c, n, parityFor, consumed, out + Encoded(c, Fec(n, parityFor(g)), block), g)
  {
    FullBlockPermuted(n, g, stash[g], block);
    forall y | y in block ensures y in consumed { assert y in multiset(stash[g]); }
    hide FullBlock, Encoded;
  }

  lemma FullIsWhole(n: nat, g: nat, buf: seq<Packet>, consumed: seq<Packet>)
    requires n > 0 && GroupBuffer(n, g, buf) && buf != [] && AllPresent(buf, Lo(n, g), Hi(n, g))
    requires forall x :: x in buf ==> x in consumed
    ensures WholeGroup(n, consumed, g)
  {
    GroupBounds(n, g, buf[0]);
    forall q: nat | Mul(g, n) <= q < Mul(g, n) + n ensures HasPacket(consumed, g, q) {
      var p := buf[FirstAt(buf, q).value];
      assert p in consumed;
      var i :| 0 <= i < |consumed| && consumed[i] == p;
    }
  }

  /** What was appended is of group `g`, which is whole by now. */
  ghost predicate OneGroupMore(n: nat, consumed: seq<Packet>, before: seq<Packet>, out: seq<Packet>, g: nat) {
    before <= out && forall x :: x in out ==> x in before || (x.group == g && WholeGroup(n, consumed, g))
  }

  lemma OneGroupTwice(n: nat, consumed: seq<Packet>, a: seq<Packet>, b: seq<Packet>, c: seq<Packet>, g: nat)
    requires OneGroupMore(n, consumed, a, b, g) && OneGroupMore(n, consumed, b, c, g)
    ensures OneGroupMore(n, consumed, a, c, g)
  {
    hide WholeGroup;
  }

  lemma GroupKeeps(n: nat, consumed: seq<Packet>, before: seq<Packet>, out: seq<Packet>, g: nat)
    requires OneGroupMore(n, consumed, before, out, g)
    ensures before <= out && forall x :: x in before ==> x in out
  {}

  lemma NoGroupMore(n: nat, consumed: seq<Packet>, out: seq<Packet>, g: nat)
    ensures OneGroupMore(n, consumed, out, out, g)
  {}

  lemma EncodedOneGroup(c: Codecs, n: nat, p: nat, consumed: seq<Packet>, out: seq<Packet>, g: nat, buf: seq<Packet>,
          block: seq<Packet>)
    requires n > 0 && FullBlock(n, g, buf) && multiset(block) == multiset(buf) && WholeGroup(n, consumed, g)
    ensures OneGroupMore(n, consumed, out, out + Encoded(c, Fec(n, p), block), g)
  {
    FullBlockPermuted(n, g, buf, block);
    hide Encoded, WholeGroup;
    forall x | x in Encoded(c, Fec(n, p), block) ensures x.group == g {
      EncodedGroupField(c, Fec(n, p), g, block, x);
    }
  }

  /** Nothing was sent of a group that is not whole, and all of every group that is. */
  ghost predicate InStep(n: nat, consumed: seq<Packet>, sent: seq<Packet>) {
    && (forall x :: x in sent ==> WholeGroup(n, consumed, x.group))
    && forall g :: WholeGroup(n, consumed, g) ==> WholeGroup(n, sent, g)
  }

  /** After each packet of the input, `marks` tells how much of the output was out, and that was in step. */
  ghost predicate Prompt(n: nat, input: seq<Packet>, out: seq<Packet>, marks: seq<nat>) {
    && |marks| == |input| + 1
    && forall j :: 0 <= j <= |input| ==> marks[j] <= |out| && InStep(n, input[..j], out[..marks[j]])
  }

  lemma WholeStays(n: nat, ps: seq<Packet>, more: seq<Packet>, g: nat)
    requires WholeGroup(n, ps, g) && forall x :: x in ps ==> x in more
    ensures WholeGroup(n, more, g)
  {
    forall q: nat | Mul(g, n) <= q < Mul(g, n) + n ensures HasPacket(more, g, q) {
      assert HasPacket(ps, g, q);
      var i :| 0 <= i < |ps| && ps[i].number == q && ps[i].group == g;
      assert ps[i] in more;
      var j :| 0 <= j < |more| && more[j] == ps[i];
    }
  }

  lemma EncodedKeeps(c: Codecs, fec: Fec, block: seq<Packet>, x: Packet)
    requires |block| == Max(fec.dataShards, 1) && x in block
    ensures x in Encoded(c, fec, block)
  {
    var sorted := SortByNumber(block);
    assert block[..|block|] == block;
    assert x in multiset(block) && x in multiset(sorted);
    assert |multiset(sorted)| == |sorted| == |block|;
  }

  /** A block that was sent leaves its group whole in the output. */
  lemma SentIsWhole(c: Codecs, n: nat, parityFor: nat -> nat, consumed: seq<Packet>, out: seq<Packet>, g: nat)
    requires n > 0 && BlockSent(c, n, parityFor, consumed, out, g)
    ensures WholeGroup(n, out, g)
  {
    var block :| && FullBlock(n, g, block) && (forall y :: y in block ==> y in consumed)
                 && forall x :: x in Encoded(c, Fec(n, parityFor(g)), block) ==> x in out;
    FullBlockWhole(n, g, block);
    forall y | y in block ensures y in out { EncodedKeeps(c, Fec(n, parityFor(g)), block, y); }
    WholeStays(n, block, out, g);
  }

  lemma FullBlockWhole(n: nat, g: nat, block: seq<Packet>)
    requires n > 0 && FullBlock(n, g, block)
    ensures WholeGroup(n, block, g)
  {
    var lo := Mul(g, n);
    NumbersCount(block);
    assert Numbers(block) <= Range(lo, n) by {
      forall q | q in Numbers(block) ensures q in Range(lo, n) {
        var p :| p in block && p.number == q;
        var i :| 0 <= i < |block| && block[i] == p;
        GroupBounds(n, g, block[i]);
      }
    }
    SubsetEqual(Numbers(block), Range(lo, n));
    forall q: nat | lo <= q < lo + n ensures HasPacket(block, g, q) {
      assert q in Numbers(block);
      var p :| p in block && p.number == q;
      var i :| 0 <= i < |block| && block[i] == p;
    }
  }

  lemma SubsetEqual(a: set<nat>, b: set<nat>)
    requires a <= b && |a| == |b|
    ensures a == b
  {
    SubsetSize(b - a, b - a);
    assert |b - a| == |b| - |a|;
  }

  lemma InStepNext(c: Codecs, n: nat, parityFor: nat -> nat, consumed: seq<Packet>, p: Packet, stash: Stash,
          out: seq<Packet>, out': seq<Packet>)
    requires n > 0 && InStep(n, consumed, out) && OneGroupMore(n, consumed + [p], out, out', p.group)
    requires Served(c, n, parityFor, consumed + [p], stash, out')
    ensures InStep(n, consumed + [p], out')
  {
    var more := consumed + [p];
    ServedProtects(c, n, parityFor, more, stash, out');
    forall g | WholeGroup(n, more, g) ensures WholeGroup(n, out', g) { SentIsWhole(c, n, parityFor, more, out', g); }
    hide Protected, Served;
    forall x | x in out' ensures WholeGroup(n, more, x.group) {
      if x in out { WholeStays(n, consumed, more, x.group); }
    }
  }

  lemma PromptNext(n: nat, input: seq<Packet>, i: nat, out: seq<Packet>, out': seq<Packet>, marks: seq<nat>)
    requires i < |input| && Prompt(n, input[..i], out, marks) && out <= out' && InStep(n, input[..i + 1], out')
    ensures Prompt(n, input[..i + 1], out', marks + [|out'|])
  {
    hide InStep;
    forall j | 0 <= j <= i + 1
      ensures (marks + [|out'|])[j] <= |out'| && InStep(n, input[..i + 1][..j], out'[..(marks + [|out'|])[j]])
    {
      if j <= i {
        assert input[..i + 1][..j] == input[..i][..j] && out'[..marks[j]] == out[..marks[j]];
      } else {
        assert input[..i + 1][..j] == input[..i + 1] && out'[..|out'|] == out';
      }
    }
  }

  lemma PromptStays(n: nat, input: seq<Packet>, out: seq<Packet>, out': seq<Packet>, marks: seq<nat>)
    requires Prompt(n, input, out, marks) && out <= out'
    ensures Prompt(n, input, out', marks)
  {
    hide InStep;
    forall j | 0 <= j <= |input| ensures marks[j] <= |out'| && InStep(n, input[..j], out'[..marks[j]]) {
      assert out'[..marks[j]] == out[..marks[j]];
    }
  }

  lemma PromptStart(n: nat)
    requires n > 0
    ensures Prompt(n, [], [], [0]) && InStep(n, [], [])
  {
    forall g ensures !WholeGroup(n, [], g) { assert !HasPacket([], g, Mul(g, n)); }
    var none: seq<Packet> := [];
    assert none[..0] == none;
  }
}
