/** Conservation through the parity stage: every data packet that goes in comes out. */
module Collect {
  import opened Bytes
  import opened Arith
  import opened Wire
  import opened Packets
  import opened Encoder
  import opened Stage

  /** A data packet filed under the group of its number, clear of the saturation of `u64`. */
  ghost predicate Filed(n: nat, p: Packet)
    requires n > 0
  {
    !p.isParity && p.group == Div(p.number, n) && p.number + n < U64_LIMIT
  }

  ghost predicate AllFiled(n: nat, ps: seq<Packet>)
    requires n > 0
  {
    forall i :: 0 <= i < |ps| ==> Filed(n, ps[i])
  }

  /** What the stash may hold for group `g`. */
  ghost predicate GroupBuffer(n: nat, g: nat, buf: seq<Packet>)
    requires n > 0
  {
    && DistinctNumbers(buf) && AllFiled(n, buf) && (forall i :: 0 <= i < |buf| ==> buf[i].group == g)
    && Mul(g, n) + n < U64_LIMIT
  }

  lemma {:induction false} SingleCopy(buf: seq<Packet>, q: nat)
    requires DistinctNumbers(buf)
    ensures Copies(buf, q) <= 1
  {
    if buf != [] {
      SingleCopy(buf[1..], q);
      if !buf[0].isParity && buf[0].number == q { CopiesPositive(buf[1..], q); }
    }
  }

  lemma CopiesUpdate(buf: seq<Packet>, i: nat, p: Packet, q: nat)
    requires i < |buf| && buf[i].number == p.number && buf[i].isParity == p.isParity
    ensures Copies(buf[i := p], q) == Copies(buf, q)
  {
    CopiesWithout(buf, i, q);
    CopiesWithout(buf[i := p], i, q);
    assert buf[i := p][..i] + buf[i := p][i + 1..] == buf[..i] + buf[i + 1..];
  }

  lemma UpsertKeepsBuffer(n: nat, g: nat, buf: seq<Packet>, p: Packet)
    requires n > 0 && GroupBuffer(n, g, buf) && Filed(n, p) && p.group == g
    ensures GroupBuffer(n, g, Upsert(buf, p))
    ensures forall x :: x in Upsert(buf, p) ==> x in buf || x == p
  {}

  lemma UpsertCopies(n: nat, g: nat, buf: seq<Packet>, p: Packet, q: nat)
    requires n > 0 && GroupBuffer(n, g, buf) && Filed(n, p) && p.group == g
    ensures Copies(Upsert(buf, p), q) == if q == p.number then 1 else Copies(buf, q)
  {
    match FirstAt(buf, p.number) {
      case None =>
        CopiesAppend(buf, [p], q);
        CopiesPositive(buf, p.number);
      case Some(i) =>
        CopiesUpdate(buf, i, p, q);
        CopiesPositive(buf, p.number);
        SingleCopy(buf, p.number);
    }
  }

  function Numbers(ps: seq<Packet>): set<nat> { set p | p in ps :: p.number }

  lemma {:induction false} NumbersCount(ps: seq<Packet>)
    requires DistinctNumbers(ps)
    ensures |Numbers(ps)| == |ps|
  {
    if ps != [] {
      NumbersCount(ps[1..]);
      assert ps == [ps[0]] + ps[1..];
      assert Numbers(ps) == Numbers(ps[1..]) + {ps[0].number};
      assert ps[0].number !in Numbers(ps[1..]);
    }
  }

  function Range(lo: nat, n: nat): (s: set<nat>)
    ensures |s| == n && forall q: nat :: q in s <==> lo <= q < lo + n
  {
    if n == 0 then {} else Range(lo, n - 1) + {lo + n - 1}
  }

  /** The packets of all numbers of group `g`, in some order. */
  ghost predicate FullBlock(n: nat, g: nat, block: seq<Packet>)
    requires n > 0
  {
    GroupBuffer(n, g, block) && |block| == n
  }

  lemma GroupBounds(n: nat, g: nat, p: Packet)
    requires n > 0 && Filed(n, p) && p.group == g
    ensures Lo(n, g) == Mul(g, n) && Hi(n, g) == Mul(g, n) + n && Lo(n, g) <= p.number < Hi(n, g)
  {}

  /** A group buffer with all its numbers present is a full block. */
  lemma BufferFull(n: nat, g: nat, buf: seq<Packet>)
    requires n > 0 && GroupBuffer(n, g, buf) && buf != [] && AllPresent(buf, Lo(n, g), Hi(n, g))
    ensures FullBlock(n, g, buf)
  {
    var lo := Mul(g, n);
    GroupBounds(n, g, buf[0]);
    forall q: nat ensures q in Numbers(buf) <==> q in Range(lo, n) {
      if q in Range(lo, n) { assert buf[FirstAt(buf, q).value] in buf; }
      if q in Numbers(buf) {
        var p :| p in buf && p.number == q;
        var i :| 0 <= i < |buf| && buf[i] == p;
        GroupBounds(n, g, buf[i]);
      }
    }
    assert Numbers(buf) == Range(lo, n);
    NumbersCount(buf);
  }

  lemma FirstOfDistinct(n: nat, g: nat, buf: seq<Packet>, k: nat)
    requires n > 0 && GroupBuffer(n, g, buf) && k < |buf|
    ensures FirstOf(buf, Lo(n, g), Hi(n, g), k)
  {
    GroupBounds(n, g, buf[k]);
  }

  lemma TakeOneMore(buf: seq<Packet>, k: nat, taken: seq<Packet>)
    requires 0 < k <= |buf| && multiset(taken) == multiset(buf[..k - 1])
    ensures multiset([buf[k - 1]] + taken) == multiset(buf[..k])
  {
    assert buf[..k] == buf[..k - 1] + [buf[k - 1]];
  }

  lemma {:induction false} TakenAll(n: nat, g: nat, buf: seq<Packet>, k: nat)
    requires n > 0 && GroupBuffer(n, g, buf) && k <= |buf|
    ensures multiset(Taken(buf, Lo(n, g), Hi(n, g), k)) == multiset(buf[..k])
  {
    hide GroupBuffer, FirstOf, Lo, Hi;
    if k > 0 {
      FirstOfDistinct(n, g, buf, k - 1);
      TakenAll(n, g, buf, k - 1);
      TakeOneMore(buf, k, Taken(buf, Lo(n, g), Hi(n, g), k - 1));
    }
  }

  /** Draining a group buffer leaves nothing behind and encodes all of it. */
  lemma DrainEmpties(n: nat, g: nat, buf: seq<Packet>)
    requires n > 0 && GroupBuffer(n, g, buf)
    ensures KeepFrom(buf, 0, FirstPositions(buf, Lo(n, g), Hi(n, g))) == []
    ensures multiset(Taken(buf, Lo(n, g), Hi(n, g), |buf|)) == multiset(buf)
  {
    forall k | 0 <= k < |buf| ensures k in FirstPositions(buf, Lo(n, g), Hi(n, g)) { FirstOfDistinct(n, g, buf, k); }
    KeepNone(buf, 0, FirstPositions(buf, Lo(n, g), Hi(n, g)));
    TakenAll(n, g, buf, |buf|);
    assert buf[..|buf|] == buf;
  }

  lemma FullBlockPermuted(n: nat, g: nat, a: seq<Packet>, b: seq<Packet>)
    requires n > 0 && FullBlock(n, g, a) && multiset(a) == multiset(b)
    ensures FullBlock(n, g, b)
  {
    assert |multiset(a)| == |a| && |multiset(b)| == |b|;
    DistinctPermuted(a, b);
    forall i | 0 <= i < |b| ensures Filed(n, b[i]) && b[i].group == g {
      assert b[i] in multiset(a);
      var j :| 0 <= j < |a| && a[j] == b[i];
    }
  }

  type Stash = map<nat, seq<Packet>>

  function Held(n: nat, stash: Stash, q: nat): nat
    requires n > 0
  {
    if Div(q, n) in stash then Copies(stash[Div(q, n)], q) else 0
  }

  /** Parity comes from a block of consumed packets that holds every number of its group. */
  ghost predicate FromFullBlock(c: Codecs, n: nat, parityFor: nat -> nat, consumed: seq<Packet>, x: Packet)
    requires n > 0
  {
    exists block :: && FullBlock(n, x.group, block) && (forall y :: y in block ==> y in consumed)
                    && x in Encoded(c, Fec(n, parityFor(x.group)), block)
  }

  /** Between what was consumed and what was sent lies what is held: nothing lost, nothing invented. */
  ghost predicate Balanced(n: nat, consumed: seq<Packet>, stash: Stash, out: seq<Packet>, q: nat)
    requires n > 0
  {
    && Copies(out, q) + Held(n, stash, q) <= Copies(consumed, q)
    && (Copies(consumed, q) > 0 ==> Copies(out, q) + Held(n, stash, q) > 0)
  }

  ghost predicate StashInv(n: nat, consumed: seq<Packet>, stash: Stash)
    requires n > 0
  {
    forall g :: g in stash ==> GroupBuffer(n, g, stash[g]) && forall x :: x in stash[g] ==> x in consumed
  }

  ghost predicate OutInv(c: Codecs, n: nat, parityFor: nat -> nat, consumed: seq<Packet>, x: Packet)
    requires n > 0
  {
    if x.isParity then FromFullBlock(c, n, parityFor, consumed, x) else x in consumed
  }

  ghost predicate StageInv(c: Codecs, n: nat, parityFor: nat -> nat, consumed: seq<Packet>, stash: Stash,
          out: seq<Packet>)
    requires n > 0
  {
    && StashInv(n, consumed, stash)
    && (forall q :: Balanced(n, consumed, stash, out, q))
    && (forall x :: x in out ==> OutInv(c, n, parityFor, consumed, x))
  }

  lemma OutInvGrows(c: Codecs, n: nat, parityFor: nat -> nat, consumed: seq<Packet>, p: Packet, x: Packet)
    requires n > 0 && OutInv(c, n, parityFor, consumed, x)
    ensures OutInv(c, n, parityFor, consumed + [p], x)
  {
    if x.isParity {
      var block :| && FullBlock(n, x.group, block) && (forall y :: y in block ==> y in consumed)
                   && x in Encoded(c, Fec(n, parityFor(x.group)), block);
      assert forall y :: y in block ==> y in consumed + [p];
    }
  }

  function Buffer(stash: Stash, g: nat): seq<Packet> { if g in stash then stash[g] else [] }

  lemma StashStepBalanced(n: nat, consumed: seq<Packet>, stash: Stash, out: seq<Packet>, p: Packet, q: nat)
    requires n > 0 && StashInv(n, consumed, stash) && Balanced(n, consumed, stash, out, q) && Filed(n, p)
    ensures Balanced(n, consumed + [p], stash[p.group := Upsert(Buffer(stash, p.group), p)], out, q)
  {
    CopiesAppend(consumed, [p], q);
    if Div(q, n) == p.group { UpsertCopies(n, p.group, Buffer(stash, p.group), p, q); }
  }

  lemma StashStep(c: Codecs, n: nat, parityFor: nat -> nat, consumed: seq<Packet>, stash: Stash, out: seq<Packet>,
          p: Packet)
    requires n > 0 && StageInv(c, n, parityFor, consumed, stash, out) && Filed(n, p)
    ensures StageInv(c, n, parityFor, consumed + [p], stash[p.group := Upsert(Buffer(stash, p.group), p)], out)
  {
    var g := p.group;
    var stash' := stash[g := Upsert(Buffer(stash, g), p)];
    UpsertKeepsBuffer(n, g, Buffer(stash, g), p);
    assert StashInv(n, consumed + [p], stash');
    hide StashInv, Balanced, OutInv;
    forall q ensures Balanced(n, consumed + [p], stash', out, q) { StashStepBalanced(n, consumed, stash, out, p, q); }
    forall x | x in out ensures OutInv(c, n, parityFor, consumed + [p], x) {
      OutInvGrows(c, n, parityFor, consumed, p, x);
    }
  }

  lemma EncodedMembers(c: Codecs, fec: Fec, data: seq<Packet>, x: Packet)
    requires |data| == Max(fec.dataShards, 1) && x in Encoded(c, fec, data) && !x.isParity
    ensures x in data
  {
    var n, p := |data|, fec.parityShards;
    assert data[..n] == data;
    var block := SortByNumber(data);
    assert |multiset(block)| == |block| == n;
    assert x in block || x in data;
    assert x in multiset(data);
  }

  /** Sending the encoded block of a group and clearing its buffer. */
  lemma DrainStep(c: Codecs, n: nat, parityFor: nat -> nat, consumed: seq<Packet>, stash: Stash, out: seq<Packet>,
          g: nat, block: seq<Packet>)
    requires n > 0 && StageInv(c, n, parityFor, consumed, stash, out)
    requires g in stash && FullBlock(n, g, stash[g]) && multiset(block) == multiset(stash[g])
    ensures StageInv(c, n, parityFor, consumed, stash[g := []], out + Encoded(c, Fec(n, parityFor(g)), block))
  {
    var fec := Fec(n, parityFor(g));
    var encoded := Encoded(c, fec, block);
    FullBlockPermuted(n, g, stash[g], block);
    forall y | y in block ensures y in consumed { assert y in multiset(stash[g]); }
    var stash' := stash[g := []];
    forall q ensures Balanced(n, consumed, stash', out + encoded, q) {
      assert Balanced(n, consumed, stash, out, q);
      DrainBalanced(c, n, consumed, stash, out, g, block, fec, q);
    }
    forall x | x in out + encoded ensures OutInv(c, n, parityFor, consumed, x) {
      if x in encoded { DrainedOut(c, n, parityFor, consumed, g, block, x); }
    }
  }

  lemma DrainBalanced(c: Codecs, n: nat, consumed: seq<Packet>, stash: Stash, out: seq<Packet>, g: nat,
          block: seq<Packet>, fec: Fec, q: nat)
    requires n > 0 && fec.dataShards == n && Balanced(n, consumed, stash, out, q)
    requires g in stash && FullBlock(n, g, stash[g]) && FullBlock(n, g, block) && multiset(block) == multiset(stash[g])
    ensures Balanced(n, consumed, stash[g := []], out + Encoded(c, fec, block), q)
  {
    CopiesAppend(out, Encoded(c, fec, block), q);
    EncodedKeepsData(c, fec, block, q);
    CopiesPermuted(block, stash[g], q);
    if Div(q, n) != g { OtherGroup(n, g, block, q); }
    hide Encoded;
  }

  lemma OtherGroup(n: nat, g: nat, buf: seq<Packet>, q: nat)
    requires n > 0 && GroupBuffer(n, g, buf) && Div(q, n) != g
    ensures Copies(buf, q) == 0
  {
    CopiesPositive(buf, q);
    assert forall i :: 0 <= i < |buf| ==> Filed(n, buf[i]);
  }

  lemma DrainedOut(c: Codecs, n: nat, parityFor: nat -> nat, consumed: seq<Packet>, g: nat, block: seq<Packet>, x: Packet)
    requires n > 0 && FullBlock(n, g, block) && (forall y :: y in block ==> y in consumed)
    requires x in Encoded(c, Fec(n, parityFor(g)), block)
    ensures OutInv(c, n, parityFor, consumed, x)
  {
    if x.isParity {
      EncodedGroupField(c, Fec(n, parityFor(g)), g, block, x);
    } else {
      EncodedMembers(c, Fec(n, parityFor(g)), block, x);
    }
  }

  lemma EncodedGroupField(c: Codecs, fec: Fec, g: nat, block: seq<Packet>, x: Packet)
    requires fec.dataShards == |block| > 0 && x in Encoded(c, fec, block)
    requires forall i :: 0 <= i < |block| ==> block[i].group == g
    ensures x.group == g
  {
    var n, p := |block|, fec.parityShards;
    assert block[..n] == block;
    var sorted := SortByNumber(block);
    assert |multiset(sorted)| == |sorted| == n;
    forall i | 0 <= i < n ensures sorted[i].group == g { assert sorted[i] in multiset(block); }
  }

  /** Sending the packets of a group that never became full. */
  lemma FlushStep(c: Codecs, n: nat, parityFor: nat -> nat, consumed: seq<Packet>, stash: Stash, out: seq<Packet>, g: nat)
    requires n > 0 && StageInv(c, n, parityFor, consumed, stash, out) && g in stash
    ensures StageInv(c, n, parityFor, consumed, stash - {g}, out + stash[g])
  {
    forall q ensures Balanced(n, consumed, stash - {g}, out + stash[g], q) {
      assert Balanced(n, consumed, stash, out, q);
      CopiesAppend(out, stash[g], q);
      if Div(q, n) != g { OtherGroup(n, g, stash[g], q); }
    }
    forall x | x in out + stash[g] ensures OutInv(c, n, parityFor, consumed, x) {
      if x in stash[g] {
        var i :| 0 <= i < |stash[g]| && stash[g][i] == x;
        assert Filed(n, stash[g][i]);
      }
    }
  }

  /** No group without packets drains. */
  lemma EmptyNotPresent(n: nat, g: nat)
    requires n > 0 && GroupBuffer(n, g, [])
    ensures !AllPresent([], Lo(n, g), Hi(n, g))
  {
    assert FirstAt([], Lo(n, g)).None?;
  }

  /** What has gone in and what has come out, when the stage is done. */
  ghost predicate Conserved(c: Codecs, n: nat, parityFor: nat -> nat, input: seq<Packet>, out: seq<Packet>)
    requires n > 0
  {
    && (forall q :: Copies(out, q) <= Copies(input, q) && (Copies(input, q) > 0 ==> Copies(out, q) > 0))
    && (forall x :: x in out ==> OutInv(c, n, parityFor, input, x))
  }

  lemma EmptyStashConserves(c: Codecs, n: nat, parityFor: nat -> nat, input: seq<Packet>, stash: Stash, out: seq<Packet>)
    requires n > 0 && StageInv(c, n, parityFor, input, stash, out) && stash == map[]
    ensures Conserved(c, n, parityFor, input, out)
  {
    forall q ensures Copies(out, q) <= Copies(input, q) && (Copies(input, q) > 0 ==> Copies(out, q) > 0) {
      assert Balanced(n, input, stash, out, q);
    }
  }

  lemma FewerKeys(m: Stash, g: nat)
    requires g in m
    ensures |m - {g}| < |m|
  {
    assert (m - {g}).Keys == m.Keys - {g};
    assert |m.Keys - {g}| == |m.Keys| - 1;
  }

  lemma StashAt(c: Codecs, n: nat, parityFor: nat -> nat, consumed: seq<Packet>, stash: Stash, out: seq<Packet>, g: nat)
    requires n > 0 && StageInv(c, n, parityFor, consumed, stash, out) && g in stash
    ensures GroupBuffer(n, g, stash[g]) && forall x :: x in stash[g] ==> x in consumed
  {}
}
