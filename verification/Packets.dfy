/** Packets of the sender's pipeline, and the sorts and counts its stages are described by. */
module Packets {
  import opened Bytes

  datatype Packet = Packet(
    id: nat, number: nat, payload: Bytes, isParity: bool, priority: nat, deadline: Option<nat>, size: nat,
    group: nat, reconstructable: bool, parityIndex: nat)

  /** How many data packets of the sequence carry number `q`. */
  function Copies(ps: seq<Packet>, q: nat): nat {
    if ps == [] then 0 else Copies(ps[1..], q) + (if !ps[0].isParity && ps[0].number == q then 1 else 0)
  }

  lemma {:induction false} CopiesAppend(a: seq<Packet>, b: seq<Packet>, q: nat)
    ensures Copies(a + b, q) == Copies(a, q) + Copies(b, q)
  {
    if a == [] {
      assert a + b == b;
    } else {
      assert (a + b)[1..] == a[1..] + b;
      CopiesAppend(a[1..], b, q);
    }
  }

  lemma {:induction false} CopiesPositive(ps: seq<Packet>, q: nat)
    ensures Copies(ps, q) > 0 <==> exists i :: 0 <= i < |ps| && !ps[i].isParity && ps[i].number == q
  {
    if ps != [] {
      CopiesPositive(ps[1..], q);
      if i :| 0 <= i < |ps[1..]| && !ps[1..][i].isParity && ps[1..][i].number == q {
        assert !ps[i + 1].isParity && ps[i + 1].number == q;
      }
      if i :| 0 <= i < |ps| && !ps[i].isParity && ps[i].number == q {
        if i > 0 { assert ps[1..][i - 1] == ps[i]; }
      }
    }
  }

  lemma MultisetWithout(ps: seq<Packet>, j: nat)
    requires j < |ps|
    ensures multiset(ps[..j] + ps[j + 1..]) == multiset(ps) - multiset{ps[j]}
  {
    assert ps == ps[..j] + ([ps[j]] + ps[j + 1..]);
  }

  lemma WithoutSame(a: seq<Packet>, b: seq<Packet>, j: nat)
    requires multiset(a) == multiset(b) && a != [] && j < |b| && b[j] == a[0]
    ensures multiset(a[1..]) == multiset(b[..j] + b[j + 1..])
  {
    MultisetWithout(b, j);
    assert a == [a[0]] + a[1..];
    assert multiset(a[1..]) == multiset(a) - multiset{a[0]};
  }

  lemma CopiesWithout(ps: seq<Packet>, j: nat, q: nat)
    requires j < |ps|
    ensures Copies(ps, q) == Copies(ps[..j] + ps[j + 1..], q) + Copies([ps[j]], q)
  {
    assert ps == ps[..j] + ([ps[j]] + ps[j + 1..]);
    CopiesAppend(ps[..j], [ps[j]] + ps[j + 1..], q);
    CopiesAppend([ps[j]], ps[j + 1..], q);
    CopiesAppend(ps[..j], ps[j + 1..], q);
  }

  /** Copies depends on the multiset only. */
  lemma {:induction false} CopiesPermuted(a: seq<Packet>, b: seq<Packet>, q: nat)
    requires multiset(a) == multiset(b)
    ensures Copies(a, q) == Copies(b, q)
    decreases |a|
  {
    if a == [] {
      assert |multiset(b)| == 0;
    } else {
      assert a[0] in multiset(b);
      var j :| 0 <= j < |b| && b[j] == a[0];
      WithoutSame(a, b, j);
      CopiesPermuted(a[1..], b[..j] + b[j + 1..], q);
      CopiesWithout(b, j, q);
    }
  }

  /** Stable insertion: `p` goes before the first packet it may precede. */
  function Insert(p: Packet, ps: seq<Packet>, before: (Packet, Packet) -> bool): (r: seq<Packet>)
    ensures multiset(r) == multiset(ps) + multiset{p}
  {
    if ps == [] || before(p, ps[0]) then [p] + ps
    else
      assert ps == [ps[0]] + ps[1..];
      [ps[0]] + Insert(p, ps[1..], before)
  }

  /** A stable sort; `before(a, b)` says that `a` may stand before `b`. */
  function Sort(ps: seq<Packet>, before: (Packet, Packet) -> bool): (r: seq<Packet>)
    ensures multiset(r) == multiset(ps)
  {
    if ps == [] then []
    else
      assert ps == [ps[0]] + ps[1..];
      Insert(ps[0], Sort(ps[1..], before), before)
  }

  /** An order that decides every pair. */
  ghost predicate IsOrder(before: (Packet, Packet) -> bool) {
    && (forall a, b :: before(a, b) || before(b, a))
    && forall a, b, c :: before(a, b) && before(b, c) ==> before(a, c)
  }

  ghost predicate Arranged(ps: seq<Packet>, before: (Packet, Packet) -> bool) {
    forall i, j :: 0 <= i < j < |ps| ==> before(ps[i], ps[j])
  }

  lemma {:induction false} InsertArranges(p: Packet, ps: seq<Packet>, before: (Packet, Packet) -> bool)
    requires IsOrder(before) && Arranged(ps, before)
    ensures Arranged(Insert(p, ps, before), before)
  {
    if ps == [] {
    } else if before(p, ps[0]) {
      forall i | 0 <= i < |ps| ensures before(p, ps[i]) { assert i > 0 ==> before(ps[0], ps[i]); }
    } else {
      var tail := Insert(p, ps[1..], before);
      InsertArranges(p, ps[1..], before);
      forall i | 0 <= i < |tail| ensures before(ps[0], tail[i]) {
        assert tail[i] in multiset(ps[1..]) + multiset{p};
        if tail[i] != p {
          var j :| 0 <= j < |ps[1..]| && ps[1..][j] == tail[i];
          assert ps[j + 1] == tail[i];
        }
      }
    }
  }

  lemma {:induction false} SortArranges(ps: seq<Packet>, before: (Packet, Packet) -> bool)
    requires IsOrder(before)
    ensures Arranged(Sort(ps, before), before)
  {
    if ps != [] {
      SortArranges(ps[1..], before);
      InsertArranges(ps[0], Sort(ps[1..], before), before);
    }
  }

  function ByNumber(a: Packet, b: Packet): bool { a.number <= b.number }

  function SortByNumber(ps: seq<Packet>): (r: seq<Packet>)
    ensures multiset(r) == multiset(ps)
  {
    Sort(ps, ByNumber)
  }

  ghost predicate Increasing(ps: seq<Packet>) {
    forall i, j :: 0 <= i < j < |ps| ==> ps[i].number < ps[j].number
  }

  ghost predicate DistinctNumbers(ps: seq<Packet>) {
    forall i, j :: 0 <= i < j < |ps| ==> ps[i].number != ps[j].number
  }

  lemma {:induction false} InsertIncreasing(p: Packet, ps: seq<Packet>)
    requires Increasing(ps) && forall i :: 0 <= i < |ps| ==> ps[i].number != p.number
    ensures Increasing(Insert(p, ps, ByNumber))
  {
    if ps != [] && p.number > ps[0].number {
      var tail := Insert(p, ps[1..], ByNumber);
      InsertIncreasing(p, ps[1..]);
      forall i | 0 <= i < |tail| ensures ps[0].number < tail[i].number {
        assert tail[i] in multiset(ps[1..]) + multiset{p};
      }
    }
  }

  lemma {:induction false} SortIncreasing(ps: seq<Packet>)
    requires DistinctNumbers(ps)
    ensures Increasing(SortByNumber(ps))
  {
    if ps != [] {
      SortIncreasing(ps[1..]);
      var tail := SortByNumber(ps[1..]);
      forall i | 0 <= i < |tail| ensures tail[i].number != ps[0].number {
        assert tail[i] in multiset(ps[1..]);
      }
      InsertIncreasing(ps[0], tail);
    }
  }

  lemma HeadIsLeast(a: seq<Packet>, b: seq<Packet>)
    requires a != [] && b != [] && Increasing(a) && Increasing(b) && multiset(a) == multiset(b)
    ensures a[0] == b[0]
  {
    assert a[0] in multiset(b) && b[0] in multiset(a);
    var i :| 0 <= i < |b| && b[i] == a[0];
    var j :| 0 <= j < |a| && a[j] == b[0];
  }

  /** A set of packets with distinct numbers has one increasing arrangement. */
  lemma {:induction false} IncreasingUnique(a: seq<Packet>, b: seq<Packet>)
    requires Increasing(a) && Increasing(b) && multiset(a) == multiset(b)
    ensures a == b
    decreases |a|
  {
    hide Increasing;
    assert |multiset(a)| == |a| && |multiset(b)| == |b|;
    if a != [] {
      HeadIsLeast(a, b);
      TailsSame(a, b);
      TailIncreasing(a);
      TailIncreasing(b);
      IncreasingUnique(a[1..], b[1..]);
      assert a == [a[0]] + a[1..] && b == [b[0]] + b[1..];
    }
  }

  lemma TailsSame(a: seq<Packet>, b: seq<Packet>)
    requires a != [] && b != [] && a[0] == b[0] && multiset(a) == multiset(b)
    ensures multiset(a[1..]) == multiset(b[1..])
  {
    assert a == [a[0]] + a[1..] && b == [b[0]] + b[1..];
    assert multiset(a[1..]) == multiset(a) - multiset{a[0]};
    assert multiset(b[1..]) == multiset(b) - multiset{b[0]};
  }

  lemma TailIncreasing(ps: seq<Packet>)
    requires ps != [] && Increasing(ps)
    ensures Increasing(ps[1..])
  {}

  lemma OtherOccurrence(ps: seq<Packet>, i: nat) returns (j: nat)
    requires i < |ps| && multiset(ps)[ps[i]] >= 2
    ensures j < |ps| && j != i && ps[j] == ps[i]
  {
    assert ps == ps[..i] + ([ps[i]] + ps[i + 1..]);
    if ps[i] in ps[..i] {
      j :| 0 <= j < i && ps[..i][j] == ps[i];
    } else {
      assert ps[i] in multiset(ps[i + 1..]);
      var k :| 0 <= k < |ps[i + 1..]| && ps[i + 1..][k] == ps[i];
      j := i + 1 + k;
    }
  }

  lemma DistinctPermuted(a: seq<Packet>, b: seq<Packet>)
    requires multiset(a) == multiset(b) && DistinctNumbers(a)
    ensures DistinctNumbers(b)
  {
    forall i, j | 0 <= i < j < |b| ensures b[i].number != b[j].number {
      if b[i].number == b[j].number {
        assert b[i] in multiset(a) && b[j] in multiset(a);
        var x :| 0 <= x < |a| && a[x] == b[i];
        var y :| 0 <= y < |a| && a[y] == b[j];
        if b[i] == b[j] {
          assert b == b[..i] + ([b[i]] + b[i + 1..]) && b[j] == b[i + 1..][j - i - 1];
          assert multiset(b)[b[i]] >= 2;
          y := OtherOccurrence(a, x);
        }
      }
    }
  }
}
