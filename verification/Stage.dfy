/** The stage of the pipeline that collects data packets into blocks and adds parity. */
module Stage {
  import opened Bytes
  import opened Wire
  import opened Packets
  import opened Encoder

  /** The first position that holds number `q`. */
  function FirstAt(ps: seq<Packet>, q: nat): (r: Option<nat>)
    ensures r.Some? ==> r.value < |ps| && ps[r.value].number == q && forall i :: 0 <= i < r.value ==> ps[i].number != q
    ensures r.None? ==> forall i :: 0 <= i < |ps| ==> ps[i].number != q
  {
    if ps == [] then None
    else if ps[0].number == q then Some(0)
    else
      match FirstAt(ps[1..], q)
      case None => None
      case Some(i) => Some(i + 1)
  }

  /** Replaces the packet with the same number, or appends. */
  function Upsert(buf: seq<Packet>, p: Packet): seq<Packet> {
    match FirstAt(buf, p.number)
    case None => buf + [p]
    case Some(i) => buf[i := p]
  }

  /** Of several packets with one number the newest is kept, and the others stay as they are. */
  lemma NewestWins(buf: seq<Packet>, p: Packet, x: Packet)
    requires DistinctNumbers(buf)
    ensures DistinctNumbers(Upsert(buf, p))
    ensures x in Upsert(buf, p) <==> x == p || (x in buf && x.number != p.number)
  {
    var r := Upsert(buf, p);
    if FirstAt(buf, p.number).Some? {
      var i := FirstAt(buf, p.number).value;
      assert r[i] == p;
      if x in buf && x.number != p.number {
        var j :| 0 <= j < |buf| && buf[j] == x;
        assert r[j] == x;
      }
    }
  }

  /** What is left of `s` from position `i` on without the positions in `gone`. */
  function KeepFrom<T>(s: seq<T>, i: nat, gone: set<nat>): seq<T>
    requires i <= |s|
    decreases |s| - i
  {
    if i == |s| then []
    else if i in gone then KeepFrom(s, i + 1, gone)
    else [s[i]] + KeepFrom(s, i + 1, gone)
  }

  /** Up to a position below all removed ones nothing is missing. */
  lemma {:induction false} KeepSplit<T>(s: seq<T>, i: nat, gone: set<nat>, pos: nat)
    requires i <= pos <= |s| && forall x :: x in gone ==> x >= pos
    ensures KeepFrom(s, i, gone) == s[i..pos] + KeepFrom(s, pos, gone)
    decreases pos - i
  {
    var rest := KeepFrom(s, pos, gone);
    if i == pos {
      assert s[i..pos] + rest == rest;
    } else {
      KeepSplit(s, i + 1, gone, pos);
      assert i !in gone && KeepFrom(s, i, gone) == [s[i]] + KeepFrom(s, i + 1, gone);
      hide KeepFrom;
      SliceHead(s, i, pos, rest);
    }
  }

  lemma SliceHead<T>(s: seq<T>, i: nat, pos: nat, rest: seq<T>)
    requires i < pos <= |s|
    ensures s[i..pos] + rest == [s[i]] + (s[i + 1..pos] + rest)
  {}

  /** Removing one more position, below those removed already. */
  lemma KeepOneLess<T>(s: seq<T>, gone: set<nat>, pos: nat)
    requires pos < |s| && forall x :: x in gone ==> x > pos
    ensures var kept := KeepFrom(s, 0, gone);
            && pos < |kept| && kept[pos] == s[pos]
            && KeepFrom(s, 0, gone + {pos}) == kept[..pos] + kept[pos + 1..]
  {
    KeepSplit(s, 0, gone, pos);
    KeepSplit(s, 0, gone + {pos}, pos);
    KeepAt(s, gone, pos);
    hide KeepFrom;
    SplitAround(s[0..pos], s[pos], KeepFrom(s, pos + 1, gone));
  }

  lemma KeepAt<T>(s: seq<T>, gone: set<nat>, pos: nat)
    requires pos < |s| && pos !in gone
    ensures KeepFrom(s, pos, gone) == [s[pos]] + KeepFrom(s, pos + 1, gone)
    ensures KeepFrom(s, pos, gone + {pos}) == KeepFrom(s, pos + 1, gone)
  {
    KeepSame(s, pos + 1, gone, pos);
  }

  lemma SplitAround<T>(a: seq<T>, x: T, b: seq<T>)
    ensures var all := a + ([x] + b); all[|a|] == x && all[..|a|] == a && all[|a| + 1..] == b
  {}

  lemma {:induction false} KeepSame<T>(s: seq<T>, i: nat, gone: set<nat>, pos: nat)
    requires pos < i <= |s|
    ensures KeepFrom(s, i, gone + {pos}) == KeepFrom(s, i, gone)
    decreases |s| - i
  {
    if i < |s| { KeepSame(s, i + 1, gone, pos); }
  }

  lemma {:induction false} KeepAll<T>(s: seq<T>, i: nat)
    requires i <= |s|
    ensures KeepFrom(s, i, {}) == s[i..]
    decreases |s| - i
  {
    if i < |s| { KeepAll(s, i + 1); }
  }

  lemma {:induction false} KeepNone<T>(s: seq<T>, i: nat, gone: set<nat>)
    requires i <= |s| && forall x :: i <= x < |s| ==> x in gone
    ensures KeepFrom(s, i, gone) == []
    decreases |s| - i
  {
    if i < |s| { KeepNone(s, i + 1, gone); }
  }

  ghost predicate Descending(ks: seq<nat>) { forall i, j :: 0 <= i < j < |ks| ==> ks[i] > ks[j] }

  ghost function Elements(ks: seq<nat>): set<nat> { set k | k in ks }

  function InsertDescending(k: nat, ks: seq<nat>): (r: seq<nat>)
    requires Descending(ks) && k !in Elements(ks)
    ensures Descending(r) && Elements(r) == Elements(ks) + {k}
  {
    if ks == [] || k > ks[0] then [k] + ks
    else
      var tail := InsertDescending(k, ks[1..]);
      assert forall i :: 0 <= i < |tail| ==> tail[i] in Elements(tail);
      [ks[0]] + tail
  }

  function SortDescending(ks: seq<nat>): (r: seq<nat>)
    requires forall i, j :: 0 <= i < j < |ks| ==> ks[i] != ks[j]
    ensures Descending(r) && Elements(r) == Elements(ks)
  {
    if ks == [] then []
    else
      InsertDescending(ks[0], SortDescending(ks[1..]))
  }

  predicate Within(ks: seq<nat>, len: nat) { forall i :: 0 <= i < |ks| ==> ks[i] < len }

  function At(ps: seq<Packet>, ks: seq<nat>): (r: seq<Packet>)
    requires Within(ks, |ps|)
    ensures |r| == |ks| && forall i :: 0 <= i < |ks| ==> r[i] == ps[ks[i]]
  {
    seq(|ks|, i requires 0 <= i < |ks| => ps[ks[i]])
  }

  /** Removing positions from the last to the first leaves the other packets intact and in order. */
  method RemoveAll(ps: seq<Packet>, positions: seq<nat>) returns (rest: seq<Packet>, block: seq<Packet>)
    requires Descending(positions) && Within(positions, |ps|)
    ensures block == At(ps, positions) && rest == KeepFrom(ps, 0, Elements(positions))
  {
    rest, block := ps, [];
    KeepAll(ps, 0);
    assert Elements(positions[..0]) == {};
    for i := 0 to |positions|
      invariant rest == KeepFrom(ps, 0, Elements(positions[..i])) && block == At(ps, positions[..i])
    {
      var pos := positions[i];
      KeepOneLess(ps, Elements(positions[..i]), pos);
      assert positions[..i + 1] == positions[..i] + [pos];
      assert Elements(positions[..i + 1]) == Elements(positions[..i]) + {pos};
      block := block + [rest[pos]];
      rest := rest[..pos] + rest[pos + 1..];
    }
    assert positions[..|positions|] == positions;
  }

  /** The numbers of group `g`, after saturation. */
  function Lo(n: nat, g: nat): nat { SatMul(g, n) }
  function Hi(n: nat, g: nat): nat { SatAdd(SatMul(g, n), n) }

  ghost predicate AllPresent(ps: seq<Packet>, lo: nat, hi: nat) {
    forall q: nat :: lo <= q < hi ==> FirstAt(ps, q).Some?
  }

  predicate FirstOf(ps: seq<Packet>, lo: nat, hi: nat, k: nat) {
    k < |ps| && lo <= ps[k].number < hi && FirstAt(ps, ps[k].number) == Some(k)
  }

  /** The first positions of the numbers from `lo` to `hi`, unless one is absent. */
  method Positions(ps: seq<Packet>, lo: nat, hi: nat) returns (r: Option<seq<nat>>)
    requires lo <= hi
    ensures r.Some? <==> AllPresent(ps, lo, hi)
    ensures r.Some? ==> (forall k :: k in r.value <==> FirstOf(ps, lo, hi, k))
                        && forall i, j :: 0 <= i < j < |r.value| ==> r.value[i] != r.value[j]
  {
    var ks: seq<nat> := [];
    for q := lo to hi
      invariant AllPresent(ps, lo, q)
      invariant forall k :: k in ks <==> FirstOf(ps, lo, q, k)
      invariant forall i, j :: 0 <= i < j < |ks| ==> ks[i] != ks[j]
    {
      var pos := FirstAt(ps, q);
      if pos.None? { return None; }
      assert pos.value !in ks;
      ks := ks + [pos.value];
    }
    return Some(ks);
  }

  /** The first positions of the numbers from `lo` to `hi`. */
  function FirstPositions(ps: seq<Packet>, lo: nat, hi: nat): (s: set<nat>)
    ensures forall k :: k in s <==> FirstOf(ps, lo, hi, k)
  {
    set k: nat | k < |ps| && FirstOf(ps, lo, hi, k)
  }

  /** The packets at those positions below `k`, from the last to the first. */
  function Taken(ps: seq<Packet>, lo: nat, hi: nat, k: nat): seq<Packet>
    requires k <= |ps|
  {
    if k == 0 then []
    else if FirstOf(ps, lo, hi, k - 1) then [ps[k - 1]] + Taken(ps, lo, hi, k - 1)
    else Taken(ps, lo, hi, k - 1)
  }

  lemma {:induction false} TakenAt(ps: seq<Packet>, lo: nat, hi: nat, k: nat, positions: seq<nat>)
    requires k <= |ps| && Descending(positions) && Within(positions, |ps|)
    requires forall x: nat :: x in positions <==> x < k && FirstOf(ps, lo, hi, x)
    ensures At(ps, positions) == Taken(ps, lo, hi, k)
  {
    hide FirstOf;
    if k == 0 {
      NoPositions(positions);
    } else if FirstOf(ps, lo, hi, k - 1) {
      LargestFirst(positions, k - 1);
      var rest := positions[1..];
      forall x: nat ensures x in rest <==> x < k - 1 && FirstOf(ps, lo, hi, x) {
        if x in positions && x != k - 1 { assert x in rest; }
      }
      TakenAt(ps, lo, hi, k - 1, rest);
      assert At(ps, positions) == [ps[k - 1]] + At(ps, rest);
    } else {
      TakenAt(ps, lo, hi, k - 1, positions);
    }
  }

  lemma NoPositions(positions: seq<nat>)
    requires forall x: nat :: x !in positions
    ensures positions == []
  {
    if positions != [] { HasMember(positions); }
  }

  lemma HasMember(ks: seq<nat>)
    requires ks != []
    ensures exists k :: k in ks
  {
    assert ks[0] in ks;
  }

  lemma LargestFirst(positions: seq<nat>, m: nat)
    requires Descending(positions) && m in positions && forall x: nat :: x in positions ==> x <= m
    ensures positions[0] == m && positions == [m] + positions[1..]
    ensures forall x: nat :: x in positions[1..] <==> x in positions && x != m
  {
    var j :| 0 <= j < |positions| && positions[j] == m;
    assert positions[0] in positions;
    assert j == 0;
    assert positions == [m] + positions[1..];
    forall x: nat | x in positions[1..] ensures x != m {
      var i :| 0 <= i < |positions[1..]| && positions[1..][i] == x;
      assert positions[i + 1] == x;
    }
  }

  /** Takes the packets of group `g` out of the buffer and encodes them, once all numbers are there. */
  method DrainBlock(c: Codecs, fec: Fec, ps: seq<Packet>, g: nat) returns (rest: seq<Packet>, r: Option<seq<Packet>>)
    ensures var lo, hi := Lo(Max(fec.dataShards, 1), g), Hi(Max(fec.dataShards, 1), g);
            && (r.Some? <==> AllPresent(ps, lo, hi))
            && (r.None? ==> rest == ps)
            && (r.Some? ==> && rest == KeepFrom(ps, 0, FirstPositions(ps, lo, hi))
                            && r.value == Encoded(c, fec, Taken(ps, lo, hi, |ps|)))
  {
    var n := Max(fec.dataShards, 1);
    var lo, hi := Lo(n, g), Hi(n, g);
    var found := Positions(ps, lo, hi);
    if found.None? { return ps, None; }
    var order := SortDescending(found.value);
    OrderedPositions(ps, lo, hi, found.value, order);
    var block;
    rest, block := RemoveAll(ps, order);
    TakenAt(ps, lo, hi, |ps|, order);
    var encoded := EncodeBlock(c, fec, block);
    r := Some(encoded);
  }

  lemma OrderedPositions(ps: seq<Packet>, lo: nat, hi: nat, found: seq<nat>, order: seq<nat>)
    requires Elements(order) == Elements(found) && forall k :: k in found <==> FirstOf(ps, lo, hi, k)
    ensures Within(order, |ps|) && Elements(order) == FirstPositions(ps, lo, hi)
    ensures forall k: nat :: k in order <==> k < |ps| && FirstOf(ps, lo, hi, k)
  {
    assert forall k :: (k in order <==> k in Elements(order)) && (k in found <==> k in Elements(found));
    forall i | 0 <= i < |order| ensures order[i] < |ps| {
      assert order[i] in Elements(order);
      assert order[i] in found;
    }
  }
}
