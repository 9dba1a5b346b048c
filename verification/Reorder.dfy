/** The reorder buffer: packets in, numbers 0, 1, 2, ... out. */
module Reorder {
  import opened Bytes
  import opened Packets

  /** Number `n` was offered. */
  ghost predicate Offered(history: set<Packet>, n: nat) { exists p :: p in history && p.number == n }

  /** The history holds every number below `n` and not `n` itself. */
  ghost predicate FirstGap(history: set<Packet>, n: nat) {
    (forall i: nat :: i < n ==> Offered(history, i)) && !Offered(history, n)
  }

  /** The first gap is one number: what is emitted is determined by what was offered. */
  lemma FirstGapUnique(history: set<Packet>, a: nat, b: nat)
    requires FirstGap(history, a) && FirstGap(history, b)
    ensures a == b
  {
    assert a < b ==> Offered(history, a);
    assert b < a ==> Offered(history, b);
  }

  /** `b` holds what was offered in `history` and not yet emitted. */
  datatype Buffer = Buffer(received: map<nat, Packet>, next: nat, seen: set<nat>)

  /** Packets with one id have one number. */
  ghost predicate Consistent(history: set<Packet>) {
    forall p, q :: p in history && q in history && p.id == q.id ==> p.number == q.number
  }

  ghost predicate Waiting(b: Buffer, p: Packet) {
    p.number >= b.next ==> p.id in b.received && b.received[p.id].number == p.number
  }

  ghost predicate BufferInv(b: Buffer, history: set<Packet>) {
    && (forall id :: id in b.received ==> b.received[id].id == id && b.received[id] in history)
    && (forall id :: id in b.seen ==> exists p :: p in history && p.id == id)
    && (forall p :: p in history ==> Waiting(b, p))
  }

  ghost predicate Emitted(emitted: seq<Packet>, history: set<Packet>) {
    forall i :: 0 <= i < |emitted| ==> emitted[i] in history && emitted[i].number == i
  }

  /** A packet whose id was seen is waiting or was emitted already. */
  lemma SeenKeepsInv(b: Buffer, history: set<Packet>, p: Packet)
    requires BufferInv(b, history) && p.id in b.seen && Consistent(history + {p})
    ensures BufferInv(b, history + {p})
  {
    var q :| q in history && q.id == p.id;
    assert Waiting(b, q);
    forall id | id in b.seen ensures exists x :: x in history + {p} && x.id == id {
      var x :| x in history && x.id == id;
      assert x in history + {p};
    }
  }

  lemma StoreKeepsInv(b: Buffer, history: set<Packet>, p: Packet, seen: set<nat>)
    requires BufferInv(b, history) && (seen == b.seen || seen == {}) && Consistent(history + {p})
    ensures BufferInv(Buffer(b.received[p.id := p], b.next, seen + {p.id}), history + {p})
  {
    var b' := Buffer(b.received[p.id := p], b.next, seen + {p.id});
    forall q | q in history + {p} ensures Waiting(b', q) {
      if q in history { assert Waiting(b, q); }
    }
    forall id | id in b'.seen ensures exists x :: x in history + {p} && x.id == id {
      if id == p.id {
        assert p in history + {p};
      } else {
        var x :| x in history && x.id == id;
        assert x in history + {p};
      }
    }
  }

  lemma EmitKeepsInv(b: Buffer, history: set<Packet>, id: nat)
    requires BufferInv(b, history) && Consistent(history) && id in b.received && b.received[id].number == b.next
    ensures BufferInv(Buffer(b.received - {id}, b.next + 1, b.seen), history)
  {
    var b' := Buffer(b.received - {id}, b.next + 1, b.seen);
    forall q | q in history ensures Waiting(b', q) { assert Waiting(b, q); }
  }

  /** When no waiting packet has the next number, no packet offered has it. */
  lemma NoneReady(b: Buffer, history: set<Packet>, emitted: seq<Packet>)
    requires BufferInv(b, history) && Emitted(emitted, history) && |emitted| == b.next
    requires forall id :: id in b.received ==> b.received[id].number != b.next
    ensures FirstGap(history, b.next)
  {
    forall i: nat | i < b.next ensures Offered(history, i) { assert emitted[i] in history; }
    forall p | p in history ensures p.number != b.next { assert Waiting(b, p); }
  }

  class ReorderBuffer {
    var received: map<nat, Packet>
    var next: nat
    var seen: set<nat>
    const maxSeen: nat

    /** All packets offered so far, and all packets emitted so far. */
    ghost var history: set<Packet>
    ghost var emitted: seq<Packet>

    ghost predicate Valid()
      reads this
    {
      && BufferInv(Buffer(received, next, seen), history) && Consistent(history)
      && Emitted(emitted, history) && |emitted| == next
    }

    constructor (maxSeen: nat)
      ensures Valid() && this.maxSeen == maxSeen && history == {} && emitted == [] && next == 0
    {
      received, next, seen, history, emitted := map[], 0, {}, {}, [];
      this.maxSeen := maxSeen;
    }

    /** Accepts a packet once. The set of ids seen is forgotten when it gets too large. */
    method Ingest(p: Packet)
      requires Valid() && Consistent(history + {p})
      modifies this
      ensures Valid() && history == old(history) + {p} && emitted == old(emitted) && next == old(next)
      ensures p.id in seen && |seen| <= Max(Max(maxSeen, 1), old(|seen|))
    {
      hide BufferInv, Consistent;
      if p.id in seen {
        SeenKeepsInv(Buffer(received, next, seen), history, p);
      } else {
        var kept := if |seen| >= maxSeen then {} else seen;
        StoreKeepsInv(Buffer(received, next, seen), history, p, kept);
        seen := kept + {p.id};
        received := received[p.id := p];
      }
      history := history + {p};
    }

    /** Takes a waiting packet with the next number out. */
    method EmitOne(id: nat) returns (p: Packet)
      requires Valid() && id in received && received[id].number == next
      modifies this
      ensures Valid() && history == old(history) && emitted == old(emitted) + [p]
      ensures |received| < old(|received|)
    {
      hide BufferInv, Consistent, Emitted;
      EmitKeepsInv(Buffer(received, next, seen), history, id);
      EmitNext(Buffer(received, next, seen), history, emitted, id);
      FewerWaiting(received, id);
      p := received[id];
      received, next, emitted := received - {id}, next + 1, emitted + [p];
    }

    /** Emits the packets that continue the sequence, up to the first gap in all that was offered. */
    method ReassembleReady() returns (out: seq<Packet>)
      requires Valid()
      modifies this
      ensures Valid() && history == old(history) && emitted == old(emitted) + out
      ensures forall i :: 0 <= i < |out| ==> out[i].number == old(next) + i
      ensures FirstGap(history, next)
    {
      hide BufferInv, Consistent, Emitted;
      out := [];
      while true
        invariant Valid() && history == old(history) && emitted == old(emitted) + out
        decreases |received|
      {
        var ready := set id | id in received && received[id].number == next;
        if ready == {} {
          assert forall id :: id in received && received[id].number == next ==> id in ready;
          break;
        }
        var id :| id in ready;
        var p := EmitOne(id);
        out := out + [p];
      }
      NoneReady(Buffer(received, next, seen), history, emitted);
      NumbersInOrder(old(emitted), out, history);
    }
  }

  lemma EmitNext(b: Buffer, history: set<Packet>, emitted: seq<Packet>, id: nat)
    requires BufferInv(b, history) && Emitted(emitted, history) && |emitted| == b.next
    requires id in b.received && b.received[id].number == b.next
    ensures Emitted(emitted + [b.received[id]], history)
  {}

  lemma NumbersInOrder(before: seq<Packet>, out: seq<Packet>, history: set<Packet>)
    requires Emitted(before + out, history)
    ensures forall i :: 0 <= i < |out| ==> out[i].number == |before| + i
  {
    forall i | 0 <= i < |out| ensures out[i].number == |before| + i { assert (before + out)[|before| + i] == out[i]; }
  }

  lemma FewerWaiting(m: map<nat, Packet>, id: nat)
    requires id in m
    ensures |m - {id}| < |m|
  {
    assert (m - {id}).Keys == m.Keys - {id};
    assert |m.Keys - {id}| == |m.Keys| - 1;
  }
}
