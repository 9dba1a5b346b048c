/** The parity stage as it runs. */
module Collector {
  import opened Wire
  import opened Packets
  import opened Encoder
  import opened Stage
  import opened Collect
  import opened Protection

  class FecStage {
    const codecs: Codecs
    const dataShards: nat
    const parityFor: nat -> nat
    var stash: Stash
    var out: seq<Packet>

    ghost predicate Invariant(consumed: seq<Packet>)
      reads this
    {
      dataShards > 0 && StageInv(codecs, dataShards, parityFor, consumed, stash, out)
    }

    constructor (codecs: Codecs, dataShards: nat, parityFor: nat -> nat)
      requires dataShards > 0
      ensures this.codecs == codecs && this.dataShards == dataShards && this.parityFor == parityFor
      ensures stash == map[] && out == [] && Invariant([])
    {
      this.codecs, this.dataShards, this.parityFor := codecs, dataShards, parityFor;
      stash, out := map[], [];
    }

    method StashPacket(g: nat, p: Packet)
      modifies this`stash
      ensures stash == old(stash)[g := Upsert(Buffer(old(stash), g), p)]
    {
      var buf := if g in stash then stash[g] else [];
      var pos := FirstAt(buf, p.number);
      stash := stash[g := if pos.Some? then buf[pos.value := p] else buf + [p]];
    }

    /** Sends the encoded block of group `g` if its buffer is full; the flag tells whether it was. */
    method DrainOnce(g: nat, ghost consumed: seq<Packet>) returns (drained: bool)
      requires Invariant(consumed) && g in stash
      modifies this
      ensures Invariant(consumed) && stash.Keys == old(stash).Keys
      ensures drained <==> AllPresent(old(stash)[g], Lo(dataShards, g), Hi(dataShards, g))
      ensures !drained ==> stash == old(stash) && out == old(out)
      ensures drained ==> stash == old(stash)[g := []] && |old(stash)[g]| > 0
      ensures drained ==> BlockSent(codecs, dataShards, parityFor, consumed, out, g)
      ensures OneGroupMore(dataShards, consumed, old(out), out, g)
    {
      hide StageInv, BlockSent, OneGroupMore, WholeGroup;
      NoGroupMore(dataShards, consumed, out, g);
      StashAt(codecs, dataShards, parityFor, consumed, stash, out, g);
      var rest, encoded := DrainBlock(codecs, Fec(dataShards, parityFor(g)), stash[g], g);
      drained := encoded.Some?;
      if drained {
        if stash[g] == [] { EmptyNotPresent(dataShards, g); }
        BufferFull(dataShards, g, stash[g]);
        DrainEmpties(dataShards, g, stash[g]);
        ghost var block := Taken(stash[g], Lo(dataShards, g), Hi(dataShards, g), |stash[g]|);
        DrainStep(codecs, dataShards, parityFor, consumed, stash, out, g, block);
        DrainSends(codecs, dataShards, parityFor, consumed, stash, out, g, block);
        FullIsWhole(dataShards, g, stash[g], consumed);
        EncodedOneGroup(codecs, dataShards, parityFor(g), consumed, out, g, stash[g], block);
        stash, out := stash[g := rest], out + encoded.value;
      }
    }

    /** Encodes the buffered block of group `g` if it is full. */
    method DrainGroup(g: nat, ghost consumed: seq<Packet>)
      requires Invariant(consumed) && g in stash
      modifies this
      ensures Invariant(consumed) && stash.Keys == old(stash).Keys
      ensures forall h :: h != g ==> Buffer(stash, h) == Buffer(old(stash), h)
      ensures OneGroupMore(dataShards, consumed, old(out), out, g)
      ensures || BlockSent(codecs, dataShards, parityFor, consumed, out, g)
              || (stash[g] == old(stash)[g] && !AllPresent(stash[g], Lo(dataShards, g), Hi(dataShards, g)))
    {
      hide StageInv, BlockSent, AllPresent, OneGroupMore;
      var more := DrainOnce(g, consumed);
      while more
        invariant Invariant(consumed) && stash.Keys == old(stash).Keys
        invariant forall h :: h != g ==> Buffer(stash, h) == Buffer(old(stash), h)
        invariant OneGroupMore(dataShards, consumed, old(out), out, g)
        invariant || BlockSent(codecs, dataShards, parityFor, consumed, out, g)
                  || (!more && stash[g] == old(stash)[g] && !AllPresent(stash[g], Lo(dataShards, g), Hi(dataShards, g)))
        decreases |stash[g]|, more
      {
        ghost var sent := out;
        more := DrainOnce(g, consumed);
        OneGroupTwice(dataShards, consumed, old(out), sent, out, g);
        GroupKeeps(dataShards, consumed, sent, out, g);
        SentStays(codecs, dataShards, parityFor, consumed, consumed, sent, out, g);
      }
    }

    /** Passes all packets on: full blocks with parity, the rest as they are. */
    method Run(input: seq<Packet>) returns (ghost marks: seq<nat>)
      requires Invariant([]) && stash == map[] && out == [] && AllFiled(dataShards, input)
      modifies this
      ensures stash == map[] && Conserved(codecs, dataShards, parityFor, input, out)
      ensures Protected(codecs, dataShards, parityFor, input, out)
      ensures Prompt(dataShards, input, out, marks)
    {
      hide StageInv, Served, Protected, Prompt, InStep, OneGroupMore;
      marks := [0];
      PromptStart(dataShards);
      assert input[..0] == [];
      NothingServed(codecs, dataShards, parityFor);
      for i := 0 to |input|
        invariant Invariant(input[..i]) && Served(codecs, dataShards, parityFor, input[..i], stash, out)
        invariant InStep(dataShards, input[..i], out) && Prompt(dataShards, input[..i], out, marks)
      {
        var p := input[i];
        ghost var stash0, out0 := stash, out;
        assert input[..i + 1] == input[..i] + [p];
        StashStep(codecs, dataShards, parityFor, input[..i], stash, out, p);
        StashPacket(p.group, p);
        DrainGroup(p.group, input[..i + 1]);
        GroupKeeps(dataShards, input[..i + 1], out0, out, p.group);
        ServeStep(codecs, dataShards, parityFor, input[..i], stash0, out0, p, stash, out);
        InStepNext(codecs, dataShards, parityFor, input[..i], p, stash, out0, out);
        PromptNext(dataShards, input, i, out0, out, marks);
        marks := marks + [|out|];
      }
      assert input[..|input|] == input;
      ServedProtects(codecs, dataShards, parityFor, input, stash, out);
      while stash != map[]
        invariant Invariant(input) && Protected(codecs, dataShards, parityFor, input, out)
        invariant Prompt(dataShards, input, out, marks)
        decreases |stash|
      {
        var g :| g in stash;
        ghost var out0 := out;
        DrainGroup(g, input);
        GroupKeeps(dataShards, input, out0, out, g);
        FlushStep(codecs, dataShards, parityFor, input, stash, out, g);
        FewerKeys(stash, g);
        stash, out := stash - {g}, out + stash[g];
        ProtectedStays(codecs, dataShards, parityFor, input, out0, out);
        PromptStays(dataShards, input, out0, out, marks);
      }
      EmptyStashConserves(codecs, dataShards, parityFor, input, stash, out);
    }
  }
}
