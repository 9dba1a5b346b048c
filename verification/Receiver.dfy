/** The receiver's data path: parse a frame, write its chunk, keep its shard, recover its group. */
module Receiver {
  import opened Bytes
  import opened Wire
  import opened ReedSolomon

  type Group = seq<Option<Bytes>>

  /** The part file, the indices persisted so far, and the shards held per group. */
  datatype Recv = Recv(file: Bytes, received: set<nat>, groups: map<nat, Group>)

  datatype Config = Config(codecs: Codecs, manifest: Manifest, verify: bool)

  predicate FecOn(m: Manifest) { m.parityShards > 0 && m.dataShards > 0 }

  /** The dimensions the Reed-Solomon constructor accepts. */
  predicate Accepts(k: Config) {
    FecOn(k.manifest) ==> k.manifest.dataShards + k.manifest.parityShards <= MAX_SHARDS
  }

  function MaxBody(m: Manifest): nat { Max(SatMul(m.chunkSize, 4), 64 * 1024) }

  /** Writes the chunk of a data frame at its offset, once per index. */
  function Persist(k: Config, s: Recv, wire: Bytes): (Recv, Result<()>) {
    match ParseHeader(k.codecs, wire)
    case Err => (s, Err)
    case Ok((d, len)) =>
      if d.isParity then (s, Ok(()))
      else if 4 + len + d.compressedSize > |wire| then (s, Err)
      else
        var payload := wire[4 + len..4 + len + d.compressedSize];
        if k.verify && k.codecs.hash(payload) != d.checksum then (s, Err)
        else if d.index in s.received then (s, Ok(()))
        else
          match Unpack(k.codecs, payload, d.wasCompressed, k.manifest.compression)
          case None => (s, Err)
          case Some(chunk) =>
            (s.(file := WriteAt(s.file, d.offset, chunk), received := s.received + {d.index}), Ok(()))
  }

  function ChunkIndex(m: Manifest, g: nat, slot: nat): nat {
    SatAdd(SatMul(g, Max(m.dataShards, 1)), slot)
  }

  predicate MissingAt(m: Manifest, group: Group, g: nat, received: set<nat>, slot: nat) {
    ChunkIndex(m, g, slot) !in received && !(slot < |group| && group[slot].Some?)
  }

  /** The data slots from `slot` on that are neither held as shards nor persisted. */
  function MissingFrom(m: Manifest, group: Group, g: nat, received: set<nat>, slot: nat): (r: seq<nat>)
    requires slot <= m.dataShards
    ensures forall i :: 0 <= i < |r| ==> slot <= r[i] < m.dataShards && MissingAt(m, group, g, received, r[i])
    ensures forall x :: slot <= x < m.dataShards && MissingAt(m, group, g, received, x) ==> x in r
    decreases m.dataShards - slot
  {
    if slot == m.dataShards then []
    else
      (if MissingAt(m, group, g, received, slot) then [slot] else [])
      + MissingFrom(m, group, g, received, slot + 1)
  }

  function Missing(m: Manifest, group: Group, g: nat, received: set<nat>): (r: seq<nat>)
    ensures forall i :: 0 <= i < |r| ==> r[i] < m.dataShards && MissingAt(m, group, g, received, r[i])
    ensures forall x :: 0 <= x < m.dataShards && MissingAt(m, group, g, received, x) ==> x in r
  {
    MissingFrom(m, group, g, received, 0)
  }

  /** Reed-Solomon can run: a data shard is present, and `dataShards` shards in all. */
  predicate RecoveryReady(m: Manifest, group: Group) {
    && |group| == m.dataShards + m.parityShards
    && (exists i :: 0 <= i < m.dataShards && group[i].Some?)
    && |Present(group)| >= m.dataShards
  }

  function MaxPresentLen(group: Group): (m: nat)
    ensures forall i :: 0 <= i < |group| && group[i].Some? ==> |group[i].value| <= m
    ensures m == 0 || exists i :: 0 <= i < |group| && group[i].Some? && |group[i].value| == m
  {
    if group == [] then 0
    else Max(if group[0].Some? then |group[0].value| else 0, MaxPresentLen(group[1..]))
  }

  function PadPresent(group: Group, len: nat): (r: Group)
    ensures |r| == |group|
    ensures forall i :: 0 <= i < |group| ==> r[i] == (if group[i].Some? then Some(Resize(group[i].value, len)) else None)
  {
    seq(|group|, i requires 0 <= i < |group| => if group[i].Some? then Some(Resize(group[i].value, len)) else None)
  }

  /** Persists the recovered rows of the given slots; the flag tells whether any was usable. */
  function RecoverSlots(k: Config, s: Recv, g: nat, rows: seq<Bytes>, slots: seq<nat>): (r: (Recv, Result<bool>))
    requires forall i :: 0 <= i < |slots| ==> slots[i] < |rows|
    ensures r.0.groups == s.groups
    decreases |slots|
  {
    if slots == [] then (s, Ok(false))
    else
      var row := rows[slots[0]];
      match ParseHeader(k.codecs, row)
      case Err => RecoverSlots(k, s, g, rows, slots[1..])
      case Ok((d, _)) =>
        if d.index != ChunkIndex(k.manifest, g, slots[0]) then RecoverSlots(k, s, g, rows, slots[1..])
        else
          match Persist(k, s, row)
          case (s1, Err) => (s1, Err)
          case (s1, Ok(_)) =>
            match RecoverSlots(k, s1, g, rows, slots[1..])
            case (s2, Err) => (s2, Err)
            case (s2, Ok(_)) => (s2, Ok(true))
  }

  /** The rows Reed-Solomon gives back for group `g`, when it can and needs to run. */
  function RecoveredRows(k: Config, s: Recv, g: nat): (r: Option<seq<Bytes>>)
    requires FecOn(k.manifest) && Accepts(k)
    ensures r.Some? ==> |r.value| == k.manifest.dataShards && g in s.groups
  {
    if g !in s.groups then None
    else
      var group := s.groups[g];
      if Missing(k.manifest, group, g, s.received) == [] || !RecoveryReady(k.manifest, group) then None
      else
        var len := MaxPresentLen(group);
        if len == 0 then None
        else ReconstructData(k.codecs.field, k.manifest.dataShards, PadPresent(group, len))
  }

  function TryRecover(k: Config, s: Recv, g: nat): (Recv, Result<()>)
    requires FecOn(k.manifest) && Accepts(k)
  {
    match RecoveredRows(k, s, g)
    case None => (s, Ok(()))
    case Some(rows) =>
      var group := s.groups[g];
      var missing := Missing(k.manifest, group, g, s.received);
      match RecoverSlots(k, s, g, rows, missing)
      case (s1, Err) => (s1, Err)
      case (s1, Ok(any)) =>
        if any && Missing(k.manifest, group, g, s1.received) == [] then
          (s1.(groups := s1.groups - {g}), Ok(()))
        else (s1, Ok(()))
  }

  /** Stores a shard in its group, creating the group with all slots empty on first use. */
  function StoreShard(m: Manifest, groups: map<nat, Group>, g: nat, slot: nat, shard: Bytes): map<nat, Group> {
    var group := if g in groups then groups[g] else seq(m.dataShards + m.parityShards, _ => None);
    groups[g := if slot < |group| then group[slot := Some(shard)] else group]
  }

  /** Handles one frame; the result names the frame's group. */
  function Ingest(k: Config, s: Recv, wire: Bytes): (Recv, Result<nat>)
    requires Accepts(k)
  {
    var m := k.manifest;
    match ParseHeader(k.codecs, wire)
    case Err => (s, Err)
    case Ok((d, len)) =>
      if d.compressedSize > MaxBody(m) || 4 + len + d.compressedSize > |wire| then (s, Err)
      else if d.isParity then
        IngestParity(k, s, d, wire[4 + len..4 + len + d.compressedSize])
      else
        match Persist(k, s, wire)
        case (s1, Err) => (s1, Err)
        case (s1, Ok(_)) =>
          var slot := SatSub(d.index, SatMul(d.fecGroup, Max(m.dataShards, 1)));
          if !FecOn(m) || slot >= m.dataShards then (s1, Ok(d.fecGroup))
          else StoreAndRecover(k, s1, d.fecGroup, slot, wire)
  }

  function IngestParity(k: Config, s: Recv, d: Descriptor, payload: Bytes): (Recv, Result<nat>)
    requires Accepts(k)
  {
    if !FecOn(k.manifest) then (s, Ok(d.fecGroup))
    else if k.verify && k.codecs.hash(payload) != d.checksum then (s, Err)
    else StoreAndRecover(k, s, d.fecGroup, SatAdd(d.parityIndex, k.manifest.dataShards), payload)
  }

  function StoreAndRecover(k: Config, s: Recv, g: nat, slot: nat, shard: Bytes): (Recv, Result<nat>)
    requires FecOn(k.manifest) && Accepts(k)
  {
    match TryRecover(k, s.(groups := StoreShard(k.manifest, s.groups, g, slot, shard)), g)
    case (s1, Err) => (s1, Err)
    case (s1, Ok(_)) => (s1, Ok(g))
  }

  /** The frame parses, is not too large, is there in full and, where it counts, matches its checksum. */
  ghost predicate Intact(k: Config, wire: Bytes) {
    match ParseHeader(k.codecs, wire)
    case Err => false
    case Ok((d, len)) =>
      && d.compressedSize <= MaxBody(k.manifest) && 4 + len + d.compressedSize <= |wire|
      && (k.verify && (d.isParity ==> FecOn(k.manifest)) ==>
            k.codecs.hash(wire[4 + len..4 + len + d.compressedSize]) == d.checksum)
  }

  /** Whoever sent it: a frame that is not intact is answered with an error and changes nothing. */
  lemma DamagedRefused(k: Config, s: Recv, wire: Bytes)
    requires Accepts(k) && !Intact(k, wire)
    ensures Ingest(k, s, wire) == (s, Err)
  {}

  /** Without parity, an intact data frame is taken if and only if its chunk is known or can be unpacked; then its
      index is counted, and a chunk that was counted before is not written again. */
  lemma IntactTaken(k: Config, s: Recv, wire: Bytes)
    requires Accepts(k) && Intact(k, wire) && !FecOn(k.manifest)
    ensures var (d, len) := ParseHeader(k.codecs, wire).value; var (s1, r) := Ingest(k, s, wire);
            var body := wire[4 + len..4 + len + d.compressedSize];
            var chunk := Unpack(k.codecs, body, d.wasCompressed, k.manifest.compression);
            && (r.Ok? <==> d.isParity || d.index in s.received || chunk.Some?) && (r.Ok? ==> r.value == d.fecGroup)
            && (r.Err? || d.isParity || d.index in s.received ==> s1 == s)
            && (r.Ok? && !d.isParity ==> s1.received == s.received + {d.index})
            && (r.Ok? && !d.isParity && d.index !in s.received ==> s1.file == WriteAt(s.file, d.offset, chunk.value))
  {
    hide StoreAndRecover, WriteAt, Unpack, MaxBody, ParseHeader;
  }

  /** No index is forgotten, without a new one the file stays as it is, and only group `g` may differ. */
  ghost predicate Grown(s: Recv, s': Recv, g: nat) {
    && s.received <= s'.received && (s.received == s'.received ==> s.file == s'.file)
    && forall h :: h != g ==> (h in s.groups <==> h in s'.groups) && (h in s.groups ==> s.groups[h] == s'.groups[h])
  }

  lemma GrownTwice(a: Recv, b: Recv, c: Recv, g: nat)
    requires Grown(a, b, g) && Grown(b, c, g)
    ensures Grown(a, c, g)
  {
    if a.received == c.received { assert b.received == a.received; }
  }

  lemma GrownSelf(s: Recv, g: nat)
    ensures Grown(s, s, g)
  {}

  lemma GroupGrown(s: Recv, s': Recv, g: nat, group: Group)
    requires Grown(s, s', g)
    ensures Grown(s, s'.(groups := s'.groups - {g}), g) && Grown(s, s'.(groups := s'.groups[g := group]), g)
  {}

  lemma PersistGrows(k: Config, s: Recv, wire: Bytes, g: nat)
    ensures Grown(s, Persist(k, s, wire).0, g)
  {}

  lemma {:induction false} SlotsGrow(k: Config, s: Recv, g: nat, rows: seq<Bytes>, slots: seq<nat>)
    requires forall i :: 0 <= i < |slots| ==> slots[i] < |rows|
    ensures Grown(s, RecoverSlots(k, s, g, rows, slots).0, g)
    decreases |slots|
  {
    if slots == [] {
      GrownSelf(s, g);
    } else {
      var s1 := Persist(k, s, rows[slots[0]]).0;
      hide Persist, Grown;
      PersistGrows(k, s, rows[slots[0]], g);
      SlotsGrow(k, s, g, rows, slots[1..]);
      SlotsGrow(k, s1, g, rows, slots[1..]);
      GrownTwice(s, s1, RecoverSlots(k, s1, g, rows, slots[1..]).0, g);
    }
  }

  lemma RecoverGrows(k: Config, s: Recv, g: nat)
    requires FecOn(k.manifest) && Accepts(k)
    ensures Grown(s, TryRecover(k, s, g).0, g)
  {
    hide RecoveredRows, Grown, RecoverSlots;
    var rows := RecoveredRows(k, s, g);
    GrownSelf(s, g);
    if rows.Some? {
      var missing := Missing(k.manifest, s.groups[g], g, s.received);
      SlotsGrow(k, s, g, rows.value, missing);
      var s1 := RecoverSlots(k, s, g, rows.value, missing).0;
      GroupGrown(s, s1, g, []);
    }
  }

  /** A group is let go only when each of its data chunks is counted or held. */
  lemma OnlyCompleteDropped(k: Config, s: Recv, g: nat, slot: nat)
    requires FecOn(k.manifest) && Accepts(k) && g in s.groups && slot < k.manifest.dataShards
    ensures var s1 := TryRecover(k, s, g).0;
            g !in s1.groups ==> !MissingAt(k.manifest, s.groups[g], g, s1.received, slot)
  {
    hide RecoveredRows, MissingAt;
  }

  lemma StoreGrows(k: Config, s: Recv, g: nat, slot: nat, shard: Bytes)
    requires FecOn(k.manifest) && Accepts(k)
    ensures Grown(s, StoreAndRecover(k, s, g, slot, shard).0, g)
  {
    hide TryRecover, Grown;
    var groups := StoreShard(k.manifest, s.groups, g, slot, shard);
    var s1 := s.(groups := groups);
    GrownSelf(s, g);
    assert groups == s.groups[g := groups[g]];
    GroupGrown(s, s, g, groups[g]);
    RecoverGrows(k, s1, g);
    GrownTwice(s, s1, TryRecover(k, s1, g).0, g);
  }

  /** Whoever sent it: no frame takes an index away, rewrites the file without counting a new one, or touches the
      shards of another group. */
  lemma IngestGrows(k: Config, s: Recv, wire: Bytes)
    requires Accepts(k) && ParseHeader(k.codecs, wire).Ok?
    ensures Grown(s, Ingest(k, s, wire).0, ParseHeader(k.codecs, wire).value.0.fecGroup)
  {
    hide Grown, Persist, StoreAndRecover;
    var (d, len) := ParseHeader(k.codecs, wire).value;
    var g, m := d.fecGroup, k.manifest;
    GrownSelf(s, g);
    if d.compressedSize <= MaxBody(m) && 4 + len + d.compressedSize <= |wire| {
      var s1 := Persist(k, s, wire).0;
      PersistGrows(k, s, wire, g);
      if FecOn(m) && d.isParity {
        StoreGrows(k, s, g, SatAdd(d.parityIndex, m.dataShards), wire[4 + len..4 + len + d.compressedSize]);
      } else if FecOn(m) {
        var slot := SatSub(d.index, SatMul(g, Max(m.dataShards, 1)));
        StoreGrows(k, s1, g, slot, wire);
        GrownTwice(s, s1, StoreAndRecover(k, s1, g, slot, wire).0, g);
      }
    }
  }
}
