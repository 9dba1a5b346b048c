/** Bytes, results, big-endian lengths and zero padding. */
module Bytes {
  import opened Arith

  type byte = x: int | 0 <= x < 256
  type Bytes = seq<byte>

  const U32_LIMIT: nat := 0x1_0000_0000
  const U64_LIMIT: nat := 0x1_0000_0000_0000_0000

  datatype Option<+T> = None | Some(value: T)
  datatype Result<+T> = Ok(value: T) | Err

  /** The saturating arithmetic of unsigned 64-bit integers. */
  function SatMul(a: nat, b: nat): nat { if Mul(a, b) < U64_LIMIT then Mul(a, b) else U64_LIMIT - 1 }
  function SatAdd(a: nat, b: nat): nat { if a + b < U64_LIMIT then a + b else U64_LIMIT - 1 }
  function SatSub(a: nat, b: nat): nat { if a >= b then a - b else 0 }

  function Max(a: nat, b: nat): nat { if a >= b then a else b }
  function Min(a: nat, b: nat): nat { if a <= b then a else b }

  /** The four big-endian bytes of a length, after the cast to 32 bits. */
  function Be32(n: nat): (b: Bytes)
    ensures |b| == 4
  {
    var m0 := n % U32_LIMIT;
    var m1 := m0 / 256;
    var m2 := m1 / 256;
    [m2 / 256, m2 % 256, m1 % 256, m0 % 256]
  }

  function FromBe32(b: Bytes): (n: nat)
    requires |b| >= 4
    ensures n < U32_LIMIT
  {
    var b0: int, b1: int, b2: int, b3: int := b[0], b[1], b[2], b[3];
    ((b0 * 256 + b1) * 256 + b2) * 256 + b3
  }

  lemma Be32RoundTrip(n: nat, rest: Bytes)
    requires n < U32_LIMIT
    ensures FromBe32(Be32(n) + rest) == n
  {
    var b := Be32(n);
    assert forall i :: 0 <= i < 4 ==> (b + rest)[i] == b[i];
  }

  function Zeros(n: nat): (z: Bytes)
    ensures |z| == n && forall i :: 0 <= i < n ==> z[i] == 0
  {
    seq(n, i => 0)
  }

  /** Extends `b` with zeros to `n` bytes, or cuts it off there. */
  function Resize(b: Bytes, n: nat): (r: Bytes)
    ensures |r| == n
    ensures |b| <= n ==> r == b + Zeros(n - |b|)
  {
    if |b| <= n then b + Zeros(n - |b|) else b[..n]
  }

  /** Overwrites `data` at `off`, extending with zeros where `off` lies past the end. */
  function WriteAt(file: Bytes, off: nat, data: Bytes): (r: Bytes)
    ensures |r| == Max(|file|, if data == [] then 0 else off + |data|)
    ensures forall k :: off <= k < off + |data| ==> r[k] == data[k - off]
    ensures forall k :: 0 <= k < |file| && !(off <= k < off + |data|) ==> r[k] == file[k]
  {
    if data == [] then file
    else
      var base := if off + |data| <= |file| then file else Resize(file, off + |data|);
      base[..off] + data + base[off + |data|..]
  }
}
