/** A systematic Reed-Solomon erasure code: row k of a codeword is the value at point k of the
    polynomial through the data rows at points 0, 1, ..., n - 1. */
module ReedSolomon {
  import opened Bytes
  import opened Fields

  const MAX_SHARDS: nat := 256

  ghost predicate Rectangular(rows: seq<Bytes>, len: nat) {
    forall i :: 0 <= i < |rows| ==> |rows[i]| == len
  }

  function Points(n: nat): (xs: seq<byte>)
    requires n <= MAX_SHARDS
    ensures |xs| == n && forall i :: 0 <= i < n ==> xs[i] == i
  {
    seq(n, i requires 0 <= i < n => i)
  }

  function Column(rows: seq<Bytes>, c: nat): (ys: seq<byte>)
    requires forall i :: 0 <= i < |rows| ==> c < |rows[i]|
    ensures |ys| == |rows|
  {
    seq(|rows|, i requires 0 <= i < |rows| => rows[i][c])
  }

  /** Parity row `i`: it depends on the data rows and on `i` only, not on the number of parity rows. */
  function ParityRow(f: Field<byte>, rows: seq<Bytes>, i: nat, len: nat): (row: Bytes)
    requires Rectangular(rows, len) && |rows| + i < MAX_SHARDS
    ensures |row| == len
  {
    seq(len, c requires 0 <= c < len => Interpolate(f, Points(|rows|), Column(rows, c), |rows| + i))
  }

  /** Row `k` of the codeword of `rows`. */
  function CodeRow(f: Field<byte>, rows: seq<Bytes>, k: nat, len: nat): (row: Bytes)
    requires Rectangular(rows, len) && k < MAX_SHARDS
    ensures |row| == len
  {
    if k < |rows| then rows[k] else ParityRow(f, rows, k - |rows|, len)
  }

  function Present(shards: seq<Option<Bytes>>): (s: set<nat>)
    ensures forall i: nat :: i in s <==> i < |shards| && shards[i].Some?
  {
    set i: nat | i < |shards| && shards[i].Some?
  }

  /** The positions of the shards that are present, in increasing order. */
  function PresentFrom(shards: seq<Option<Bytes>>, from: nat): (ks: seq<nat>)
    requires from <= |shards|
    ensures forall j :: 0 <= j < |ks| ==> from <= ks[j] < |shards| && shards[ks[j]].Some?
    ensures forall i, j :: 0 <= i < j < |ks| ==> ks[i] < ks[j]
    decreases |shards| - from
  {
    if from == |shards| then []
    else (if shards[from].Some? then [from] else []) + PresentFrom(shards, from + 1)
  }

  lemma {:induction false} PresentCount(shards: seq<Option<Bytes>>, from: nat)
    requires from <= |shards|
    ensures |PresentFrom(shards, from)| == |set i: nat | from <= i < |shards| && shards[i].Some?|
    decreases |shards| - from
  {
    var s := set i: nat | from <= i < |shards| && shards[i].Some?;
    if from < |shards| {
      PresentCount(shards, from + 1);
      var t := set i: nat | from + 1 <= i < |shards| && shards[i].Some?;
      assert s == if shards[from].Some? then t + {from} else t;
    } else {
      assert s == {};
    }
  }

  /** Recomputes the missing data rows from the first `n` shards present; fails when there are
      fewer than `n`, or when the shards differ in length. */
  function ReconstructData(f: Field<byte>, n: nat, shards: seq<Option<Bytes>>): (r: Option<seq<Bytes>>)
    requires n <= |shards| <= MAX_SHARDS
    ensures r.Some? ==> |r.value| == n
  {
    var ks := PresentFrom(shards, 0);
    if n == 0 || |ks| < n then None
    else
      var len := |shards[ks[0]].value|;
      if exists j :: 0 <= j < |ks| && |shards[ks[j]].value| != len then None
      else
        var rows := seq(n, j requires 0 <= j < n => shards[ks[j]].value);
        Some(seq(n, i requires 0 <= i < n =>
          if shards[i].Some? then shards[i].value else Recomputed(f, ks[..n], rows, i, len)))
  }

  function Recomputed(f: Field<byte>, ks: seq<nat>, rows: seq<Bytes>, i: nat, len: nat): (row: Bytes)
    requires Rectangular(rows, len) && |ks| == |rows| && i < MAX_SHARDS
    requires forall j :: 0 <= j < |ks| ==> ks[j] < MAX_SHARDS
    ensures |row| == len
  {
    var xs: seq<byte> := seq(|ks|, j requires 0 <= j < |ks| => ks[j]);
    seq(len, c requires 0 <= c < len => Interpolate(f, xs, Column(rows, c), i))
  }

  /** `shards` holds some rows of the codeword of `rows`. */
  ghost predicate FromCodeword(f: Field<byte>, shards: seq<Option<Bytes>>, rows: seq<Bytes>, len: nat)
    requires Rectangular(rows, len)
  {
    |shards| <= MAX_SHARDS &&
    forall k :: 0 <= k < |shards| && shards[k].Some? ==> shards[k].value == CodeRow(f, rows, k, len)
  }

  /** Every row of the codeword is the interpolant's value at that row's point. */
  lemma CodeRowInterpolates(f: Field<byte>, rows: seq<Bytes>, k: nat, len: nat, c: nat)
    requires Lawful(f) && Rectangular(rows, len) && k < MAX_SHARDS && |rows| <= MAX_SHARDS && c < len
    ensures CodeRow(f, rows, k, len)[c] == Interpolate(f, Points(|rows|), Column(rows, c), k)
  {
    if k < |rows| { InterpolateHits(f, Points(|rows|), Column(rows, c), k); }
  }

  lemma RecomputedCorrect(f: Field<byte>, rows: seq<Bytes>, ks: seq<nat>, got: seq<Bytes>, i: nat, len: nat)
    requires Lawful(f) && Rectangular(rows, len) && Rectangular(got, len)
    requires |ks| == |got| == |rows| <= MAX_SHARDS && i < |rows|
    requires forall j :: 0 <= j < |ks| ==> ks[j] < MAX_SHARDS && got[j] == CodeRow(f, rows, ks[j], len)
    requires forall j, k :: 0 <= j < k < |ks| ==> ks[j] < ks[k]
    ensures Recomputed(f, ks, got, i, len) == rows[i]
  {
    var xs: seq<byte> := seq(|ks|, j requires 0 <= j < |ks| => ks[j]);
    forall c | 0 <= c < len ensures Recomputed(f, ks, got, i, len)[c] == rows[i][c] {
      forall j | 0 <= j < |ks| ensures Column(got, c)[j] == Interpolate(f, Points(|rows|), Column(rows, c), xs[j]) {
        CodeRowInterpolates(f, rows, ks[j], len, c);
      }
      Reinterpolate(f, Points(|rows|), Column(rows, c), xs, Column(got, c), i);
      CodeRowInterpolates(f, rows, i, len, c);
    }
  }

  /** Any `n` rows of a codeword give the data rows back. */
  lemma ReconstructCorrect(f: Field<byte>, rows: seq<Bytes>, shards: seq<Option<Bytes>>, len: nat)
    requires Lawful(f) && 0 < |rows| <= |shards| && Rectangular(rows, len) && FromCodeword(f, shards, rows, len)
    requires |Present(shards)| >= |rows|
    ensures ReconstructData(f, |rows|, shards) == Some(rows)
  {
    var n := |rows|;
    var ks := PresentFrom(shards, 0);
    PresentCount(shards, 0);
    assert Present(shards) == set i: nat | 0 <= i < |shards| && shards[i].Some?;
    forall j | 0 <= j < |ks| ensures |shards[ks[j]].value| == len {}
    var got := seq(n, j requires 0 <= j < n => shards[ks[j]].value);
    var r := ReconstructData(f, n, shards);
    assert r.Some?;
    forall i | 0 <= i < n ensures r.value[i] == rows[i] {
      RecomputedCorrect(f, rows, ks[..n], got, i, len);
    }
    assert r.value == rows;
  }
}
