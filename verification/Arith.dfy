/** Products, quotients and cardinalities. Multiplication and division are defined by recursion, so
    that the proofs elsewhere use the laws proved here and no non-linear arithmetic. */
module Arith {

  function Mul(a: nat, b: nat): nat { if a == 0 then 0 else Mul(a - 1, b) + b }

  lemma {:induction false} MulIsProduct(a: nat, b: nat)
    ensures Mul(a, b) == a * b
  {
    if a > 0 {
      MulIsProduct(a - 1, b);
      assert (a - 1) * b == a * b - b;
    }
  }

  lemma {:induction false} MulMonotone(a: nat, b: nat, n: nat)
    requires a <= b
    ensures Mul(a, n) <= Mul(b, n)
  {
    if a < b { MulMonotone(a, b - 1, n); }
  }

  lemma MulStep(a: nat, b: nat, n: nat)
    requires a < b
    ensures Mul(a, n) + n <= Mul(b, n)
  {
    MulMonotone(a + 1, b, n);
  }

  lemma {:induction false} MulAtLeast(a: nat, n: nat)
    requires n > 0
    ensures a <= Mul(a, n)
  {
    if a > 0 { MulAtLeast(a - 1, n); }
  }

  /** The quotient rounded down. */
  function Div(x: nat, n: nat): (q: nat)
    requires n > 0
    ensures Mul(q, n) <= x < Mul(q, n) + n
  {
    if x < n then 0 else 1 + Div(x - n, n)
  }

  lemma DivUnique(x: nat, n: nat, q: nat)
    requires n > 0 && Mul(q, n) <= x < Mul(q, n) + n
    ensures Div(x, n) == q
  {
    var d := Div(x, n);
    if d < q { MulStep(d, q, n); }
    if d > q { MulStep(q, d, n); }
  }

  lemma QuotientAndRest(x: nat, n: nat)
    requires n > 0
    ensures x / n >= 0 && 0 <= x % n < n && x == Mul(x / n, n) + x % n
    ensures x / n == 0 ==> Mul(x / n, n) == 0
  {
    MulIsProduct(x / n, n);
  }

  lemma DivAtMost(x: nat, n: nat)
    requires n > 0
    ensures Div(x, n) <= x
  {
    MulAtLeast(Div(x, n), n);
  }

  /** The numbers below `n`. */
  function Below(n: nat): (s: set<nat>)
    ensures |s| == n && forall i: nat :: i in s <==> i < n
  {
    if n == 0 then {} else Below(n - 1) + {n - 1}
  }

  lemma {:induction false} SubsetSize<T>(a: set<T>, b: set<T>)
    requires a <= b
    ensures |a| <= |b|
  {
    if a != {} {
      var x :| x in a;
      SubsetSize(a - {x}, b - {x});
    }
  }
}
