/** Polynomial interpolation over a field in which every element is its own negative. */
module Fields {

  datatype Field<!T> = Field(zero: T, one: T, add: (T, T) -> T, mul: (T, T) -> T, inv: T -> T)

  // Each law is a predicate of its arguments, so that a proof names the instance it uses.
  ghost predicate AddLaw<T>(f: Field<T>, a: T, b: T) {
    f.add(a, b) == f.add(b, a) && f.add(a, f.zero) == a && f.add(a, a) == f.zero
  }

  ghost predicate AddAssoc<T>(f: Field<T>, a: T, b: T, c: T) {
    f.add(f.add(a, b), c) == f.add(a, f.add(b, c))
  }

  ghost predicate MulLaw<T>(f: Field<T>, a: T, b: T) {
    && f.mul(a, b) == f.mul(b, a)
    && f.mul(a, f.one) == a
    && f.mul(a, f.zero) == f.zero
    && (a != f.zero ==> f.mul(a, f.inv(a)) == f.one)
  }

  ghost predicate MulAssoc<T>(f: Field<T>, a: T, b: T, c: T) {
    f.mul(f.mul(a, b), c) == f.mul(a, f.mul(b, c))
  }

  ghost predicate Distrib<T>(f: Field<T>, a: T, b: T, c: T) {
    f.mul(a, f.add(b, c)) == f.add(f.mul(a, b), f.mul(a, c))
  }

  ghost predicate Lawful<T(!new)>(f: Field<T>) {
    && (forall a, b :: AddLaw(f, a, b))
    && (forall a, b, c :: AddAssoc(f, a, b, c))
    && (forall a, b :: MulLaw(f, a, b))
    && (forall a, b, c :: MulAssoc(f, a, b, c))
    && (forall a, b, c :: Distrib(f, a, b, c))
  }

  lemma Cancel<T(!new)>(f: Field<T>, a: T, b: T)
    requires Lawful(f)
    ensures f.add(a, f.add(a, b)) == b
  {
    assert AddAssoc(f, a, a, b) && AddLaw(f, a, a) && AddLaw(f, b, f.zero);
  }

  lemma AddZeroIsEqual<T(!new)>(f: Field<T>, a: T, b: T)
    requires Lawful(f)
    ensures f.add(a, b) == f.zero <==> a == b
  {
    Cancel(f, a, b);
    assert AddLaw(f, a, b) && AddLaw(f, a, a);
  }

  lemma Exchange<T(!new)>(f: Field<T>, p: T, q: T, r: T, s: T)
    requires Lawful(f)
    ensures f.add(f.add(p, q), f.add(r, s)) == f.add(f.add(p, r), f.add(q, s))
  {
    assert AddAssoc(f, p, q, f.add(r, s)) && AddAssoc(f, q, r, s) && AddLaw(f, q, r);
    assert AddAssoc(f, r, q, s) && AddAssoc(f, p, r, f.add(q, s));
  }

  lemma DistribLeft<T(!new)>(f: Field<T>, a: T, b: T, c: T)
    requires Lawful(f)
    ensures f.mul(f.add(a, b), c) == f.add(f.mul(a, c), f.mul(b, c))
  {
    assert MulLaw(f, f.add(a, b), c) && Distrib(f, c, a, b) && MulLaw(f, a, c) && MulLaw(f, b, c);
  }

  lemma DivideOut<T(!new)>(f: Field<T>, d: T, v: T)
    requires Lawful(f) && d != f.zero
    ensures f.mul(f.mul(d, v), f.inv(d)) == v
    ensures f.mul(d, f.mul(v, f.inv(d))) == v
  {
    assert MulLaw(f, d, v) && MulAssoc(f, v, d, f.inv(d)) && MulLaw(f, d, f.inv(d)) && MulLaw(f, v, f.one);
    assert MulAssoc(f, d, v, f.inv(d));
  }

  /** The value at `x` of the polynomial with coefficients `p`, constant term first. */
  function Eval<T>(f: Field<T>, p: seq<T>, x: T): T {
    if p == [] then f.zero else f.add(p[0], f.mul(x, Eval(f, p[1..], x)))
  }

  /** The quotient of `p(x) - p(a)` by `x - a`. */
  function Quotient<T>(f: Field<T>, p: seq<T>, a: T): (q: seq<T>)
    ensures |q| == if |p| == 0 then 0 else |p| - 1
  {
    if |p| <= 1 then [] else [Eval(f, p[1..], a)] + Quotient(f, p[1..], a)
  }

  // x * v + a * w == (x + a) * (w + x * q)  whenever  v + w == (x + a) * q
  lemma DivisionStep<T(!new)>(f: Field<T>, x: T, a: T, v: T, w: T, q: T)
    requires Lawful(f) && f.add(v, w) == f.mul(f.add(x, a), q)
    ensures f.add(f.mul(x, v), f.mul(a, w)) == f.mul(f.add(x, a), f.add(w, f.mul(x, q)))
  {
    var d := f.add(x, a);
    calc {
      f.mul(d, f.add(w, f.mul(x, q)));
      { assert Distrib(f, d, w, f.mul(x, q)); }
      f.add(f.mul(d, w), f.mul(d, f.mul(x, q)));
      { assert MulAssoc(f, d, x, q) && MulLaw(f, d, x) && MulAssoc(f, x, d, q); }
      f.add(f.mul(d, w), f.mul(x, f.add(v, w)));
      { DistribLeft(f, x, a, w); assert Distrib(f, x, v, w); }
      f.add(f.add(f.mul(x, w), f.mul(a, w)), f.add(f.mul(x, v), f.mul(x, w)));
      { assert AddLaw(f, f.mul(x, v), f.mul(x, w)); Exchange(f, f.mul(x, w), f.mul(a, w), f.mul(x, w), f.mul(x, v)); }
      f.add(f.add(f.mul(x, w), f.mul(x, w)), f.add(f.mul(a, w), f.mul(x, v)));
      { assert AddLaw(f, f.mul(x, w), f.mul(x, w)) && AddLaw(f, f.add(f.mul(a, w), f.mul(x, v)), f.zero); }
      f.add(f.mul(a, w), f.mul(x, v));
      { assert AddLaw(f, f.mul(a, w), f.mul(x, v)); }
      f.add(f.mul(x, v), f.mul(a, w));
    }
  }

  /** p(x) - p(a) == (x - a) * q(x). */
  lemma {:induction false} Division<T(!new)>(f: Field<T>, p: seq<T>, a: T, x: T)
    requires Lawful(f)
    ensures f.add(Eval(f, p, x), Eval(f, p, a)) == f.mul(f.add(x, a), Eval(f, Quotient(f, p, a), x))
  {
    if |p| <= 1 {
      assert MulLaw(f, f.add(x, a), f.zero) && MulLaw(f, x, f.zero) && MulLaw(f, a, f.zero);
      AddZeroIsEqual(f, Eval(f, p, x), Eval(f, p, a));
    } else {
      var p', q' := p[1..], Quotient(f, p[1..], a);
      var v, w, q := Eval(f, p', x), Eval(f, p', a), Eval(f, q', x);
      Division(f, p', a, x);
      DivisionStep(f, x, a, v, w, q);
      assert Quotient(f, p, a)[1..] == q';
      Exchange(f, p[0], f.mul(x, v), p[0], f.mul(a, w));
      assert AddLaw(f, p[0], p[0]) && AddLaw(f, f.add(f.mul(x, v), f.mul(a, w)), f.zero);
    }
  }

  /** The divided differences of the remaining points against the first one. */
  function Slopes<T>(f: Field<T>, xs: seq<T>, ys: seq<T>): (zs: seq<T>)
    requires |xs| == |ys| > 0
    ensures |zs| == |xs| - 1
  {
    seq(|xs| - 1, i requires 0 <= i < |xs| - 1 =>
      f.mul(f.add(ys[i + 1], ys[0]), f.inv(f.add(xs[i + 1], xs[0]))))
  }

  /** The value at `x` of the interpolant through the points `(xs[i], ys[i])`. */
  function Interpolate<T>(f: Field<T>, xs: seq<T>, ys: seq<T>, x: T): T
    requires |xs| == |ys|
    decreases |xs|
  {
    if xs == [] then f.zero
    else f.add(ys[0], f.mul(f.add(x, xs[0]), Interpolate(f, xs[1..], Slopes(f, xs, ys), x)))
  }

  ghost predicate Distinct<T>(xs: seq<T>) {
    forall i, j :: 0 <= i < j < |xs| ==> xs[i] != xs[j]
  }

  /** The interpolant takes the given value at every given point. */
  lemma {:induction false} InterpolateHits<T(!new)>(f: Field<T>, xs: seq<T>, ys: seq<T>, i: nat)
    requires Lawful(f) && |xs| == |ys| && i < |xs| && Distinct(xs)
    ensures Interpolate(f, xs, ys, xs[i]) == ys[i]
    decreases |xs|
  {
    var zs := Slopes(f, xs, ys);
    if i == 0 {
      var r := Interpolate(f, xs[1..], zs, xs[0]);
      assert AddLaw(f, xs[0], xs[0]) && MulLaw(f, r, f.zero) && MulLaw(f, f.zero, r) && AddLaw(f, ys[0], f.zero);
    } else {
      InterpolateHits(f, xs[1..], zs, i - 1);
      var d := f.add(xs[i], xs[0]);
      AddZeroIsEqual(f, xs[i], xs[0]);
      DivideOut(f, d, f.add(ys[i], ys[0]));
      assert AddLaw(f, ys[i], ys[0]);
      Cancel(f, ys[0], ys[i]);
    }
  }

  ghost predicate OnPolynomial<T>(f: Field<T>, p: seq<T>, xs: seq<T>, ys: seq<T>) {
    |xs| == |ys| && forall i :: 0 <= i < |xs| ==> ys[i] == Eval(f, p, xs[i])
  }

  /** Enough points of a polynomial determine all its values. */
  lemma {:induction false} InterpolateRecovers<T(!new)>(f: Field<T>, p: seq<T>, xs: seq<T>, ys: seq<T>, x: T)
    requires Lawful(f) && Distinct(xs) && |p| <= |xs| && OnPolynomial(f, p, xs, ys)
    ensures Interpolate(f, xs, ys, x) == Eval(f, p, x)
    decreases |xs|
  {
    if xs != [] {
      var a, q, zs := xs[0], Quotient(f, p, xs[0]), Slopes(f, xs, ys);
      forall i | 0 <= i < |zs| ensures zs[i] == Eval(f, q, xs[1..][i]) {
        Division(f, p, a, xs[i + 1]);
        AddZeroIsEqual(f, xs[i + 1], a);
        DivideOut(f, f.add(xs[i + 1], a), Eval(f, q, xs[i + 1]));
      }
      InterpolateRecovers(f, q, xs[1..], zs, x);
      Division(f, p, a, x);
      assert AddLaw(f, Eval(f, p, x), ys[0]);
      Cancel(f, ys[0], Eval(f, p, x));
    }
  }

  /** The coefficients of `c + (x - a) * q(x)`. */
  function LinearTimes<T>(f: Field<T>, c: T, a: T, q: seq<T>): (p: seq<T>)
    ensures |p| == |q| + 1
    decreases |q|
  {
    if q == [] then [c]
    else [f.add(c, f.mul(a, q[0]))] + LinearTimes(f, q[0], a, q[1..])
  }

  // c + (x + a) * (q + x * r) == (c + a * q) + x * (q + (x + a) * r)
  lemma LinearTimesStep<T(!new)>(f: Field<T>, c: T, a: T, x: T, q: T, r: T)
    requires Lawful(f)
    ensures f.add(f.add(c, f.mul(a, q)), f.mul(x, f.add(q, f.mul(f.add(x, a), r))))
         == f.add(c, f.mul(f.add(x, a), f.add(q, f.mul(x, r))))
  {
    var d := f.add(x, a);
    var aq, xq, t := f.mul(a, q), f.mul(x, q), f.mul(x, f.mul(d, r));
    calc {
      f.mul(d, f.add(q, f.mul(x, r)));
      { assert Distrib(f, d, q, f.mul(x, r)); DistribLeft(f, x, a, q); }
      f.add(f.add(xq, aq), f.mul(d, f.mul(x, r)));
      { assert MulAssoc(f, d, x, r) && MulLaw(f, d, x) && MulAssoc(f, x, d, r); }
      f.add(f.add(xq, aq), t);
      { assert AddLaw(f, xq, aq) && AddAssoc(f, aq, xq, t); }
      f.add(aq, f.add(xq, t));
    }
    assert Distrib(f, x, q, f.mul(d, r)) && AddAssoc(f, c, aq, f.add(xq, t));
  }

  lemma {:induction false} EvalLinearTimes<T(!new)>(f: Field<T>, c: T, a: T, q: seq<T>, x: T)
    requires Lawful(f)
    ensures Eval(f, LinearTimes(f, c, a, q), x) == f.add(c, f.mul(f.add(x, a), Eval(f, q, x)))
    decreases |q|
  {
    var p := LinearTimes(f, c, a, q);
    if q == [] {
      assert p[1..] == [];
      assert MulLaw(f, x, f.zero) && MulLaw(f, f.add(x, a), f.zero);
    } else {
      EvalLinearTimes(f, q[0], a, q[1..], x);
      assert p[1..] == LinearTimes(f, q[0], a, q[1..]);
      LinearTimesStep(f, c, a, x, q[0], Eval(f, q[1..], x));
    }
  }

  /** The coefficients of the interpolant. */
  function Interpolant<T>(f: Field<T>, xs: seq<T>, ys: seq<T>): (p: seq<T>)
    requires |xs| == |ys|
    ensures |p| == |xs|
    decreases |xs|
  {
    if xs == [] then []
    else LinearTimes(f, ys[0], xs[0], Interpolant(f, xs[1..], Slopes(f, xs, ys)))
  }

  lemma {:induction false} InterpolantEvaluates<T(!new)>(f: Field<T>, xs: seq<T>, ys: seq<T>, x: T)
    requires Lawful(f) && |xs| == |ys|
    ensures Eval(f, Interpolant(f, xs, ys), x) == Interpolate(f, xs, ys, x)
    decreases |xs|
  {
    if xs != [] {
      InterpolantEvaluates(f, xs[1..], Slopes(f, xs, ys), x);
      EvalLinearTimes(f, ys[0], xs[0], Interpolant(f, xs[1..], Slopes(f, xs, ys)), x);
    }
  }

  /** Interpolating through any `|xs|` points of an interpolant gives the same function back:
      the maximum distance separable property. */
  lemma Reinterpolate<T(!new)>(f: Field<T>, xs: seq<T>, ys: seq<T>, us: seq<T>, vs: seq<T>, x: T)
    requires Lawful(f) && |xs| == |ys| == |us| == |vs| && Distinct(us)
    requires forall i :: 0 <= i < |us| ==> vs[i] == Interpolate(f, xs, ys, us[i])
    ensures Interpolate(f, us, vs, x) == Interpolate(f, xs, ys, x)
  {
    var p := Interpolant(f, xs, ys);
    forall i | 0 <= i < |us| ensures vs[i] == Eval(f, p, us[i]) { InterpolantEvaluates(f, xs, ys, us[i]); }
    InterpolateRecovers(f, p, us, vs, x);
    InterpolantEvaluates(f, xs, ys, x);
  }
}
