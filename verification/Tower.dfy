/** GF(256) as three quadratic extensions of the field of two elements. */
module Tower {
  import opened Bytes
  import opened Fields

  /** No element satisfies x^2 + x == l, so t^2 + t + l has no root. */
  ghost predicate Irreducible<T(!new)>(f: Field<T>, l: T) {
    forall x :: !Root(f, l, x)
  }

  ghost predicate Root<T>(f: Field<T>, l: T, x: T) {
    f.add(f.mul(x, x), x) == l
  }

  function Plus<T>(f: Field<T>, v: (T, T), w: (T, T)): (T, T) { (f.add(v.0, w.0), f.add(v.1, w.1)) }

  function Scaled<T>(f: Field<T>, s: T, v: (T, T)): (T, T) { (f.mul(s, v.0), f.mul(s, v.1)) }

  /** Multiplication by the root t of t^2 + t + l, where (a, b) stands for a + b * t. */
  function Turn<T>(f: Field<T>, l: T, v: (T, T)): (T, T) { (f.mul(l, v.1), f.add(v.0, v.1)) }

  function Times<T>(f: Field<T>, l: T, v: (T, T), w: (T, T)): (T, T) {
    Plus(f, Scaled(f, w.0, v), Scaled(f, w.1, Turn(f, l, v)))
  }

  function Norm<T>(f: Field<T>, l: T, v: (T, T)): T {
    f.add(f.mul(v.0, f.add(v.0, v.1)), f.mul(l, f.mul(v.1, v.1)))
  }

  function Inverse<T>(f: Field<T>, l: T, v: (T, T)): (T, T) {
    Scaled(f, f.inv(Norm(f, l, v)), (f.add(v.0, v.1), v.1))
  }

  function Extend<T>(f: Field<T>, l: T): Field<(T, T)> {
    Field((f.zero, f.zero), (f.one, f.zero),
                (v, w) => Plus(f, v, w), (v, w) => Times(f, l, v, w), v => Inverse(f, l, v))
  }

  lemma PlusExchange<T(!new)>(f: Field<T>, p: (T, T), q: (T, T), r: (T, T), s: (T, T))
    requires Lawful(f)
    ensures Plus(f, Plus(f, p, q), Plus(f, r, s)) == Plus(f, Plus(f, p, r), Plus(f, q, s))
  {
    Exchange(f, p.0, q.0, r.0, s.0);
    Exchange(f, p.1, q.1, r.1, s.1);
  }

  lemma ScaledPlus<T(!new)>(f: Field<T>, s: T, v: (T, T), w: (T, T))
    requires Lawful(f)
    ensures Scaled(f, s, Plus(f, v, w)) == Plus(f, Scaled(f, s, v), Scaled(f, s, w))
  {
    assert Distrib(f, s, v.0, w.0) && Distrib(f, s, v.1, w.1);
  }

  lemma ScaledAdd<T(!new)>(f: Field<T>, s: T, t: T, v: (T, T))
    requires Lawful(f)
    ensures Scaled(f, f.add(s, t), v) == Plus(f, Scaled(f, s, v), Scaled(f, t, v))
  {
    DistribLeft(f, s, t, v.0);
    DistribLeft(f, s, t, v.1);
  }

  lemma ScaledMul<T(!new)>(f: Field<T>, s: T, t: T, v: (T, T))
    requires Lawful(f)
    ensures Scaled(f, f.mul(s, t), v) == Scaled(f, s, Scaled(f, t, v))
  {
    assert MulAssoc(f, s, t, v.0) && MulAssoc(f, s, t, v.1);
  }

  lemma ScaledOne<T(!new)>(f: Field<T>, v: (T, T))
    requires Lawful(f)
    ensures Scaled(f, f.one, v) == v && Scaled(f, f.zero, v) == (f.zero, f.zero)
    ensures Plus(f, v, (f.zero, f.zero)) == v
  {
    assert MulLaw(f, v.0, f.one) && MulLaw(f, v.1, f.one) && MulLaw(f, v.0, f.zero) && MulLaw(f, v.1, f.zero);
    assert MulLaw(f, f.one, v.0) && MulLaw(f, f.one, v.1);
    assert AddLaw(f, v.0, f.zero) && AddLaw(f, v.1, f.zero);
  }

  lemma TurnPlus<T(!new)>(f: Field<T>, l: T, v: (T, T), w: (T, T))
    requires Lawful(f)
    ensures Turn(f, l, Plus(f, v, w)) == Plus(f, Turn(f, l, v), Turn(f, l, w))
  {
    assert Distrib(f, l, v.1, w.1);
    Exchange(f, v.0, w.0, v.1, w.1);
  }

  lemma TurnScaled<T(!new)>(f: Field<T>, l: T, s: T, v: (T, T))
    requires Lawful(f)
    ensures Turn(f, l, Scaled(f, s, v)) == Scaled(f, s, Turn(f, l, v))
  {
    assert MulAssoc(f, l, s, v.1) && MulLaw(f, l, s) && MulAssoc(f, s, l, v.1);
    assert Distrib(f, s, v.0, v.1);
  }

  /** t^2 == t + l. */
  lemma TurnTwice<T(!new)>(f: Field<T>, l: T, v: (T, T))
    requires Lawful(f)
    ensures Turn(f, l, Turn(f, l, v)) == Plus(f, Turn(f, l, v), Scaled(f, l, v))
  {
    assert Distrib(f, l, v.0, v.1) && AddLaw(f, f.mul(l, v.0), f.mul(l, v.1));
    assert AddLaw(f, f.mul(l, v.1), f.add(v.0, v.1));
  }

  lemma TimesPlusRight<T(!new)>(f: Field<T>, l: T, v: (T, T), w: (T, T), u: (T, T))
    requires Lawful(f)
    ensures Times(f, l, v, Plus(f, w, u)) == Plus(f, Times(f, l, v, w), Times(f, l, v, u))
  {
    var tv := Turn(f, l, v);
    ScaledAdd(f, w.0, u.0, v);
    ScaledAdd(f, w.1, u.1, tv);
    PlusExchange(f, Scaled(f, w.0, v), Scaled(f, u.0, v), Scaled(f, w.1, tv), Scaled(f, u.1, tv));
  }

  lemma TimesScaledRight<T(!new)>(f: Field<T>, l: T, v: (T, T), s: T, w: (T, T))
    requires Lawful(f)
    ensures Times(f, l, v, Scaled(f, s, w)) == Scaled(f, s, Times(f, l, v, w))
  {
    ScaledMul(f, s, w.0, v);
    ScaledMul(f, s, w.1, Turn(f, l, v));
    ScaledPlus(f, s, Scaled(f, w.0, v), Scaled(f, w.1, Turn(f, l, v)));
  }

  lemma TimesTurnRight<T(!new)>(f: Field<T>, l: T, v: (T, T), w: (T, T))
    requires Lawful(f)
    ensures Times(f, l, v, Turn(f, l, w)) == Turn(f, l, Times(f, l, v, w))
  {
    var tv := Turn(f, l, v);
    var lv := Scaled(f, l, v);
    calc {
      Turn(f, l, Times(f, l, v, w));
      { TurnPlus(f, l, Scaled(f, w.0, v), Scaled(f, w.1, tv)); TurnScaled(f, l, w.0, v); TurnScaled(f, l, w.1, tv); }
      Plus(f, Scaled(f, w.0, tv), Scaled(f, w.1, Turn(f, l, tv)));
      { TurnTwice(f, l, v); ScaledPlus(f, w.1, tv, lv); }
      Plus(f, Scaled(f, w.0, tv), Plus(f, Scaled(f, w.1, tv), Scaled(f, w.1, lv)));
      { PlusRotate(f, Scaled(f, w.0, tv), Scaled(f, w.1, tv), Scaled(f, w.1, lv)); }
      Plus(f, Scaled(f, w.1, lv), Plus(f, Scaled(f, w.0, tv), Scaled(f, w.1, tv)));
      { ScaledAdd(f, w.0, w.1, tv); ScaledMul(f, w.1, l, v); assert MulLaw(f, w.1, l); }
      Times(f, l, v, Turn(f, l, w));
    }
  }

  lemma PlusRotate<T(!new)>(f: Field<T>, p: (T, T), q: (T, T), r: (T, T))
    requires Lawful(f)
    ensures Plus(f, p, Plus(f, q, r)) == Plus(f, r, Plus(f, p, q))
  {
    assert AddAssoc(f, p.0, q.0, r.0) && AddLaw(f, f.add(p.0, q.0), r.0);
    assert AddAssoc(f, p.1, q.1, r.1) && AddLaw(f, f.add(p.1, q.1), r.1);
  }

  lemma TimesAssociates<T(!new)>(f: Field<T>, l: T, v: (T, T), w: (T, T), u: (T, T))
    requires Lawful(f)
    ensures Times(f, l, Times(f, l, v, w), u) == Times(f, l, v, Times(f, l, w, u))
  {
    var tw := Turn(f, l, w);
    TimesPlusRight(f, l, v, Scaled(f, u.0, w), Scaled(f, u.1, tw));
    TimesScaledRight(f, l, v, u.0, w);
    TimesScaledRight(f, l, v, u.1, tw);
    TimesTurnRight(f, l, v, w);
  }

  lemma TimesCommutes<T(!new)>(f: Field<T>, l: T, v: (T, T), w: (T, T))
    requires Lawful(f)
    ensures Times(f, l, v, w) == Times(f, l, w, v)
  {
    var a, b, c, d := v.0, v.1, w.0, w.1;
    assert MulLaw(f, a, c) && MulLaw(f, b, d) && MulLaw(f, a, d) && MulLaw(f, b, c);
    assert MulAssoc(f, d, l, b) && MulLaw(f, d, l) && MulAssoc(f, l, d, b);
    assert MulAssoc(f, b, l, d) && MulLaw(f, b, l) && MulAssoc(f, l, b, d);
    assert Distrib(f, d, a, b) && Distrib(f, b, c, d);
    assert AddAssoc(f, f.mul(c, b), f.mul(d, a), f.mul(d, b)) && AddAssoc(f, f.mul(a, d), f.mul(b, c), f.mul(b, d));
    assert AddLaw(f, f.mul(c, b), f.mul(d, a));
  }

  lemma NormNonZero<T(!new)>(f: Field<T>, l: T, v: (T, T))
    requires Lawful(f) && Irreducible(f, l) && v != (f.zero, f.zero)
    ensures Norm(f, l, v) != f.zero
  {
    var a, b := v.0, v.1;
    assert AddLaw(f, a, f.zero) && MulLaw(f, l, f.zero) && MulLaw(f, f.zero, f.zero);
    if b == f.zero {
      assert AddLaw(f, f.mul(a, a), f.zero);
      ProductNonZero(f, a, a);
    } else {
      var q := f.mul(a, f.inv(b));
      DivideOut(f, b, a);
      NormFactors(f, l, q, b);
      assert !Root(f, l, q);
      AddZeroIsEqual(f, f.add(f.mul(q, q), q), l);
      ProductNonZero(f, b, b);
      ProductNonZero(f, f.mul(b, b), f.add(f.add(f.mul(q, q), q), l));
    }
  }

  lemma ProductNonZero<T(!new)>(f: Field<T>, a: T, b: T)
    requires Lawful(f) && a != f.zero && b != f.zero
    ensures f.mul(a, b) != f.zero
  {
    DivideOut(f, a, b);
    assert MulLaw(f, f.inv(a), f.zero) && MulLaw(f, f.zero, f.inv(a));
  }

  // With a == b * q the norm is b^2 * (q^2 + q + l).
  lemma NormFactors<T(!new)>(f: Field<T>, l: T, q: T, b: T)
    requires Lawful(f)
    ensures Norm(f, l, (f.mul(b, q), b)) == f.mul(f.mul(b, b), f.add(f.add(f.mul(q, q), q), l))
  {
    var bb, bq, qq := f.mul(b, b), f.mul(b, q), f.mul(q, q);
    assert Distrib(f, bb, f.add(qq, q), l) && Distrib(f, bb, qq, q) && Distrib(f, bq, bq, b);
    assert MulLaw(f, bb, l);
    assert f.mul(bq, bq) == f.mul(bb, qq) by {
      assert MulAssoc(f, b, q, bq) && MulAssoc(f, q, b, q) && MulLaw(f, q, b) && MulAssoc(f, b, q, q);
      assert MulAssoc(f, b, b, qq);
    }
    assert f.mul(bq, b) == f.mul(bb, q) by {
      assert MulLaw(f, bq, b) && MulAssoc(f, b, b, q);
    }
  }

  lemma TimesConjugate<T(!new)>(f: Field<T>, l: T, v: (T, T))
    requires Lawful(f)
    ensures Times(f, l, v, (f.add(v.0, v.1), v.1)) == (Norm(f, l, v), f.zero)
  {
    var a, b := v.0, v.1;
    var s := f.add(a, b);
    assert MulLaw(f, s, a) && MulLaw(f, s, b) && AddLaw(f, f.mul(b, s), f.mul(b, s));
    assert MulAssoc(f, b, l, b) && MulLaw(f, b, l) && MulAssoc(f, l, b, b);
  }

  lemma InverseInverts<T(!new)>(f: Field<T>, l: T, v: (T, T))
    requires Lawful(f) && Irreducible(f, l) && v != (f.zero, f.zero)
    ensures Times(f, l, v, Inverse(f, l, v)) == (f.one, f.zero)
  {
    var n := Norm(f, l, v);
    NormNonZero(f, l, v);
    TimesScaledRight(f, l, v, f.inv(n), (f.add(v.0, v.1), v.1));
    TimesConjugate(f, l, v);
    assert MulLaw(f, n, f.inv(n)) && MulLaw(f, f.inv(n), f.zero);
  }

  lemma ExtendAddLaw<T(!new)>(f: Field<T>, l: T, v: (T, T), w: (T, T), u: (T, T))
    requires Lawful(f)
    ensures AddLaw(Extend(f, l), v, w) && AddAssoc(Extend(f, l), v, w, u)
  {
    assert AddLaw(f, v.0, w.0) && AddLaw(f, v.1, w.1);
    assert AddAssoc(f, v.0, w.0, u.0) && AddAssoc(f, v.1, w.1, u.1);
  }

  lemma ExtendMulLaw<T(!new)>(f: Field<T>, l: T, v: (T, T), w: (T, T), u: (T, T))
    requires Lawful(f) && Irreducible(f, l)
    ensures MulLaw(Extend(f, l), v, w) && MulAssoc(Extend(f, l), v, w, u) && Distrib(Extend(f, l), v, w, u)
  {
    var tv := Turn(f, l, v);
    TimesCommutes(f, l, v, w);
    TimesAssociates(f, l, v, w, u);
    TimesPlusRight(f, l, v, w, u);
    ScaledOne(f, v);
    ScaledOne(f, tv);
    ScaledOne(f, (f.zero, f.zero));
    if v != (f.zero, f.zero) { InverseInverts(f, l, v); }
  }

  /** A quadratic extension is again a field, and it has a quadratic extension of its own. */
  lemma ExtendLawful<T(!new)>(f: Field<T>, l: T)
    requires Lawful(f) && Irreducible(f, l)
    ensures Lawful(Extend(f, l)) && Irreducible(Extend(f, l), (f.zero, l))
  {
    var e := Extend(f, l);
    forall v, w ensures AddLaw(e, v, w) && MulLaw(e, v, w) { ExtendAddLaw(f, l, v, w, v); ExtendMulLaw(f, l, v, w, v); }
    forall v, w, u ensures AddAssoc(e, v, w, u) { ExtendAddLaw(f, l, v, w, u); }
    forall v, w, u ensures MulAssoc(e, v, w, u) { ExtendMulLaw(f, l, v, w, u); }
    forall v, w, u ensures Distrib(e, v, w, u) { ExtendMulLaw(f, l, v, w, u); }
    forall v ensures !Root(e, (f.zero, l), v) { ExtendNoRoot(f, l, v); }
  }

  lemma ExtendNoRoot<T(!new)>(f: Field<T>, l: T, v: (T, T))
    requires Lawful(f) && Irreducible(f, l)
    ensures !Root(Extend(f, l), (f.zero, l), v)
  {
    // The second coordinate of v^2 + v is b^2 + b.
    var a, b := v.0, v.1;
    assert !Root(f, l, b);
    assert Distrib(f, b, a, b) && MulLaw(f, a, b) && AddAssoc(f, f.mul(a, b), f.mul(a, b), f.mul(b, b));
    assert AddLaw(f, f.mul(a, b), f.mul(a, b)) && AddLaw(f, f.mul(b, b), f.zero) && AddLaw(f, f.zero, f.mul(b, b));
  }

  type Pair<T> = (T, T)
  type Octet = Pair<Pair<Pair<bool>>>

  const BIT: Field<bool> := Field(false, true, (a, b) => a != b, (a, b) => a && b, a => a)
  const QUARTER := Extend(BIT, true)
  const NIBBLE := Extend(QUARTER, (false, true))
  const OCTET: Field<Octet> := Extend(NIBBLE, ((false, false), (false, true)))

  lemma BitLawful()
    ensures Lawful(BIT) && Irreducible(BIT, true)
  {}

  lemma OctetLawful()
    ensures Lawful(OCTET)
  {
    BitLawful();
    ExtendLawful(BIT, true);
    ExtendLawful(QUARTER, (false, true));
    ExtendLawful(NIBBLE, ((false, false), (false, true)));
  }

  type Nibble = Pair<Pair<bool>>

  function OfNibble(v: int): Nibble
    requires 0 <= v < 16
  {
    var v3 := if v >= 8 then v - 8 else v;
    var v2 := if v3 >= 4 then v3 - 4 else v3;
    var v1 := if v2 >= 2 then v2 - 2 else v2;
    ((v1 >= 1, v2 >= 2), (v3 >= 4, v >= 8))
  }

  function ToNibble(e: Nibble): (v: int)
    ensures 0 <= v < 16 && OfNibble(v) == e
  {
    (if e.0.0 then 1 else 0) + (if e.0.1 then 2 else 0) + (if e.1.0 then 4 else 0) + (if e.1.1 then 8 else 0)
  }

  /** Bit i of a byte is coordinate i of the tower element. */
  function OfByte(v: byte): Octet { (OfNibble(v % 16), OfNibble(v / 16)) }

  function ToByte(e: Octet): byte { ToNibble(e.0) + 16 * ToNibble(e.1) }

  lemma NibbleRoundTrip(v: int)
    requires 0 <= v < 16
    ensures ToNibble(OfNibble(v)) == v
  {}

  lemma ByteRoundTrip(v: byte)
    ensures ToByte(OfByte(v)) == v
  {
    NibbleRoundTrip(v % 16);
    NibbleRoundTrip(v / 16);
  }

  lemma OctetRoundTrip(e: Octet)
    ensures OfByte(ToByte(e)) == e
  {
    var low, high := ToNibble(e.0), ToNibble(e.1);
    assert OfNibble(low) == e.0 && OfNibble(high) == e.1;
    SplitByte(low, high);
    hide OfNibble, ToNibble;
  }

  lemma SplitByte(low: int, high: int)
    requires 0 <= low < 16 && 0 <= high < 16
    ensures (low + 16 * high) % 16 == low && (low + 16 * high) / 16 == high
  {}

  /** The same field with its elements renamed. */
  function Rename<S, T>(f: Field<T>, of: S -> T, to: T -> S): Field<S> {
    Field(to(f.zero), to(f.one), (a, b) => to(f.add(of(a), of(b))), (a, b) => to(f.mul(of(a), of(b))),
            a => to(f.inv(of(a))))
  }

  ghost predicate Inverses<S(!new), T(!new)>(of: S -> T, to: T -> S) {
    (forall s :: to(of(s)) == s) && (forall t :: of(to(t)) == t)
  }

  lemma RenameLaws<S(!new), T(!new)>(f: Field<T>, of: S -> T, to: T -> S, a: S, b: S, c: S)
    requires Lawful(f) && Inverses(of, to)
    ensures var g := Rename(f, of, to);
            AddLaw(g, a, b) && AddAssoc(g, a, b, c) && MulLaw(g, a, b) && MulAssoc(g, a, b, c) && Distrib(g, a, b, c)
  {
    var x, y, z := of(a), of(b), of(c);
    assert AddLaw(f, x, y) && AddAssoc(f, x, y, z);
    assert MulLaw(f, x, y) && MulAssoc(f, x, y, z) && Distrib(f, x, y, z);
  }

  lemma RenameLawful<S(!new), T(!new)>(f: Field<T>, of: S -> T, to: T -> S)
    requires Lawful(f) && Inverses(of, to)
    ensures Lawful(Rename(f, of, to))
  {
    var g := Rename(f, of, to);
    forall a, b ensures AddLaw(g, a, b) && MulLaw(g, a, b) { RenameLaws(f, of, to, a, b, a); }
    forall a, b, c ensures AddAssoc(g, a, b, c) { RenameLaws(f, of, to, a, b, c); }
    forall a, b, c ensures MulAssoc(g, a, b, c) { RenameLaws(f, of, to, a, b, c); }
    forall a, b, c ensures Distrib(g, a, b, c) { RenameLaws(f, of, to, a, b, c); }
  }

  const OF: byte -> Octet := (b: byte) => OfByte(b)
  const TO: Octet -> byte := (e: Octet) => ToByte(e)
  const GF: Field<byte> := Rename(OCTET, OF, TO)

  lemma GFLawful()
    ensures Lawful(GF)
  {
    OctetLawful();
    forall s: byte ensures TO(OF(s)) == s { ByteRoundTrip(s); }
    forall t: Octet ensures OF(TO(t)) == t { OctetRoundTrip(t); }
    RenameLawful(OCTET, OF, TO);
  }
}
