/**
 * Algebraic facts about `Hex`: what the constructors, the indexer, the
 * enumeration, structural equality, the operators and `Length` promise.
 */
module HexLaws {
  import opened HexCoords

  /** The three-component constructor keeps its arguments and accepts any triple. */
  lemma ConstructorKeepsComponents(q: int, r: int, s: int)
    ensures Components(Hex(q, r, s)) == [q, r, s]
    ensures IsValid(Hex(q, r, s)) <==> q + r + s == 0
  {
  }

  /** A triple is valid exactly when it is the hex the two-component constructor builds from q and r. */
  lemma ValidIffAxial(h: Hex)
    ensures IsValid(h) <==> h == Axial(h.q, h.r)
  {
  }

  /** (1, 2, 0) can be constructed but is not valid; (1, 2, -3) is valid. */
  lemma InvalidTripleConstructs()
    ensures Hex(1, 2, 0).s == 0 && !IsValid(Hex(1, 2, 0))
    ensures IsValid(Hex(1, 2, -3))
  {
  }

  /** Structural equality coincides with equality of q, r and s. */
  lemma ValueEqualsIff(a: Hex, b: Hex)
    ensures ValueEquals(a, b) <==> a.q == b.q && a.r == b.r && a.s == b.s
  {
  }

  /** The enumeration lists, in order, exactly what the indexer returns for 0, 1 and 2. */
  lemma EnumerationMatchesIndexer(h: Hex)
    ensures Components(h) == [At(h, 0).value, At(h, 1).value, At(h, 2).value]
    ensures At(h, 0) == Ok(h.q) && At(h, 1) == Ok(h.r) && At(h, 2) == Ok(h.s)
  {
  }

  /** Addition is commutative. */
  lemma AddCommutes(a: Hex, b: Hex)
    ensures Add(a, b) == Add(b, a)
  {
  }

  /** Subtraction undoes addition, and addition undoes subtraction. */
  lemma AddSubCancel(a: Hex, b: Hex)
    ensures Sub(Add(a, b), b) == a
    ensures Add(Sub(a, b), b) == a
  {
  }

  /** `Length` is never negative, and is zero only at the origin. */
  lemma LengthZeroIff(h: Hex)
    ensures Length(h) >= 0
    ensures Length(h) == 0 <==> h == Origin
  {
  }

  /** A hex minus itself is the origin, whose length is zero. */
  lemma LengthSubSelf(a: Hex)
    ensures Sub(a, a) == Origin
    ensures Length(Sub(a, a)) == 0
  {
    LengthZeroIff(Sub(a, a));
  }

  /** |x * k| == |x| * |k|. */
  lemma AbsMul(x: int, k: int)
    ensures Abs(x * k) == Abs(x) * Abs(k)
  {
    if x < 0 && k < 0 {
      assert x * k == (-x) * (-k);
    } else if x < 0 {
      assert -(x * k) == (-x) * k;
    } else if k < 0 {
      assert -(x * k) == x * (-k);
    }
  }

  /** Multiplying by a non-negative factor keeps the order. */
  lemma MulMonotone(c: int, x: int, y: int)
    requires c >= 0 && x <= y
    ensures c * x <= c * y
  {
    assert c * y - c * x == c * (y - x);
  }

  /** Scaling three numbers by a non-negative factor scales their maximum by that factor. */
  lemma ScaledMax(c: int, x: int, y: int, z: int, n: int)
    requires c >= 0
    requires n >= x && n >= y && n >= z
    requires n == x || n == y || n == z
    ensures c * n >= c * x && c * n >= c * y && c * n >= c * z
    ensures c * n == c * x || c * n == c * y || c * n == c * z
  {
    MulMonotone(c, x, n);
    MulMonotone(c, y, n);
    MulMonotone(c, z, n);
  }

  /** A hex whose absolute components are c times those of `a` has c times its length. */
  lemma ScaledLength(h: Hex, a: Hex, c: int)
    requires c >= 0
    requires Abs(h.q) == c * Abs(a.q) && Abs(h.r) == c * Abs(a.r) && Abs(h.s) == c * Abs(a.s)
    ensures Length(h) == c * Length(a)
  {
    ScaledMax(c, Abs(a.q), Abs(a.r), Abs(a.s), Length(a));
  }

  /** Scaling a hex by k scales its length by |k|. */
  lemma LengthMul(a: Hex, k: int)
    ensures Length(Mul(a, k)) == Abs(k) * Length(a)
    ensures Length(MulLeft(k, a)) == Abs(k) * Length(a)
  {
    AbsMul(a.q, k);
    AbsMul(a.r, k);
    AbsMul(a.s, k);
    ScaledLength(Mul(a, k), a, Abs(k));
  }

  /**
   * On a valid hex the length is half the sum of the absolute components: the
   * largest absolute value is balanced by the other two.
   */
  lemma LengthHalfSum(h: Hex)
    requires IsValid(h)
    ensures 2 * Length(h) == Abs(h.q) + Abs(h.r) + Abs(h.s)
  {
  }

  /** Worked values of the operators and of `Length`. */
  lemma Examples()
    ensures Add(Hex(1, 2, -3), Hex(0, 2, -2)) == Hex(1, 4, -5)
    ensures Sub(Hex(1, 2, -3), Hex(0, 2, -2)) == Hex(1, 0, -1)
    ensures Mul(Hex(1, 2, -3), 2) == MulLeft(2, Hex(1, 2, -3)) == Hex(2, 4, -6)
    ensures Axial(-1, -2) == Hex(-1, -2, 3)
    ensures Length(Hex(1, 2, -3)) == 3 && Length(Origin) == 0
    ensures At(Hex(1, 2, -3), 3) == Err(IndexOutOfRange) && At(Hex(1, 2, -3), -1) == Err(IndexOutOfRange)
  {
  }
}
