/**
 * Integer cube coordinates on a hexagonal grid: the `Hex` value type.
 *
 * A `Hex` is a triple (q, r, s) of integers. Nothing forces q + r + s == 0
 * when one is built: the three-component constructor stores whatever it is
 * given, and validity is a separate question answered by `IsValid`.
 */
module HexCoords {

  /** The one failure the value type can report: a component index outside 0..2. */
  datatype Error = IndexOutOfRange

  datatype Result<T> = Ok(value: T) | Err(error: Error)

  /** A cube coordinate; the datatype constructor is the three-component constructor. */
  datatype Hex = Hex(q: int, r: int, s: int)

  /** The origin cell (0, 0, 0). */
  const Origin: Hex := Hex(0, 0, 0)

  /** A hex lies on the cube-coordinate plane when its components sum to zero. */
  predicate IsValid(h: Hex)
    ensures IsValid(h) <==> h.s == -h.q - h.r
  {
    h.q + h.r + h.s == 0
  }

  /** The two-component constructor: s is derived so that the sum is zero. */
  function Axial(q: int, r: int): (h: Hex)
    ensures h.q == q && h.r == r
    ensures IsValid(h)
  {
    Hex(q, r, -q - r)
  }

  /** The enumeration of a hex: its components in the order q, r, s. */
  function Components(h: Hex): (c: seq<int>)
    ensures |c| == 3
  {
    [h.q, h.r, h.s]
  }

  /**
   * Structural equality of the value object: two hexes are equal when their
   * equality components, which are exactly the enumerated components, agree.
   */
  predicate ValueEquals(a: Hex, b: Hex)
    ensures ValueEquals(a, b) <==> a == b
  {
    Components(a) == Components(b)
  }

  /** The indexer: component i for i in 0..2, an error for any other index. */
  function At(h: Hex, i: int): (r: Result<int>)
    ensures r.Ok? <==> 0 <= i < 3
    ensures r.Ok? ==> r.value == Components(h)[i]
    ensures r.Err? ==> r.error == IndexOutOfRange
  {
    if i == 0 then Ok(h.q)
    else if i == 1 then Ok(h.r)
    else if i == 2 then Ok(h.s)
    else Err(IndexOutOfRange)
  }

  /** Component-wise sum. */
  function Add(a: Hex, b: Hex): (c: Hex)
    ensures forall i :: 0 <= i < 3 ==> Components(c)[i] == Components(a)[i] + Components(b)[i]
    ensures IsValid(a) && IsValid(b) ==> IsValid(c)
  {
    Hex(a.q + b.q, a.r + b.r, a.s + b.s)
  }

  /** Component-wise difference. */
  function Sub(a: Hex, b: Hex): (c: Hex)
    ensures forall i :: 0 <= i < 3 ==> Components(c)[i] == Components(a)[i] - Components(b)[i]
    ensures IsValid(a) && IsValid(b) ==> IsValid(c)
  {
    Hex(a.q - b.q, a.r - b.r, a.s - b.s)
  }

  /** Scalar multiple with the scalar on the right: `a * k`. */
  function Mul(a: Hex, k: int): (c: Hex)
    ensures forall i :: 0 <= i < 3 ==> Components(c)[i] == Components(a)[i] * k
    ensures IsValid(a) ==> IsValid(c)
  {
    Hex(a.q * k, a.r * k, a.s * k)
  }

  /** Scalar multiple with the scalar on the left: `k * a`; the same hex as `a * k`. */
  function MulLeft(k: int, a: Hex): (c: Hex)
    ensures c == Mul(a, k)
    ensures IsValid(a) ==> IsValid(c)
  {
    Hex(a.q * k, a.r * k, a.s * k)
  }

  /** Absolute value of one component. */
  function Abs(x: int): (y: int)
    ensures y >= 0 && (y == x || y == -x)
  {
    if x < 0 then -x else x
  }

  /** The absolute value of every element, in order. */
  function AbsAll(xs: seq<int>): (ys: seq<int>)
    ensures |ys| == |xs|
    ensures forall i :: 0 <= i < |xs| ==> ys[i] == Abs(xs[i])
  {
    seq(|xs|, i requires 0 <= i < |xs| => Abs(xs[i]))
  }

  /** The largest element of a non-empty sequence. */
  function Max(xs: seq<int>): (m: int)
    requires |xs| > 0
    ensures m in xs
    ensures forall i :: 0 <= i < |xs| ==> xs[i] <= m
  {
    if |xs| == 1 then xs[0]
    else
      var rest := Max(xs[1..]);
      if xs[0] >= rest then xs[0] else rest
  }

  /**
   * The distance of a hex from the origin: the largest absolute value among
   * its enumerated components.
   */
  function Length(h: Hex): (n: int)
    ensures n >= Abs(h.q) && n >= Abs(h.r) && n >= Abs(h.s)
    ensures n == Abs(h.q) || n == Abs(h.r) || n == Abs(h.s)
  {
    var abs := AbsAll(Components(h));
    assert abs[0] == Abs(h.q) && abs[1] == Abs(h.r) && abs[2] == Abs(h.s);
    assert abs == [Abs(h.q), Abs(h.r), Abs(h.s)];
    Max(abs)
  }
}
