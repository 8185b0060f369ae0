# Hex: integer cube coordinates

This project models `Hex`, the integer cube-coordinate value type of the
ShieldHexLib hexagonal-grid library, and proves what its operations promise.

A `Hex` holds three integers Q, R and S. The model is a Dafny datatype
`Hex(q, r, s)` in module `HexCoords` (`hex.dfy`). The lemmas relating the
operations live in module `HexLaws` (`hex_laws.dfy`).

- The datatype constructor is the three-component constructor. Like the C#
  constructor it accepts any triple: the sum-to-zero rule is not a type
  constraint. Validity is the separate predicate `IsValid` (Q + R + S == 0).
- `Axial(q, r)` is the two-component constructor; it derives s = -q - r.
- `Components` is the enumeration (Q, R, S in that order). Structural equality
  (`ValueEquals`) compares these equality components.
- `At` is the indexer. It returns `Err(IndexOutOfRange)` for any index other
  than 0, 1 or 2, where the C# code throws.
- `Add`, `Sub`, `Mul` (hex times scalar) and `MulLeft` (scalar times hex) are
  the operators.
- `Length` is the largest absolute component. It is built as the C# code
  builds it: the absolute value of every enumerated component (`AbsAll`), then
  the maximum of that sequence (`Max`).

The three-component constructor (`ShieldHexLib/Hex.cs:33-38`) stores its
arguments without checking them, so `Hex(1, 2, 0)` exists and `IsValid` is
false of it.

## Model

| member | source | states |
|---|---|---|
| `HexCoords.Axial` | ShieldHexLib/Hex.cs:40 | the two-component constructor keeps q and r, and its result is always valid |
| `HexCoords.IsValid` | ShieldHexLib/Hex.cs:62-65 | a hex is valid exactly when Q + R + S == 0, that is, when S is -Q - R; `+`, `-` and `*` preserve it (their own contracts) and `Axial`'s result always has it |
| `HexCoords.ValueEquals` | ShieldHexLib/Hex.cs:54-60 | structural equality compares the enumerated components and holds exactly when the two hexes are the same value |
| `HexCoords.Components` | ShieldHexLib/Hex.cs:42-47 | the enumeration always yields exactly three components |
| `HexCoords.At` | ShieldHexLib/Hex.cs:15-31 | the indexer succeeds exactly for 0, 1 and 2, returns the component the enumeration yields at that position, and fails with IndexOutOfRange for every other index |
| `HexCoords.Add` | ShieldHexLib/Hex.cs:67-70 | each component of the sum is the sum of the operands' components; two valid operands give a valid result |
| `HexCoords.Sub` | ShieldHexLib/Hex.cs:72-75 | each component of the difference is the difference of the operands' components; two valid operands give a valid result |
| `HexCoords.Mul` | ShieldHexLib/Hex.cs:77-80 | every component is multiplied by k; a valid hex gives a valid result |
| `HexCoords.MulLeft` | ShieldHexLib/Hex.cs:82-85 | `k * a` is the same hex as `a * k`, and is valid when `a` is |
| `HexCoords.Abs` | ShieldHexLib/Hex.cs:89 | the absolute value is non-negative and is x or -x |
| `HexCoords.AbsAll` | ShieldHexLib/Hex.cs:89 | the selection keeps the length of the sequence and maps each element to its absolute value |
| `HexCoords.Max` | ShieldHexLib/Hex.cs:89 | the maximum of a non-empty sequence is one of its elements and no element exceeds it |
| `HexCoords.Length` | ShieldHexLib/Hex.cs:87-90 | the length is at least each of abs(Q), abs(R), abs(S) and equal to one of them |
| `HexLaws.ConstructorKeepsComponents` | ShieldHexLib/Hex.cs:33-38 | the three-component constructor stores q, r, s unchanged for any triple, and the result is valid exactly when q + r + s == 0 |
| `HexLaws.ValidIffAxial` | ShieldHexLib/Hex.cs:40 | a hex is valid exactly when it equals the hex the two-component constructor builds from its Q and R |
| `HexLaws.InvalidTripleConstructs` | ShieldHexLib/Hex.cs:62-65 | (1, 2, 0) can be built but is not valid; (1, 2, -3) is valid |
| `HexLaws.ValueEqualsIff` | ShieldHexLib/Hex.cs:54-60 | structural equality holds exactly when Q, R and S are pairwise equal |
| `HexLaws.EnumerationMatchesIndexer` | ShieldHexLib/Hex.cs:15-47 | the enumeration lists exactly what the indexer returns for 0, 1 and 2, in that order |
| `HexLaws.AddCommutes` | ShieldHexLib/Hex.cs:67-70 | `a + b == b + a` |
| `HexLaws.AddSubCancel` | ShieldHexLib/Hex.cs:67-75 | `(a + b) - b == a` and `(a - b) + b == a` |
| `HexLaws.LengthZeroIff` | ShieldHexLib/Hex.cs:87-90 | the length is non-negative and is zero exactly at (0, 0, 0) |
| `HexLaws.LengthSubSelf` | ShieldHexLib/Hex.cs:72-90 | `a - a` is (0, 0, 0) and its length is zero |
| `HexLaws.ScaledLength` | ShieldHexLib/Hex.cs:87-90 | a hex whose absolute components are c >= 0 times those of another has c times its length |
| `HexLaws.LengthMul` | ShieldHexLib/Hex.cs:77-90 | scaling by k, on either side, multiplies the length by abs(k) |
| `HexLaws.LengthHalfSum` | ShieldHexLib/Hex.cs:62-90 | on a valid hex, twice the length equals abs(Q) + abs(R) + abs(S) |
| `HexLaws.Examples` | ShieldHexLib/Hex.cs:15-90 | worked values: (1,2,-3)+(0,2,-2) = (1,4,-5), (1,2,-3)-(0,2,-2) = (1,0,-1), (1,2,-3)*2 = 2*(1,2,-3) = (2,4,-6), the two-component constructor on (-1,-2) gives S = 3, the length of (1,2,-3) is 3, and index 3 or -1 is out of range |

## Left out

- Add: C# `int` addition wraps around silently on 32-bit overflow; the model uses unbounded integers.
- Sub: 32-bit wrap-around on overflow is not modelled; the model uses unbounded integers.
- Mul: 32-bit wrap-around on overflow is not modelled; the model uses unbounded integers.
- MulLeft: 32-bit wrap-around on overflow is not modelled; the model uses unbounded integers.
- IsValid: the sum Q + R + S wraps around on 32-bit overflow in C#, so a triple such as (int.MaxValue, int.MaxValue, 2) is valid there; the model sums unbounded integers and calls it invalid.
- Axial: the derived S = -Q - R wraps around on 32-bit overflow in C# (two components (int.MinValue, 0) give S = int.MinValue); the model gives the unbounded value 2^31.
- Length: `Math.Abs` throws an overflow exception on the most negative 32-bit integer; the model has no such case because its integers are unbounded.
- The enumerator is lazy and restartable in C#; the model gives the finished sequence, which yields the same values in the same order.
- Hashing and the `ValueObject` base class (ShieldHexLib.Vendor) are not part of this model; structural equality is modelled by comparing the component sequences, and it coincides with Dafny's datatype equality.
- `HexF` (ShieldHexLib/HexF.cs) is not part of this model: its components and its tolerance-based validity test are floating point.
- `Orientation` (ShieldHexLib/Orientation.cs) is not part of this model: it holds floating-point matrices and inverts one through a library call.
- `Layout` (ShieldHexLib/Layout.cs) is not part of this model: it only stores an orientation, a size and an origin, all floating point.
- Directions, neighbours, hex-to-hex distance, corners and rounding from `HexF` are not defined in ShieldHexLib/Hex.cs, so they are not modelled.
- ShieldHexTests/HexTest.cs targets an older `Hex` with floating-point constructors, `Qf`/`Rf`/`Sf` and `IsFractional`, none of which exist in ShieldHexLib/Hex.cs; only its integer cases are reflected, in `HexLaws.Examples`.
- ShieldHexTests/HexFTest.cs tests `HexF`, and ShieldHexTests/OrientationTest.cs tests `Orientation`; both types are left out above.
- ShieldHexTests/LayoutTest.cs tests `Layout` together with `HexToScreen`/`ScreenToHex`, which ShieldHexLib/Layout.cs does not define; none of it is modelled.
