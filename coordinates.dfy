/**
 * Integer 3-D voxel coordinates, as used by cluster labelling: the axis
 * names X, Y, Z, a value view of a coordinate triple, and the mutable
 * `Coords3D` object that stores its three components in a fixed array.
 */
module Coordinates {

  /** The axis enumeration: X, Y and Z index the three components, in order. */
  const X: int := 0
  const Y: int := 1
  const Z: int := 2

  predicate IsAxis(i: int) {
    X <= i <= Z
  }

  /** The enumeration numbers the axes 0, 1, 2 in the order X, Y, Z, and these are the only axes. */
  lemma AxisEnumeration()
    ensures X == 0 && Y == X + 1 && Z == Y + 1
    ensures forall i :: IsAxis(i) <==> (i == X || i == Y || i == Z)
  {
  }

  /** The value held by a coordinate object: one integer per axis. */
  datatype Coords = Coords(x: int, y: int, z: int)

  /** The component of `c` on axis `i`. */
  function Get(c: Coords, i: int): int
    requires IsAxis(i)
  {
    if i == X then c.x else if i == Y then c.y else c.z
  }

  /** `c` with the component on axis `i` replaced by `v`. */
  function With(c: Coords, i: int, v: int): (r: Coords)
    requires IsAxis(i)
    ensures Get(r, i) == v
    ensures forall j :: IsAxis(j) && j != i ==> Get(r, j) == Get(c, j)
  {
    if i == X then c.(x := v) else if i == Y then c.(y := v) else c.(z := v)
  }

  /** Componentwise sum, difference and negation of triples. */
  function Add(p: Coords, d: Coords): Coords {
    Coords(p.x + d.x, p.y + d.y, p.z + d.z)
  }

  function Sub(q: Coords, p: Coords): Coords {
    Coords(q.x - p.x, q.y - p.y, q.z - p.z)
  }

  function Neg(d: Coords): Coords {
    Coords(-d.x, -d.y, -d.z)
  }

  /** A 3-D coordinate object whose three components live in an array. */
  class Coords3D {
    const coords: array<int>

    ghost predicate Valid()
      reads this
    {
      coords.Length == 3
    }

    /** The triple currently stored, read axis by axis. */
    ghost function Value(): Coords
      reads this, coords
      requires Valid()
    {
      Coords(coords[X], coords[Y], coords[Z])
    }

    /** Default construction: the storage exists but its contents are unspecified. */
    constructor Default()
      ensures Valid() && fresh(coords)
    {
      coords := new int[3];
    }

    /** Initialising construction: component X is `x`, Y is `y`, Z is `z`. */
    constructor (x: int, y: int, z: int)
      ensures Valid() && fresh(coords)
      ensures At(X) == x && At(Y) == y && At(Z) == z
      ensures Value() == Coords(x, y, z)
    {
      coords := new int[3];
      new;
      coords[X] := x;
      coords[Y] := y;
      coords[Z] := z;
    }

    /** Read access to the component on axis `i`; reading changes nothing. */
    function At(i: int): (r: int)
      reads this, coords
      requires Valid() && IsAxis(i)
      ensures r == Get(Value(), i)
    {
      coords[i]
    }

    /** Write access through the component on axis `i`: only that component changes. */
    method Set(i: int, v: int)
      requires Valid() && IsAxis(i)
      modifies coords
      ensures Valid()
      ensures Value() == With(old(Value()), i, v)
      ensures At(i) == v
      ensures forall j :: IsAxis(j) && j != i ==> At(j) == old(At(j))
    {
      coords[i] := v;
    }
  }
}
