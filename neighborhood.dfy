/**
 * The 26-connected neighbourhood of a voxel, as a constant table of 26
 * coordinate triples built from the coordinates of a centre point.
 *
 * Besides the table itself the module gives an independent description of
 * its entries: every offset in {-1,0,1}^3 has a base-3 code
 * (dx+1) + 3*(dy+1) + 9*(dz+1) in [0, 27), the origin has code 13, and entry
 * k of the table is the offset whose code is k for k < 13 and k + 1 after.
 */
module Neighborhood {
  import opened Coordinates

  /** The 26-entry neighbour table of `p`, in the order the table lists them. */
  function Neighbors26(p: Coords): (n: seq<Coords>)
    ensures |n| == 26
  {
    var x, y, z := Get(p, X), Get(p, Y), Get(p, Z);
    [ Coords(x - 1, y - 1, z - 1),
      Coords(x    , y - 1, z - 1),
      Coords(x + 1, y - 1, z - 1),
      Coords(x - 1, y    , z - 1),
      Coords(x    , y    , z - 1),
      Coords(x + 1, y    , z - 1),
      Coords(x - 1, y + 1, z - 1),
      Coords(x    , y + 1, z - 1),
      Coords(x + 1, y + 1, z - 1),
      Coords(x - 1, y - 1, z    ),
      Coords(x    , y - 1, z    ),
      Coords(x + 1, y - 1, z    ),
      Coords(x - 1, y    , z    ),
      Coords(x + 1, y    , z    ),
      Coords(x - 1, y + 1, z    ),
      Coords(x    , y + 1, z    ),
      Coords(x + 1, y + 1, z    ),
      Coords(x - 1, y - 1, z + 1),
      Coords(x    , y - 1, z + 1),
      Coords(x + 1, y - 1, z + 1),
      Coords(x - 1, y    , z + 1),
      Coords(x    , y    , z + 1),
      Coords(x + 1, y    , z + 1),
      Coords(x - 1, y + 1, z + 1),
      Coords(x    , y + 1, z + 1),
      Coords(x + 1, y + 1, z + 1) ]
  }

  /**
   * The table built around a coordinate object: the centre's components are
   * read through the accessor, and the result is the neighbourhood of the
   * triple the object holds.
   */
  function Table(c: Coords3D): (n: seq<Coords>)
    reads c, c.coords
    requires c.Valid()
    ensures n == Neighbors26(c.Value())
    ensures forall q :: q in n <==> Adjacent26(c.Value(), q)
  {
    Neighbors26Exactly(c.Value());
    Neighbors26(Coords(c.At(X), c.At(Y), c.At(Z)))
  }

  // ---------------------------------------------------------------------
  // Reference description of the neighbourhood
  // ---------------------------------------------------------------------

  const Origin: Coords := Coords(0, 0, 0)

  /** An offset of at most one step along every axis. */
  predicate IsUnitOffset(d: Coords) {
    -1 <= d.x <= 1 && -1 <= d.y <= 1 && -1 <= d.z <= 1
  }

  /** `q` is a 26-connected neighbour of `p`: a different voxel at most one step away on each axis. */
  predicate Adjacent26(p: Coords, q: Coords) {
    q != p && IsUnitOffset(Sub(q, p))
  }

  /** Lexicographic order on offsets, Z most significant, then Y, then X. */
  predicate LexLess(d: Coords, e: Coords) {
    d.z < e.z || (d.z == e.z && (d.y < e.y || (d.y == e.y && d.x < e.x)))
  }

  /** The base-3 code of a unit offset. */
  function Encode(d: Coords): int
    requires IsUnitOffset(d)
  {
    (d.x + 1) + 3 * (d.y + 1) + 9 * (d.z + 1)
  }

  /** The unit offset whose code is `code`. */
  function CubeOffset(code: int): (d: Coords)
    requires 0 <= code < 27
    ensures IsUnitOffset(d) && Encode(d) == code
  {
    var c := if code < 9 then 0 else if code < 18 then 1 else 2;
    var rest := code - 9 * c;
    var b := if rest < 3 then 0 else if rest < 6 then 1 else 2;
    var a := rest - 3 * b;
    Coords(a - 1, b - 1, c - 1)
  }

  /** The code of table entry `k`: the codes 0..26 in order, with 13 (the origin) skipped. */
  function EntryCode(k: int): (code: int)
    requires 0 <= k < 26
    ensures 0 <= code < 27 && code != 13
  {
    if k < 13 then k else k + 1
  }

  /** The offset of table entry `k` from the centre point. */
  function Offset(k: int): Coords
    requires 0 <= k < 26
  {
    CubeOffset(EntryCode(k))
  }

  /** Distinct unit offsets have distinct codes. */
  lemma EncodeInjective(d: Coords, e: Coords)
    requires IsUnitOffset(d) && IsUnitOffset(e)
    ensures Encode(d) == Encode(e) <==> d == e
  {
  }

  lemma CubeOffsetOfEncode(d: Coords)
    requires IsUnitOffset(d)
    ensures 0 <= Encode(d) < 27
    ensures CubeOffset(Encode(d)) == d
  {
    EncodeInjective(CubeOffset(Encode(d)), d);
  }

  /** On unit offsets, the code order is the lexicographic (Z, Y, X) order. */
  lemma EncodeMonotone(d: Coords, e: Coords)
    requires IsUnitOffset(d) && IsUnitOffset(e)
    ensures Encode(d) < Encode(e) <==> LexLess(d, e)
  {
  }

  /** Negating an offset mirrors its code about the origin's code 13. */
  lemma EncodeNeg(d: Coords)
    requires IsUnitOffset(d)
    ensures IsUnitOffset(Neg(d)) && Encode(Neg(d)) == 26 - Encode(d)
  {
  }

  // ---------------------------------------------------------------------
  // Properties of the table
  // ---------------------------------------------------------------------

  /** Entry `k` of the table is the centre moved by the k-th offset. */
  lemma Neighbors26Entry(p: Coords, k: int)
    requires 0 <= k < 26
    ensures Neighbors26(p)[k] == Add(p, Offset(k))
  {
    var n := Neighbors26(p);
    assert k == 0 || k == 1 || k == 2 || k == 3 || k == 4 || k == 5 || k == 6 ||
           k == 7 || k == 8 || k == 9 || k == 10 || k == 11 || k == 12 || k == 13 ||
           k == 14 || k == 15 || k == 16 || k == 17 || k == 18 || k == 19 || k == 20 ||
           k == 21 || k == 22 || k == 23 || k == 24 || k == 25;
  }

  /** Every entry is a 26-connected neighbour of the centre: within one step on each axis, and not the centre itself. */
  lemma Neighbors26Adjacent(p: Coords, k: int)
    requires 0 <= k < 26
    ensures Adjacent26(p, Neighbors26(p)[k])
  {
    Neighbors26Entry(p, k);
    var d := Offset(k);
    assert Sub(Neighbors26(p)[k], p) == d;
    EncodeInjective(d, Origin);
  }

  /** No two entries of the table are the same voxel. */
  lemma Neighbors26Distinct(p: Coords, i: int, j: int)
    requires 0 <= i < 26 && 0 <= j < 26 && i != j
    ensures Neighbors26(p)[i] != Neighbors26(p)[j]
  {
    Neighbors26Entry(p, i);
    Neighbors26Entry(p, j);
    assert Encode(Offset(i)) != Encode(Offset(j));
  }

  /** Every 26-connected neighbour of the centre appears in the table. */
  lemma Neighbors26Complete(p: Coords, q: Coords)
    requires Adjacent26(p, q)
    ensures q in Neighbors26(p)
  {
    var d := Sub(q, p);
    CubeOffsetOfEncode(d);
    EncodeInjective(d, Origin);
    var code := Encode(d);
    var k := if code < 13 then code else code - 1;
    assert EntryCode(k) == code;
    Neighbors26Entry(p, k);
    assert Neighbors26(p)[k] == q;
  }

  /** The table holds exactly the 26-connected neighbours of the centre. */
  lemma Neighbors26Exactly(p: Coords)
    ensures forall q :: q in Neighbors26(p) <==> Adjacent26(p, q)
  {
    forall q
      ensures q in Neighbors26(p) <==> Adjacent26(p, q)
    {
      if q in Neighbors26(p) {
        var k :| 0 <= k < 26 && Neighbors26(p)[k] == q;
        Neighbors26Adjacent(p, k);
      }
      if Adjacent26(p, q) {
        Neighbors26Complete(p, q);
      }
    }
  }

  /** Entries are in strictly increasing lexicographic order of their offsets (dz, dy, dx). */
  lemma Neighbors26Ordered(p: Coords, i: int, j: int)
    requires 0 <= i < j < 26
    ensures LexLess(Sub(Neighbors26(p)[i], p), Sub(Neighbors26(p)[j], p))
  {
    Neighbors26Entry(p, i);
    Neighbors26Entry(p, j);
    assert Sub(Neighbors26(p)[i], p) == Offset(i);
    assert Sub(Neighbors26(p)[j], p) == Offset(j);
    EncodeMonotone(Offset(i), Offset(j));
  }

  /** The offsets of entries `k` and `25 - k` are opposite. */
  lemma OffsetMirror(k: int)
    requires 0 <= k < 26
    ensures Offset(25 - k) == Neg(Offset(k))
  {
    var d := Offset(k);
    assert EntryCode(25 - k) == 26 - EntryCode(k);
    EncodeNeg(d);
    CubeOffsetOfEncode(Neg(d));
  }

  /** Entry `25 - k` is entry `k` reflected through the centre. */
  lemma Neighbors26Mirror(p: Coords, k: int)
    requires 0 <= k < 26
    ensures Sub(Neighbors26(p)[25 - k], p) == Neg(Sub(Neighbors26(p)[k], p))
  {
    Neighbors26Entry(p, k);
    Neighbors26Entry(p, 25 - k);
    OffsetMirror(k);
  }

  /** Neighbourhood is symmetric: `q` is in the table of `p` exactly when `p` is in the table of `q`. */
  lemma Neighbors26Symmetric(p: Coords, q: Coords)
    ensures q in Neighbors26(p) <==> p in Neighbors26(q)
  {
    Neighbors26Exactly(p);
    Neighbors26Exactly(q);
    assert Adjacent26(p, q) <==> Adjacent26(q, p);
  }
}
