# BROCCOLI 3-D coordinates and the 26-neighbourhood table

BROCCOLI labels clusters of supra-threshold voxels in a brain volume using
26-connectivity: two voxels are connected when they differ by at most one
step along each of the three axes. The library header
`code/BROCCOLI_LIB/broccoli_lib.h` supplies the small amount of code this
rests on:

- the axis enumeration `X, Y, Z` (0, 1, 2);
- `Coords3D`, an integer 3-vector stored in a fixed `int coords_[3]`. It has
  a default constructor, an initialising constructor `Coords3D(x, y, z)`, a
  mutable `operator[]` that hands out a reference to one component, and a
  const `operator[]` that reads one;
- the macro `Neighbors3D26(n, p)`, which declares a constant 26-entry array
  `n` of `Coords3D`. Entry k is `p` moved by one offset in {-1,0,1}^3. The
  offsets are listed with Z slowest and X fastest, and the origin is left out.

This project models that code in Dafny and proves what it promises.

- `coordinates.dfy` (module `Coordinates`) holds the axis constants and the
  value type `Coords`. It also holds `Get`/`With` (read and replace one
  component of a value) and the class `Coords3D` over an `array<int>` of
  length 3, held in a `const` field so that an object keeps its own storage.
  The constructors write the array, `At` models the const
  `operator[]` and `Set` models a write through the mutable `operator[]`.
  The ghost function `Value()` gives the triple an object currently holds.
- `neighborhood.dfy` (module `Neighborhood`) holds the table
  `Neighbors26(p)`, written out entry by entry as in the macro. Beside it is
  an independent description of the neighbourhood:
  - `Adjacent26(p, q)`: `q != p` and `q - p` is in {-1,0,1}^3;
  - the base-3 code `(dx+1) + 3(dy+1) + 9(dz+1)` of a unit offset and its
    inverse `CubeOffset`;
  - `EntryCode(k)`, which skips the origin's code 13.

  The lemmas prove that the table is exactly this neighbourhood, without
  duplicates, in lexicographic (dz, dy, dx) order, mirror-symmetric, and
  that the neighbour relation it induces is symmetric.

The macro only reads `p`'s components through `operator[]`; for a
non-const `p` that is the mutable overload, used only to read. The entries
it builds are `const` objects. So the table is modelled as a sequence of
`Coords` values, and `Table(c)` builds it around a `Coords3D` object `c` by
reading the centre's three components through `At`.

## Model

| member | source | states |
|---|---|---|
| `Coordinates.AxisEnumeration` | code/BROCCOLI_LIB/broccoli_lib.h:43 | The axis enumeration numbers X, Y, Z as 0, 1, 2, and an index is an axis exactly when it is one of these three |
| `Coordinates.With` | code/BROCCOLI_LIB/broccoli_lib.h:62-63 | Replacing the component on axis i by v gives v on axis i and leaves the other two axes as they were |
| `Coordinates.Coords3D.Default` | code/BROCCOLI_LIB/broccoli_lib.h:51 | The default constructor allocates fresh three-component storage and promises nothing about its contents |
| `Coordinates.Coords3D.constructor` | code/BROCCOLI_LIB/broccoli_lib.h:54-59 | After `Coords3D(x, y, z)`, reading axis X gives x, axis Y gives y and axis Z gives z (X=0, Y=1, Z=2); the storage is fresh |
| `Coordinates.Coords3D.At` | code/BROCCOLI_LIB/broccoli_lib.h:66-67 | Const access returns the stored component of the requested axis; as a function it changes nothing |
| `Coordinates.Coords3D.Set` | code/BROCCOLI_LIB/broccoli_lib.h:62-63 | A write through the mutable accessor at axis i stores v there; the other two components are unchanged and only the coordinate array is modified |
| `Neighborhood.Neighbors26` | code/BROCCOLI_LIB/broccoli_lib.h:76-104 | The neighbour table has exactly 26 entries |
| `Neighborhood.Table` | code/BROCCOLI_LIB/broccoli_lib.h:76-104 | The table built around a coordinate object, reading its components through the accessor, is the table of the triple it holds, and contains a voxel exactly when that voxel is a 26-connected neighbour of it |
| `Neighborhood.CubeOffset` | code/BROCCOLI_LIB/broccoli_lib.h:78-103 | Every code in [0, 27) denotes a unit offset whose base-3 code (dx+1)+3(dy+1)+9(dz+1) is that code |
| `Neighborhood.EntryCode` | code/BROCCOLI_LIB/broccoli_lib.h:90-91 | The k-th table entry uses a code in [0, 27) other than 13, the origin's code, so the zero offset is skipped |
| `Neighborhood.CubeOffsetOfEncode` | code/BROCCOLI_LIB/broccoli_lib.h:78-103 | Every unit offset has a code in [0, 27), and decoding that code gives the offset back |
| `Neighborhood.Neighbors26Entry` | code/BROCCOLI_LIB/broccoli_lib.h:78-103 | Entry k of the table is the centre moved by the offset whose code is k (k < 13) or k + 1 (k >= 13) |
| `Neighborhood.Neighbors26Adjacent` | code/BROCCOLI_LIB/broccoli_lib.h:76-104 | Every entry differs from the centre by at most 1 on each axis and is not the centre itself |
| `Neighborhood.Neighbors26Distinct` | code/BROCCOLI_LIB/broccoli_lib.h:78-103 | Any two entries at different positions of the table are different voxels |
| `Neighborhood.Neighbors26Complete` | code/BROCCOLI_LIB/broccoli_lib.h:78-103 | Every voxel that is a 26-connected neighbour of the centre appears in the table |
| `Neighborhood.Neighbors26Exactly` | code/BROCCOLI_LIB/broccoli_lib.h:76-104 | A voxel is in the table if and only if it is a 26-connected neighbour of the centre |
| `Neighborhood.Neighbors26Ordered` | code/BROCCOLI_LIB/broccoli_lib.h:78-103 | For i < j, the offset of entry i precedes that of entry j lexicographically on (dz, dy, dx), each component ascending -1, 0, +1 |
| `Neighborhood.OffsetMirror` | code/BROCCOLI_LIB/broccoli_lib.h:78-103 | The offset listed at position 25 - k is the negation of the offset listed at position k |
| `Neighborhood.Neighbors26Mirror` | code/BROCCOLI_LIB/broccoli_lib.h:78-103 | The offset of entry 25 - k is the negation of the offset of entry k |
| `Neighborhood.Neighbors26Symmetric` | code/BROCCOLI_LIB/broccoli_lib.h:76-104 | q is in the table built around p exactly when p is in the table built around q |

## Left out

- Integer width: coordinates are unbounded integers. `p[X] - 1` at the most
  negative 32-bit `int`, or `p[X] + 1` at the largest, overflows in the
  original. Voxel coordinates never come near those values.
- Border voxels: like the macro, the table does not clamp. Entries of a voxel
  on the volume's border may lie outside the volume (a coordinate of -1, or
  one past the last index). Callers must test that themselves.
- `Coordinates.Coords3D.Set` models a write through the reference returned by
  the mutable `operator[]` as one store. A reference that the caller keeps and
  uses later, and aliasing between such references, are not modelled.
- Value semantics of `Coords3D`: in the original a `Coords3D` is copied by
  value through its implicit copy constructor and assignment. In the model an
  object is shared by reference, and copying is not modelled. Each
  constructor allocates fresh storage in a `const` field, so two objects never
  share their components.
- Out-of-range axis indices: `operator[]` does not check its index, and any
  index outside 0..2 is undefined behaviour in the original. The model
  requires an axis index.
- Everything else the header declares is not modelled: OpenCL contexts,
  programs, kernels, buffers and error-code fields; the setters and getters
  used by the GUI and wrappers; and the routines declared only by prototype.
  These include voxel indexing, cluster labelling, whitening, GLM fitting,
  permutation testing, p-values, registration, smoothing and ICA. Their
  bodies are in files that are not part of this model. Most of them are also
  floating-point numerics or calls into foreign libraries.
