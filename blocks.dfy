/** Block coordinate space of the fixed-LOD terrain: block edge lengths that are
    powers of two, conversion between voxel and block coordinates, and the
    integer boxes (Box3i) that viewers use to describe the blocks they need. */
module Blocks {

  /** An integer 3D vector (Vector3i): a voxel or a block position. */
  datatype Vec3 = Vec3(x: int, y: int, z: int)

  /** 2 to the power n, over unbounded integers. */
  function Pow2(n: nat): (r: nat)
    ensures r >= 1
  {
    if n == 0 then 1 else 2 * Pow2(n - 1)
  }

  /** n is 1, 2, 4, 8, ... */
  predicate IsPowerOfTwo(n: nat)
    decreases n
  {
    n == 1 || (n >= 2 && n % 2 == 0 && IsPowerOfTwo(n / 2))
  }

  lemma {:induction false} Pow2IsPowerOfTwo(n: nat)
    ensures IsPowerOfTwo(Pow2(n))
  {
    if n > 0 {
      Pow2IsPowerOfTwo(n - 1);
      assert Pow2(n) / 2 == Pow2(n - 1);
    }
  }

  lemma {:induction false} Pow2Injective(a: nat, b: nat)
    requires Pow2(a) == Pow2(b)
    ensures a == b
  {
    if a > 0 && b > 0 {
      Pow2Injective(a - 1, b - 1);
    }
  }

  /** The number of values of a 32-bit integer: the modulus in which the
      block size getters' `unsigned int` result is read. */
  const Word: nat := 0x1_0000_0000

  /** `x << n` on 32 bits, read back as an unsigned value: every step
      doubles the value and drops the bit shifted out at the top. */
  function ShiftLeft32(x: nat, n: nat): (r: nat)
    ensures r < Word
    decreases n
  {
    if n == 0 then x % Word else ShiftLeft32((2 * x) % Word, n - 1)
  }

  /** `1 << pow2` as the block size getters compute it. The literal `1` is
      a signed `int`, so for pow2 up to 30 the shift is 2^pow2. At pow2 = 31
      the value 2^31 does not fit: C++11 as first published left that
      undefined; from C++14 on it is converted to `int` (implementation-
      defined, INT_MIN on two's-complement targets and in C++20), and the
      `unsigned int` return type reads INT_MIN as 2^31. Both cases are 2^pow2
      taken modulo 2^32. */
  function BlockSize(pow2: nat): (size: nat)
    requires pow2 < 32
    ensures size == Pow2(pow2)
    ensures 0 < size < Word
  {
    ShiftPow2(0, pow2);
    ShiftLeft32(1, pow2)
  }

  lemma Pow2Width()
    ensures Pow2(32) == Word
  {
    assert Pow2(8) == 0x100;
    assert Pow2(16) == 0x1_0000;
    assert Pow2(24) == 0x100_0000;
  }

  lemma {:induction false} Pow2Monotone(a: nat, b: nat)
    requires a <= b
    ensures Pow2(a) <= Pow2(b)
    decreases b
  {
    if a < b {
      Pow2Monotone(a, b - 1);
    }
  }

  lemma Pow2BelowWord(n: nat)
    requires n < 32
    ensures Pow2(n) < Word
  {
    Pow2Monotone(n, 31);
    Pow2Width();
  }

  /** Shifting 2^k left by n more bits gives 2^(k+n) while that fits. */
  lemma {:induction false} ShiftPow2(k: nat, n: nat)
    requires k + n < 32
    ensures ShiftLeft32(Pow2(k), n) == Pow2(k + n)
    decreases n
  {
    if n == 0 {
      Pow2BelowWord(k);
    } else {
      Pow2BelowWord(k + 1);
      assert (2 * Pow2(k)) % Word == Pow2(k + 1);
      ShiftPow2(k + 1, n - 1);
    }
  }

  /** Each block size is a positive power of two, and distinct exponents give
      distinct sizes, so the exponent can be recovered from the size. */
  lemma BlockSizeIsPowerOfTwo(pow2: nat)
    requires pow2 < 32
    ensures IsPowerOfTwo(BlockSize(pow2))
    ensures forall other: nat :: other < 32 && BlockSize(other) == BlockSize(pow2) ==> other == pow2
  {
    Pow2IsPowerOfTwo(pow2);
    forall other: nat | other < 32 && BlockSize(other) == BlockSize(pow2)
      ensures other == pow2
    {
      Pow2Injective(other, pow2);
    }
  }

  /** One coordinate shifted right by pow2 (arithmetic shift, which rounds
      towards minus infinity; Dafny's `/` by a positive divisor does the same). */
  function CoordToBlock(v: int, pow2: nat): (b: int)
    requires pow2 < 32
    ensures b * BlockSize(pow2) <= v < b * BlockSize(pow2) + BlockSize(pow2)
  {
    DivFloor(v, v / BlockSize(pow2), BlockSize(pow2));
    v / BlockSize(pow2)
  }

  /** One coordinate shifted left by pow2: a multiple of the block size. */
  function CoordToVoxel(b: int, pow2: nat): (v: int)
    requires pow2 < 32
    ensures v % BlockSize(pow2) == 0
  {
    var n := BlockSize(pow2);
    DivFloor(b * n, b, n);
    assert b * n == (b * n) / n * n + (b * n) % n;
    b * n
  }

  /** Voxel position to the position of the block that contains it. */
  function VoxelToBlock(v: Vec3, pow2: nat): (b: Vec3)
    requires pow2 < 32
    ensures var o, n := BlockToVoxel(b, pow2), BlockSize(pow2);
      && o.x <= v.x < o.x + n
      && o.y <= v.y < o.y + n
      && o.z <= v.z < o.z + n
  {
    Vec3(CoordToBlock(v.x, pow2), CoordToBlock(v.y, pow2), CoordToBlock(v.z, pow2))
  }

  /** Block position to the voxel position of its origin corner, which is
      aligned to the block size on every axis. */
  function BlockToVoxel(b: Vec3, pow2: nat): (v: Vec3)
    requires pow2 < 32
    ensures var n := BlockSize(pow2); v.x % n == 0 && v.y % n == 0 && v.z % n == 0
  {
    Vec3(CoordToVoxel(b.x, pow2), CoordToVoxel(b.y, pow2), CoordToVoxel(b.z, pow2))
  }

  lemma CoordRoundTrip(b: int, pow2: nat)
    requires pow2 < 32
    ensures CoordToBlock(CoordToVoxel(b, pow2), pow2) == b
  {
    DivFloor(b * BlockSize(pow2), b, BlockSize(pow2));
  }

  /** A voxel coordinate lies in block b exactly when it is between the
      block's origin and the next block's origin. */
  lemma CoordContainment(v: int, b: int, pow2: nat)
    requires pow2 < 32
    ensures CoordToBlock(v, pow2) == b <==>
            CoordToVoxel(b, pow2) <= v < CoordToVoxel(b, pow2) + BlockSize(pow2)
  {
    DivFloor(v, b, BlockSize(pow2));
  }

  lemma MulMonotone(a: int, c: int, n: nat)
    requires a <= c
    ensures a * n <= c * n
  {
  }

  /** Floor division by a positive n picks the unique b with b*n <= v < (b+1)*n. */
  lemma DivFloor(v: int, b: int, n: int)
    requires n > 0
    ensures v / n == b <==> b * n <= v < b * n + n
  {
    var q, r := v / n, v % n;
    assert v == q * n + r && 0 <= r < n;
    if q < b {
      MulMonotone(q + 1, b, n);
      assert (q + 1) * n == q * n + n;
    } else if q > b {
      MulMonotone(b + 1, q, n);
      assert (b + 1) * n == b * n + n;
    }
  }

  /** Converting a block position to voxels and back gives the same block. */
  lemma BlockRoundTrip(b: Vec3, pow2: nat)
    requires pow2 < 32
    ensures VoxelToBlock(BlockToVoxel(b, pow2), pow2) == b
  {
    CoordRoundTrip(b.x, pow2);
    CoordRoundTrip(b.y, pow2);
    CoordRoundTrip(b.z, pow2);
  }

  /** Block-space and voxel-space containment agree. */
  lemma BlockContainment(v: Vec3, b: Vec3, pow2: nat)
    requires pow2 < 32
    ensures VoxelToBlock(v, pow2) == b <==>
            Box(BlockToVoxel(b, pow2), Vec3(BlockSize(pow2), BlockSize(pow2), BlockSize(pow2))).Contains(v)
  {
    CoordContainment(v.x, b.x, pow2);
    CoordContainment(v.y, b.y, pow2);
    CoordContainment(v.z, b.z, pow2);
  }

  /** An axis-aligned integer box (Box3i): an origin and a size. A size
      component that is zero or negative makes the box empty. */
  datatype Box = Box(pos: Vec3, size: Vec3) {
    predicate Contains(p: Vec3) {
      && pos.x <= p.x < pos.x + size.x
      && pos.y <= p.y < pos.y + size.y
      && pos.z <= p.z < pos.z + size.z
    }
  }

  predicate Distinct<T(==)>(s: seq<T>) {
    forall i, j :: 0 <= i < j < |s| ==> s[i] != s[j]
  }

  lemma DistinctPrefix<T>(s: seq<T>, n: nat)
    requires n <= |s|
    ensures Distinct(s) ==> Distinct(s[..n])
  {
    if Distinct(s) {
      forall i, j | 0 <= i < j < n ensures s[..n][i] != s[..n][j] {
        assert s[..n][i] == s[i] && s[..n][j] == s[j];
      }
    }
  }

  lemma DistinctAppend<T>(a: seq<T>, b: seq<T>)
    requires Distinct(a) && Distinct(b)
    requires forall x :: x in a ==> x !in b
    ensures Distinct(a + b)
  {
    forall i, j | 0 <= i < j < |a + b|
      ensures (a + b)[i] != (a + b)[j]
    {
      if j >= |a| && i < |a| {
        assert (a + b)[i] in a && (a + b)[j] in b;
      }
    }
  }

  /** The cells (x0 .. x0+n-1, y, z), in increasing x. */
  function Row(x0: int, n: int, y: int, z: int): (r: seq<Vec3>)
    decreases n
  {
    if n <= 0 then [] else Row(x0, n - 1, y, z) + [Vec3(x0 + n - 1, y, z)]
  }

  lemma {:induction false} RowCells(x0: int, n: int, y: int, z: int)
    ensures forall p :: p in Row(x0, n, y, z) <==> p.y == y && p.z == z && x0 <= p.x < x0 + n
    ensures Distinct(Row(x0, n, y, z))
    decreases n
  {
    if n > 0 {
      RowCells(x0, n - 1, y, z);
      DistinctAppend(Row(x0, n - 1, y, z), [Vec3(x0 + n - 1, y, z)]);
    }
  }

  /** The first ny rows of the slice of box b at height z. */
  function Layer(b: Box, ny: int, z: int): seq<Vec3>
    decreases ny
  {
    if ny <= 0 then [] else Layer(b, ny - 1, z) + Row(b.pos.x, b.size.x, b.pos.y + ny - 1, z)
  }

  lemma {:induction false} LayerCells(b: Box, ny: int, z: int)
    ensures forall p :: p in Layer(b, ny, z) <==>
      p.z == z && b.pos.y <= p.y < b.pos.y + ny && b.pos.x <= p.x < b.pos.x + b.size.x
    ensures Distinct(Layer(b, ny, z))
    decreases ny
  {
    if ny > 0 {
      LayerCells(b, ny - 1, z);
      RowCells(b.pos.x, b.size.x, b.pos.y + ny - 1, z);
      DistinctAppend(Layer(b, ny - 1, z), Row(b.pos.x, b.size.x, b.pos.y + ny - 1, z));
    }
  }

  /** The first nz layers of box b. */
  function Slab(b: Box, nz: int): seq<Vec3>
    decreases nz
  {
    if nz <= 0 then [] else Slab(b, nz - 1) + Layer(b, b.size.y, b.pos.z + nz - 1)
  }

  lemma {:induction false} SlabCells(b: Box, nz: int)
    ensures forall p :: p in Slab(b, nz) <==>
      b.pos.z <= p.z < b.pos.z + nz && b.pos.y <= p.y < b.pos.y + b.size.y && b.pos.x <= p.x < b.pos.x + b.size.x
    ensures Distinct(Slab(b, nz))
    decreases nz
  {
    if nz > 0 {
      SlabCells(b, nz - 1);
      LayerCells(b, b.size.y, b.pos.z + nz - 1);
      DistinctAppend(Slab(b, nz - 1), Layer(b, b.size.y, b.pos.z + nz - 1));
    }
  }

  /** Every cell of a box once (Box3i::for_each_cell). */
  function Cells(b: Box): (cells: seq<Vec3>)
    ensures forall p :: p in cells <==> b.Contains(p)
    ensures Distinct(cells)
  {
    SlabCells(b, b.size.z);
    Slab(b, b.size.z)
  }

  /** The cells of `cells` that lie outside box b, in their order. */
  function Outside(cells: seq<Vec3>, b: Box): (r: seq<Vec3>)
    ensures forall p :: p in r <==> p in cells && !b.Contains(p)
    ensures Distinct(cells) ==> Distinct(r)
  {
    if cells == [] then []
    else
      var rest := Outside(cells[..|cells| - 1], b);
      var last := cells[|cells| - 1];
      assert cells == cells[..|cells| - 1] + [last];
      var r := if b.Contains(last) then rest else rest + [last];
      DistinctPrefix(cells, |cells| - 1);
      assert Distinct(cells) && !b.Contains(last) ==> last !in rest;
      assert !b.Contains(last) && Distinct(cells) ==> Distinct(rest + [last]) by {
        if !b.Contains(last) && Distinct(cells) { DistinctAppend(rest, [last]); }
      }
      r
  }

  lemma {:induction false} OutsideOfCover(cells: seq<Vec3>, b: Box)
    requires forall p :: p in cells ==> b.Contains(p)
    ensures Outside(cells, b) == []
  {
    if cells != [] {
      OutsideOfCover(cells[..|cells| - 1], b);
    }
  }

  /** Cells that a viewer stops needing when its box moves from prev to next
      (prev minus next). */
  function LeavingCells(prev: Box, next: Box): seq<Vec3> {
    Outside(Cells(prev), next)
  }

  /** Cells that a viewer starts needing when its box moves from prev to next
      (next minus prev). */
  function EnteringCells(prev: Box, next: Box): seq<Vec3> {
    Outside(Cells(next), prev)
  }

  /** The box diff: each cell that leaves is listed once, each cell that enters
      is listed once, no cell both leaves and enters, and an unchanged box
      produces no change at all. */
  lemma BoxDiff(prev: Box, next: Box)
    ensures forall p :: p in LeavingCells(prev, next) <==> prev.Contains(p) && !next.Contains(p)
    ensures forall p :: p in EnteringCells(prev, next) <==> next.Contains(p) && !prev.Contains(p)
    ensures Distinct(LeavingCells(prev, next)) && Distinct(EnteringCells(prev, next))
    ensures Distinct(LeavingCells(prev, next) + EnteringCells(prev, next))
    ensures prev == next ==> LeavingCells(prev, next) == [] && EnteringCells(prev, next) == []
  {
    var l, e := LeavingCells(prev, next), EnteringCells(prev, next);
    DistinctAppend(l, e);
    if prev == next {
      OutsideOfCover(Cells(prev), next);
    }
  }
}
