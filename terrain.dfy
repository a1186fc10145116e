/** The island terrain mesh: a (resolution+1) x (resolution+1) vertex grid
    laid out row by row (z outer, x inner) over a square of side `size`
    centred on the origin, two triangles per grid cell, and per-vertex
    normals accumulated from the triangles' face normals. The height field
    and glm::normalize are given as functions, since they are trigonometry
    and floating point. */
module Terrains {
  import opened Geometry
  import Timeline

  /** Vertices per grid row; the vertex loops never run for a negative
      resolution. */
  function Side(res: int): nat {
    if res < 0 then 0 else res + 1
  }

  /** Cells per grid row. */
  function Cells(res: int): nat {
    if res < 0 then 0 else res
  }

  /** Position of vertex (x, z) in the row-major vertex buffers. */
  function VertexIndex(res: nat, x: nat, z: nat): nat {
    z * (res + 1) + x
  }

  /** Position of the j-th of the six indices cell (x, z) emits. */
  function Slot(res: nat, x: nat, z: nat, j: nat): nat {
    6 * (z * res + x) + j
  }

  /** The six indices cell (x, z) emits: triangles (i0, i2, i1) and
      (i1, i2, i3) over its corners i0 = (x, z), i1 = (x+1, z),
      i2 = (x, z+1), i3 = (x+1, z+1). */
  function CellTriangles(res: nat, x: nat, z: nat): (tri: seq<nat>)
    ensures |tri| == 6
  {
    var i0 := z * (res + 1) + x;
    var i1 := i0 + 1;
    var i2 := i0 + (res + 1);
    var i3 := i2 + 1;
    [i0, i2, i1, i1, i2, i3]
  }

  /** x / resolution, as a float division. */
  function Fraction(i: int, res: int): real
    requires res != 0
  {
    i as real / res as real
  }

  /** Vertex (x, z): world x and z from the grid fractions, scaled to
      [-size/2, size/2], and the height field's value there. */
  function GridVertex(res: int, size: real, height: (real, real) -> real, x: int, z: int): Vec3
    requires res != 0
  {
    var wx := (Fraction(x, res) - 0.5) * size;
    var wz := (Fraction(z, res) - 0.5) * size;
    Vec3(wx, height(wx, wz), wz)
  }

  /** The texture coordinate of vertex (x, z). */
  function GridUv(res: int, x: int, z: int): Vec2
    requires res != 0
  {
    Vec2(Fraction(x, res), Fraction(z, res))
  }

  /** The two triangles of a cell are the cell's four corners, each one a
      vertex of the grid. */
  lemma CellCorners(res: nat, x: nat, z: nat)
    requires x < res && z < res
    ensures var tri := CellTriangles(res, x, z);
      && tri[0] == VertexIndex(res, x, z)
      && tri[2] == VertexIndex(res, x + 1, z) && tri[3] == tri[2]
      && tri[1] == VertexIndex(res, x, z + 1) && tri[4] == tri[1]
      && tri[5] == VertexIndex(res, x + 1, z + 1)
      && forall j :: 0 <= j < 6 ==> tri[j] < Side(res) * Side(res)
  {
    VertexInGrid(res, x + 1, z + 1);
    VertexInGrid(res, x + 1, z);
    VertexInGrid(res, x, z + 1);
    VertexInGrid(res, x, z);
  }

  /** Every vertex of earlier rows comes before row z. */
  lemma RowsBefore(res: nat, x: nat, zz: nat, z: nat)
    requires zz < z && x <= res
    ensures VertexIndex(res, x, zz) < z * (res + 1)
  {
    var k := z - zz - 1;
    assert k * (res + 1) >= 0;
    assert z * (res + 1) == zz * (res + 1) + (res + 1) + k * (res + 1);
  }

  /** Every grid vertex lies inside the vertex buffers. */
  lemma VertexInGrid(res: nat, x: nat, z: nat)
    requires x <= res && z <= res
    ensures VertexIndex(res, x, z) < Side(res) * Side(res)
  {
    RowsBefore(res, x, z, res + 1);
  }

  /** Every cell of earlier rows comes before row z. */
  lemma CellsBefore(res: nat, x: nat, zz: nat, z: nat)
    requires zz < z && x < res
    ensures zz * res + x < z * res
  {
    var k := z - zz - 1;
    assert k * res >= 0;
    assert z * res == zz * res + res + k * res;
  }

  /** For a positive resolution the uvs lie in the unit square, from (0, 0)
      at the first vertex to (1, 1) at the last. */
  lemma UvInUnit(res: int, x: int, z: int)
    requires res > 0 && 0 <= x <= res && 0 <= z <= res
    ensures 0.0 <= GridUv(res, x, z).x <= 1.0 && 0.0 <= GridUv(res, x, z).y <= 1.0
    ensures GridUv(res, 0, 0) == Vec2(0.0, 0.0) && GridUv(res, res, res) == Vec2(1.0, 1.0)
  {
    if x > 0 {
      Timeline.FractionInUnit(x as real, res as real);
    }
    if z > 0 {
      Timeline.FractionInUnit(z as real, res as real);
    }
    WholeFraction(res);
  }

  lemma WholeFraction(res: int)
    requires res != 0
    ensures Fraction(res, res) == 1.0 && Fraction(0, res) == 0.0
  {
    var r := res as real;
    assert r != 0.0;
    assert r / r == 1.0;
  }

  /** The grid spans [-size/2, size/2] in x and z. */
  lemma GridSpan(res: int, size: real, height: (real, real) -> real)
    requires res != 0
    ensures GridVertex(res, size, height, 0, 0).x == -size / 2.0
    ensures GridVertex(res, size, height, 0, 0).z == -size / 2.0
    ensures GridVertex(res, size, height, res, res).x == size / 2.0
    ensures GridVertex(res, size, height, res, res).z == size / 2.0
  {
    WholeFraction(res);
  }

  // -------------------------------------------------------------- normals

  /** Every index names a position. */
  predicate IndicesIn(indices: seq<nat>, count: nat) {
    forall k :: 0 <= k < |indices| ==> indices[k] < count
  }

  /** The normalised face normal of triangle `tri`. */
  function FaceNormal(positions: seq<Vec3>, indices: seq<nat>, normalize: Vec3 -> Vec3, tri: nat): Vec3
    requires 3 * tri + 2 < |indices| && IndicesIn(indices, |positions|)
  {
    var p0 := positions[indices[3 * tri]];
    var p1 := positions[indices[3 * tri + 1]];
    var p2 := positions[indices[3 * tri + 2]];
    normalize(Cross(Sub(p1, p0), Sub(p2, p0)))
  }

  /** What triangle `tri` adds to vertex v's normal: its face normal once
      for each of its corners that is v. */
  function Share(indices: seq<nat>, tri: nat, v: nat, n: Vec3): Vec3
    requires 3 * tri + 2 < |indices|
  {
    var a := if indices[3 * tri] == v then n else Zero;
    var b := if indices[3 * tri + 1] == v then n else Zero;
    var c := if indices[3 * tri + 2] == v then n else Zero;
    Add(Add(a, b), c)
  }

  /** The sum of what the first `t` triangles add to vertex v. */
  function Accumulated(positions: seq<Vec3>, indices: seq<nat>, normalize: Vec3 -> Vec3, t: nat, v: nat): Vec3
    requires 3 * t <= |indices| && IndicesIn(indices, |positions|)
  {
    if t == 0 then Zero
    else
      var tri := t - 1;
      Add(Accumulated(positions, indices, normalize, tri, v),
          Share(indices, tri, v, FaceNormal(positions, indices, normalize, tri)))
  }

  /** A vertex no triangle uses gets nothing added to its normal. */
  lemma {:induction false} UnusedVertex(positions: seq<Vec3>, indices: seq<nat>, normalize: Vec3 -> Vec3, t: nat, v: nat)
    requires 3 * t <= |indices| && IndicesIn(indices, |positions|)
    requires forall k :: 0 <= k < 3 * t ==> indices[k] != v
    ensures Accumulated(positions, indices, normalize, t, v) == Zero
  {
    if t > 0 {
      UnusedVertex(positions, indices, normalize, t - 1, v);
      assert indices[3 * (t - 1)] != v && indices[3 * (t - 1) + 1] != v && indices[3 * (t - 1) + 2] != v;
    }
  }

  /** vector::resize(n, vec3(0)): the first entries are kept, new ones are
      zero. */
  function Resized(ns: seq<Vec3>, n: nat): seq<Vec3> {
    seq(n, v requires 0 <= v < n => if v < |ns| then ns[v] else Zero)
  }

  /** The vertices of rows 0 .. z-1 are in place: vertex (x, z') at
      position z'*(res+1) + x of both buffers. */
  ghost predicate RowsDone(res: int, size: real, height: (real, real) -> real, z: int, ps: seq<Vec3>, us: seq<Vec2>)
    requires res != 0
  {
    forall xx, zz :: 0 <= xx <= res && 0 <= zz < z ==>
      && VertexIndex(res, xx, zz) < |ps| && VertexIndex(res, xx, zz) < |us|
      && ps[VertexIndex(res, xx, zz)] == GridVertex(res, size, height, xx, zz)
      && us[VertexIndex(res, xx, zz)] == GridUv(res, xx, zz)
  }

  /** The vertex loop nest of generateGrid: z outer, x inner, from 0 to
      resolution inclusive. */
  method GridVertices(res: int, size: real, height: (real, real) -> real) returns (ps: seq<Vec3>, us: seq<Vec2>)
    requires res != 0
    ensures |ps| == Side(res) * Side(res) && |us| == |ps|
    ensures RowsDone(res, size, height, res + 1, ps, us)
  {
    ps, us := [], [];
    var z := 0;
    while z <= res
      invariant 0 <= z <= Side(res)
      invariant |ps| == z * Side(res) && |us| == |ps|
      invariant RowsDone(res, size, height, z, ps, us)
    {
      ps, us := AppendVertexRow(res, size, height, z, ps, us);
      z := z + 1;
    }
  }

  /** The inner loop for row z: pushes vertices (0, z) .. (resolution, z). */
  method AppendVertexRow(res: int, size: real, height: (real, real) -> real, z: nat, ps0: seq<Vec3>, us0: seq<Vec2>)
    returns (ps: seq<Vec3>, us: seq<Vec2>)
    requires res != 0 && 0 <= z <= res && |ps0| == z * (res + 1) && |us0| == |ps0|
    requires RowsDone(res, size, height, z, ps0, us0)
    ensures |ps| == (z + 1) * (res + 1) && |us| == |ps|
    ensures RowsDone(res, size, height, z + 1, ps, us)
  {
    var base := |ps0|;
    ps, us := ps0, us0;
    var x := 0;
    while x <= res
      invariant 0 <= x <= res + 1
      invariant |ps| == base + x && |us| == |ps|
      invariant ps[..base] == ps0 && us[..base] == us0
      invariant forall xx :: 0 <= xx < x ==>
        ps[base + xx] == GridVertex(res, size, height, xx, z) &&
        us[base + xx] == GridUv(res, xx, z)
    {
      ps := ps + [GridVertex(res, size, height, x, z)];
      us := us + [GridUv(res, x, z)];
      x := x + 1;
    }
    assert (z + 1) * (res + 1) == base + res + 1;
    forall xx, zz | 0 <= xx <= res && 0 <= zz < z + 1
      ensures VertexIndex(res, xx, zz) < |ps| && VertexIndex(res, xx, zz) < |us|
      ensures ps[VertexIndex(res, xx, zz)] == GridVertex(res, size, height, xx, zz)
      ensures us[VertexIndex(res, xx, zz)] == GridUv(res, xx, zz)
    {
      if zz < z {
        var k := VertexIndex(res, xx, zz);
        assert ps0[k] == ps[..base][k];
        assert us0[k] == us[..base][k];
      } else {
        assert VertexIndex(res, xx, zz) == base + xx;
      }
    }
  }

  /** The indices cells (0, z) .. (x-1, z) emit, in push order. */
  function CellRow(res: nat, z: nat, x: nat): seq<nat> {
    if x == 0 then [] else CellRow(res, z, x - 1) + CellTriangles(res, x - 1, z)
  }

  /** The indices rows 0 .. z-1 emit, in push order. */
  function CellRows(res: nat, z: nat): seq<nat> {
    if z == 0 then [] else CellRows(res, z - 1) + CellRow(res, z - 1, res)
  }

  /** Row z holds the six indices of each of its first x cells, in order. */
  lemma {:induction false} CellRowAt(res: nat, z: nat, x: nat)
    ensures |CellRow(res, z, x)| == 6 * x
    ensures forall xx, j :: 0 <= xx < x && 0 <= j < 6 ==>
      CellRow(res, z, x)[6 * xx + j] == CellTriangles(res, xx, z)[j]
  {
    if x > 0 {
      CellRowAt(res, z, x - 1);
    }
  }

  /** Rows 0 .. z-1 hold 6*z*res indices. */
  lemma {:induction false} CellRowsLength(res: nat, z: nat)
    ensures |CellRows(res, z)| == 6 * (z * res)
  {
    if z > 0 {
      CellRowsLength(res, z - 1);
      CellRowAt(res, z - 1, res);
      assert z * res == (z - 1) * res + res;
    }
  }

  /** Cell (x, z') of rows 0 .. z-1 has its j-th index at offset
      6*(z'*res + x) + j. */
  lemma {:induction false} CellRowsAtOne(res: nat, z: nat, x: nat, zz: nat, j: nat)
    requires x < res && zz < z && j < 6
    ensures Slot(res, x, zz, j) < |CellRows(res, z)|
    ensures CellRows(res, z)[Slot(res, x, zz, j)] == CellTriangles(res, x, zz)[j]
  {
    var prefix := CellRows(res, z - 1);
    var row := CellRow(res, z - 1, res);
    var k := Slot(res, x, zz, j);
    CellRowsLength(res, z - 1);
    CellRowAt(res, z - 1, res);
    if zz < z - 1 {
      CellRowsAtOne(res, z - 1, x, zz, j);
      assert (prefix + row)[k] == prefix[k];
    } else {
      assert k == |prefix| + 6 * x + j;
      assert (prefix + row)[k] == row[6 * x + j];
    }
  }

  /** Rows 0 .. z-1 hold 6*z*res indices, cell (x, z') at offset
      6*(z'*res + x). */
  lemma CellRowsAt(res: nat, z: nat)
    ensures |CellRows(res, z)| == 6 * (z * res)
    ensures forall xx: nat, zz: nat, j: nat :: xx < res && zz < z && j < 6 ==>
      Slot(res, xx, zz, j) < |CellRows(res, z)| &&
      CellRows(res, z)[Slot(res, xx, zz, j)] == CellTriangles(res, xx, zz)[j]
  {
    CellRowsLength(res, z);
    forall xx: nat, zz: nat, j: nat | xx < res && zz < z && j < 6
      ensures Slot(res, xx, zz, j) < |CellRows(res, z)| &&
        CellRows(res, z)[Slot(res, xx, zz, j)] == CellTriangles(res, xx, zz)[j]
    {
      CellRowsAtOne(res, z, xx, zz, j);
    }
  }

  /** Every index a grid emits names a grid vertex. */
  lemma {:induction false} CellRowsInGrid(res: nat, z: nat)
    requires z <= res
    ensures IndicesIn(CellRows(res, z), Side(res) * Side(res))
  {
    if z > 0 {
      CellRowsInGrid(res, z - 1);
      CellRowInGrid(res, z - 1, res);
    }
  }

  lemma {:induction false} CellRowInGrid(res: nat, z: nat, x: nat)
    requires z < res && x <= res
    ensures IndicesIn(CellRow(res, z, x), Side(res) * Side(res))
  {
    if x > 0 {
      CellRowInGrid(res, z, x - 1);
      CellCorners(res, x - 1, z);
    }
  }

  /** The index loop nest of generateGrid: z outer, x inner, from 0 to
      resolution - 1; nothing for a negative resolution. */
  method GridIndices(res: int) returns (idx: seq<nat>)
    ensures res < 0 ==> idx == []
    ensures res >= 0 ==> idx == CellRows(res, res)
  {
    idx := [];
    var z := 0;
    while z < res
      invariant 0 <= z <= Cells(res)
      invariant res >= 0 ==> idx == CellRows(res, z)
      invariant res < 0 ==> idx == []
    {
      idx := AppendCellRow(res, z, idx);
      z := z + 1;
    }
  }

  /** The inner index loop: the six indices of each cell of row z. */
  method AppendCellRow(res: nat, z: nat, idx0: seq<nat>) returns (idx: seq<nat>)
    ensures idx == idx0 + CellRow(res, z, res)
  {
    idx := idx0;
    var x := 0;
    while x < res
      invariant 0 <= x <= res
      invariant idx == idx0 + CellRow(res, z, x)
    {
      var i0 := z * (res + 1) + x;
      var i1 := i0 + 1;
      var i2 := i0 + (res + 1);
      var i3 := i2 + 1;
      assert [i0, i2, i1, i1, i2, i3] == CellTriangles(res, x, z);
      idx := idx + [i0, i2, i1, i1, i2, i3];
      x := x + 1;
    }
  }

  class Terrain {
    var resolution: int
    var size: real
    var maxHeight: real
    var positions: seq<Vec3>
    var normals: seq<Vec3>
    var uvs: seq<Vec2>
    var indices: seq<nat>

    /** Terrain(resolution, size, height): stores the parameters, builds
        the grid and computes its normals. `islandHeight` stands for the
        height field (which the source derives from size and height). */
    constructor(resolution: int, size: real, height: real,
                islandHeight: (real, real) -> real, normalize: Vec3 -> Vec3)
      requires resolution != 0
      ensures this.resolution == resolution && this.size == size && maxHeight == height
      ensures |positions| == Side(resolution) * Side(resolution) && |uvs| == |positions|
      ensures |indices| == 6 * (Cells(resolution) * Cells(resolution))
      ensures RowsDone(resolution, size, islandHeight, resolution + 1, positions, uvs)
      ensures forall x: nat, z: nat, j: nat :: x < resolution && z < resolution && j < 6 ==>
        Slot(resolution, x, z, j) < |indices| &&
        indices[Slot(resolution, x, z, j)] == CellTriangles(resolution, x, z)[j]
      ensures IndicesIn(indices, |positions|)
      ensures |normals| == |positions|
      ensures forall v :: 0 <= v < |positions| ==>
        normals[v] == normalize(Add(Zero, Accumulated(positions, indices, normalize, Triangles(indices), v)))
    {
      this.resolution := resolution;
      this.size := size;
      maxHeight := height;
      positions := [];
      normals := [];
      uvs := [];
      indices := [];
      new;
      GenerateGrid(islandHeight);
      assert |indices| == 3 * (2 * (Cells(resolution) * Cells(resolution)));
      assert normals == [];
      ComputeNormals(normalize);
      assert forall v :: 0 <= v < |positions| ==> Resized([], |positions|)[v] == Zero;
    }

    /** generateGrid(): replaces positions, uvs and indices by the grid.
        The buffers are built from empty, so a second call replaces rather
        than appends. */
    method GenerateGrid(islandHeight: (real, real) -> real)
      requires resolution != 0
      modifies this
      ensures resolution == old(resolution) && size == old(size) && maxHeight == old(maxHeight)
      ensures normals == old(normals)
      ensures |positions| == Side(resolution) * Side(resolution) && |uvs| == |positions|
      ensures RowsDone(resolution, size, islandHeight, resolution + 1, positions, uvs)
      ensures |indices| == 6 * (Cells(resolution) * Cells(resolution))
      ensures forall x: nat, z: nat, j: nat :: x < resolution && z < resolution && j < 6 ==>
        Slot(resolution, x, z, j) < |indices| &&
        indices[Slot(resolution, x, z, j)] == CellTriangles(resolution, x, z)[j]
      ensures IndicesIn(indices, |positions|)
    {
      // positions.clear(), uvs.clear() and indices.clear(), then the two
      // loop nests
      var ps, us := GridVertices(resolution, size, islandHeight);
      var idx := GridIndices(resolution);
      if resolution >= 0 {
        CellRowsAt(resolution, resolution);
        CellRowsInGrid(resolution, resolution);
        assert Cells(resolution) == resolution;
      }
      assert IndicesIn(idx, |ps|) && |idx| == 6 * (Cells(resolution) * Cells(resolution));
      positions := ps;
      uvs := us;
      indices := idx;
    }

    /** computeNormals(): resizes normals to one per position (keeping any
        earlier entries), adds every triangle's face normal to each of its
        corners, then normalises each entry. The source reads the indices
        three at a time, so their count must be a multiple of three, and
        every index must name a position. */
    method ComputeNormals(normalize: Vec3 -> Vec3)
      requires |indices| % 3 == 0 && IndicesIn(indices, |positions|)
      modifies this
      ensures resolution == old(resolution) && size == old(size) && maxHeight == old(maxHeight)
      ensures positions == old(positions) && uvs == old(uvs) && indices == old(indices)
      ensures |normals| == |positions|
      ensures forall v :: 0 <= v < |positions| ==>
        normals[v] == normalize(Add(Resized(old(normals), |positions|)[v],
                                    Accumulated(positions, indices, normalize, Triangles(indices), v)))
    {
      var ns := Resized(normals, |positions|);
      ns := AccumulateFaceNormals(positions, indices, normalize, ns);
      ns := NormalizeEach(ns, normalize);
      normals := ns;
    }
  }

  /** The number of whole triangles in an index buffer. */
  function Triangles(indices: seq<nat>): (t: nat)
    ensures 3 * t <= |indices| < 3 * t + 3
  {
    |indices| / 3
  }

  /** The normal buffer after the first `t` triangles have been added to
      the starting buffer ns0. */
  function Summed(positions: seq<Vec3>, indices: seq<nat>, normalize: Vec3 -> Vec3, ns0: seq<Vec3>, t: nat): (ns: seq<Vec3>)
    requires 3 * t <= |indices| && IndicesIn(indices, |positions|)
    ensures |ns| == |ns0|
  {
    seq(|ns0|, v requires 0 <= v < |ns0| => Add(ns0[v], Accumulated(positions, indices, normalize, t, v)))
  }

  /** The accumulation loop of computeNormals: for each triangle, its face
      normal is added to the entries of its three corners. */
  method AccumulateFaceNormals(positions: seq<Vec3>, indices: seq<nat>, normalize: Vec3 -> Vec3, ns0: seq<Vec3>)
    returns (ns: seq<Vec3>)
    requires |indices| % 3 == 0 && IndicesIn(indices, |positions|) && |ns0| == |positions|
    ensures |ns| == |ns0|
    ensures forall v :: 0 <= v < |ns| ==>
      ns[v] == Add(ns0[v], Accumulated(positions, indices, normalize, Triangles(indices), v))
  {
    ns := ns0;
    var i := 0;
    ghost var t: nat := 0;
    assert ns == Summed(positions, indices, normalize, ns0, 0);
    while i < |indices|
      invariant 0 <= i <= |indices| && i == 3 * t
      invariant ns == Summed(positions, indices, normalize, ns0, t)
    {
      assert i + 2 < |indices|;
      var i0 := indices[i];
      var i1 := indices[i + 1];
      var i2 := indices[i + 2];
      var n := normalize(Cross(Sub(positions[i1], positions[i0]), Sub(positions[i2], positions[i0])));
      assert n == FaceNormal(positions, indices, normalize, t);
      AccumulateStep(positions, indices, normalize, ns0, t);
      ns := AddAt(ns, i0, n);
      ns := AddAt(ns, i1, n);
      ns := AddAt(ns, i2, n);
      i := i + 3;
      t := t + 1;
    }
    assert t == Triangles(indices);
  }

  /** One pass of the accumulation loop turns the buffer after t triangles
      into the buffer after t + 1. */
  lemma AccumulateStep(positions: seq<Vec3>, indices: seq<nat>, normalize: Vec3 -> Vec3, ns0: seq<Vec3>, t: nat)
    requires 3 * t + 2 < |indices| && IndicesIn(indices, |positions|) && |ns0| == |positions|
    ensures var n := FaceNormal(positions, indices, normalize, t);
      var before := Summed(positions, indices, normalize, ns0, t);
      AddAt(AddAt(AddAt(before, indices[3 * t], n), indices[3 * t + 1], n), indices[3 * t + 2], n)
        == Summed(positions, indices, normalize, ns0, t + 1)
  {
    var n := FaceNormal(positions, indices, normalize, t);
    var i0, i1, i2 := indices[3 * t], indices[3 * t + 1], indices[3 * t + 2];
    var before := Summed(positions, indices, normalize, ns0, t);
    var after := AddAt(AddAt(AddAt(before, i0, n), i1, n), i2, n);
    var next := Summed(positions, indices, normalize, ns0, t + 1);
    forall v | 0 <= v < |after|
      ensures after[v] == next[v]
    {
      StepAt(positions, indices, normalize, ns0, t, v);
    }
  }

  /** AccumulateStep, seen from entry v. */
  lemma StepAt(positions: seq<Vec3>, indices: seq<nat>, normalize: Vec3 -> Vec3, ns0: seq<Vec3>, t: nat, v: nat)
    requires 3 * t + 2 < |indices| && IndicesIn(indices, |positions|) && |ns0| == |positions| && v < |ns0|
    ensures var n := FaceNormal(positions, indices, normalize, t);
      var before := Summed(positions, indices, normalize, ns0, t);
      AddAt(AddAt(AddAt(before, indices[3 * t], n), indices[3 * t + 1], n), indices[3 * t + 2], n)[v]
        == Summed(positions, indices, normalize, ns0, t + 1)[v]
  {
    var n := FaceNormal(positions, indices, normalize, t);
    var i0, i1, i2 := indices[3 * t], indices[3 * t + 1], indices[3 * t + 2];
    var before := Summed(positions, indices, normalize, ns0, t);
    var acc := Accumulated(positions, indices, normalize, t, v);
    var share := Share(indices, t, v, n);
    ThreeAdds(before, i0, i1, i2, n, v);
    assert share == Add(Add(if i0 == v then n else Zero, if i1 == v then n else Zero), if i2 == v then n else Zero);
    assert Accumulated(positions, indices, normalize, t + 1, v) == Add(acc, share);
    assert before[v] == Add(ns0[v], acc);
    AddAssoc(ns0[v], acc, share);
  }

  lemma AddAssoc(a: Vec3, b: Vec3, c: Vec3)
    ensures Add(Add(a, b), c) == Add(a, Add(b, c))
  {
  }

  /** The three `+=` of one triangle, seen from entry v. */
  lemma ThreeAdds(s0: seq<Vec3>, i0: nat, i1: nat, i2: nat, n: Vec3, v: nat)
    requires i0 < |s0| && i1 < |s0| && i2 < |s0| && v < |s0|
    ensures AddAt(AddAt(AddAt(s0, i0, n), i1, n), i2, n)[v] ==
      Add(s0[v], Add(Add(if i0 == v then n else Zero, if i1 == v then n else Zero), if i2 == v then n else Zero))
  {
  }

  /** normals[i] += n. */
  function AddAt(ns: seq<Vec3>, i: nat, n: Vec3): (r: seq<Vec3>)
    requires i < |ns|
    ensures |r| == |ns|
    ensures forall v :: 0 <= v < |ns| ==> r[v] == Add(ns[v], if v == i then n else Zero)
  {
    ns[i := Add(ns[i], n)]
  }

  /** The final loop of computeNormals: every entry is normalised in place. */
  method NormalizeEach(ns0: seq<Vec3>, normalize: Vec3 -> Vec3) returns (ns: seq<Vec3>)
    ensures |ns| == |ns0|
    ensures forall v :: 0 <= v < |ns| ==> ns[v] == normalize(ns0[v])
  {
    ns := ns0;
    var k := 0;
    while k < |ns|
      invariant 0 <= k <= |ns| == |ns0|
      invariant forall v :: 0 <= v < k ==> ns[v] == normalize(ns0[v])
      invariant forall v :: k <= v < |ns| ==> ns[v] == ns0[v]
    {
      ns := ns[k := normalize(ns[k])];
      k := k + 1;
    }
  }
}
