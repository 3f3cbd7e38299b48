/** The disjoint-triangle packer: it copies the base quad mesh, a row-major
    grid of (n+1)^2 vertex records held in four parallel arrays, into four
    flat dispatch arrays holding two triangles (six records) per grid quad,
    and then caps the number of triangles reported for each draw call.

    Records are opaque: V, C, N and T stand for the position, colour,
    normal and texture-coordinate record types. */
module DispatchPacker {
  import opened CTypes

  /** Offset, from the quad's lower-left base index, of the k-th record
      written for a quad in a grid whose rows hold n+1 records. */
  function CornerOffset(n: nat, k: nat): nat
    requires k < 6
  {
    [0, 1, n + 1, n + 1, 1, n + 2][k]
  }

  /** The base indices copied for quad (j, i): triangle 0 takes the
      lower-left, lower-right and upper-left records, triangle 1 the
      upper-left, lower-right and upper-right ones. */
  function QuadCorners(n: nat, j: nat, i: nat): (r: seq<nat>)
    ensures |r| == 6
  {
    var s := j * (n + 1) + i;
    [s, s + 1, s + n + 1, s + n + 1, s + 1, s + 1 + n + 1]
  }

  /** Base indices for the first i quads of row j, left to right. */
  function RowQuads(n: nat, j: nat, i: nat): (r: seq<nat>)
    ensures |r| == 6 * i
  {
    if i == 0 then [] else RowQuads(n, j, i - 1) + QuadCorners(n, j, i - 1)
  }

  /** Base indices for the first j rows of quads, bottom to top. */
  function MeshRows(n: nat, j: nat): (r: seq<nat>)
    ensures |r| == 6 * (n * j)
  {
    if j == 0 then [] else
      assert n * j == n * (j - 1) + n;
      MeshRows(n, j - 1) + RowQuads(n, j - 1, n)
  }

  /** For each dispatch position, the base index whose record lands there. */
  function DispatchIndices(n: nat): (r: seq<nat>)
    ensures |r| == 6 * (n * n)
  {
    MeshRows(n, n)
  }

  /** Closed form of the dispatch layout: position d belongs to quad
      q = d / 6, which sits in row q / n and column q % n. */
  function SourceIndex(n: nat, d: nat): nat
    requires 0 < n
  {
    var q := d / 6;
    (q / n) * (n + 1) + q % n + CornerOffset(n, d % 6)
  }

  lemma {:induction false} RowQuadsAt(n: nat, j: nat, m: nat, i: nat, k: nat)
    requires i < m && k < 6
    ensures RowQuads(n, j, m)[6 * i + k] == QuadCorners(n, j, i)[k]
    decreases m
  {
    if i < m - 1 {
      RowQuadsAt(n, j, m - 1, i, k);
    }
  }

  lemma {:induction false} MeshRowsAt(n: nat, m: nat, j: nat, p: nat)
    requires j < m && p < 6 * n
    ensures 6 * (n * j) + p < |MeshRows(n, m)|
    ensures MeshRows(n, m)[6 * (n * j) + p] == RowQuads(n, j, n)[p]
    decreases m
  {
    assert n * m == n * (m - 1) + n;
    if j < m - 1 {
      MeshRowsAt(n, m - 1, j, p);
    }
  }

  /** Quad (j, i) occupies dispatch positions 6(jn+i) .. 6(jn+i)+5, and
      the record at offset k within it comes from base index
      j(n+1) + i + CornerOffset(n, k). */
  lemma {:induction false} DispatchIndexAt(n: nat, j: nat, i: nat, k: nat)
    requires j < n && i < n && k < 6
    ensures |DispatchIndices(n)| == 6 * (n * n)
    ensures 6 * (j * n + i) + k < 6 * (n * n)
    ensures DispatchIndices(n)[6 * (j * n + i) + k] == j * (n + 1) + i + CornerOffset(n, k)
  {
    QuadInMesh(n, j, i);
    MeshRowsAt(n, n, j, 6 * i + k);
    RowQuadsAt(n, j, n, i, k);
    assert 6 * (j * n + i) + k == 6 * (n * j) + (6 * i + k);
  }

  /** The six dispatch positions of quad (j, i), as the packer writes them. */
  lemma QuadDispatch(n: nat, j: nat, i: nat, d: nat, s: nat)
    requires j < n && i < n
    requires d == 6 * (j * n + i) && s == j * (n + 1) + i
    ensures d + 6 <= |DispatchIndices(n)|
    ensures DispatchIndices(n)[d] == s && DispatchIndices(n)[d + 1] == s + 1
    ensures DispatchIndices(n)[d + 2] == s + n + 1 && DispatchIndices(n)[d + 3] == s + n + 1
    ensures DispatchIndices(n)[d + 4] == s + 1 && DispatchIndices(n)[d + 5] == s + 1 + n + 1
  {
    DispatchIndexAt(n, j, i, 0);
    DispatchIndexAt(n, j, i, 1);
    DispatchIndexAt(n, j, i, 2);
    DispatchIndexAt(n, j, i, 3);
    DispatchIndexAt(n, j, i, 4);
    DispatchIndexAt(n, j, i, 5);
  }

  /** Every base index the packer reads lies inside the (n+1)^2 grid. */
  lemma {:induction false} DispatchIndicesInGrid(n: nat, d: nat)
    requires d < |DispatchIndices(n)|
    ensures DispatchIndices(n)[d] < (n + 1) * (n + 1)
  {
    var j, i, k := QuadOf(n, d);
    DispatchIndexAt(n, j, i, k);
    QuadCornerInGrid(n, j, i, k);
  }

  /** The last record dispatched is the top-right corner of the grid,
      base index (n+1)^2 - 1, so the bound above is tight. */
  lemma {:induction false} LastDispatchIsTopRight(n: nat)
    requires 0 < n
    ensures |DispatchIndices(n)| == 6 * (n * n)
    ensures DispatchIndices(n)[6 * (n * n) - 1] == (n + 1) * (n + 1) - 1
  {
    DispatchIndexAt(n, n - 1, n - 1, 5);
    assert 6 * ((n - 1) * n + (n - 1)) + 5 == 6 * (n * n) - 1;
    assert (n - 1) * (n + 1) + (n - 1) + (n + 2) == (n + 1) * (n + 1) - 1;
  }

  /** The recursive layout agrees with the closed form at every position. */
  lemma {:induction false} DispatchIndicesClosedForm(n: nat, d: nat)
    requires d < |DispatchIndices(n)|
    ensures 0 < n && DispatchIndices(n)[d] == SourceIndex(n, d)
  {
    var j, i, k := QuadOf(n, d);
    DispatchIndexAt(n, j, i, k);
  }

  /** Dispatch position d is corner k of quad (j, i). */
  lemma QuadOf(n: nat, d: nat) returns (j: nat, i: nat, k: nat)
    requires d < |DispatchIndices(n)|
    ensures 0 < n && j < n && i < n && k < 6
    ensures j == (d / 6) / n && i == (d / 6) % n && k == d % 6
    ensures d == 6 * (j * n + i) + k
  {
    var q := d / 6;
    k := d % 6;
    assert d == 6 * q + k;
    RowAndColumn(n, q);
    j, i := q / n, q % n;
    assert q == j * n + i;
  }

  lemma RowAndColumn(n: nat, q: nat)
    requires q < n * n
    ensures 0 < n && q / n < n && q % n < n
    ensures q == (q / n) * n + q % n
  {
    if 0 < n && q / n >= n {
      MulAwayFromZero(q / n - n + 1, n);
    }
  }

  lemma QuadInMesh(n: nat, j: nat, i: nat)
    requires j < n && i < n
    ensures j * n + i < n * n
  {
    var above := n - 1 - j;
    assert above * n >= 0;
    assert n * n == j * n + n + above * n;
  }

  lemma QuadCornerInGrid(n: nat, j: nat, i: nat, k: nat)
    requires j < n && i < n && k < 6
    ensures j * (n + 1) + i + CornerOffset(n, k) < (n + 1) * (n + 1)
  {
    assert (n - 1 - j) * (n + 1) >= 0;
  }

  /** dst[..len] holds the records of src named by idx[..len]. */
  ghost predicate Gathered<X>(dst: array<X>, src: array<X>, idx: seq<nat>, len: nat)
    reads dst, src
  {
    len <= |idx| && len <= dst.Length &&
    forall d :: 0 <= d < len ==> idx[d] < src.Length && dst[d] == src[idx[d]]
  }

  /** The eight arrays are distinct objects: writing a dispatch array
      changes neither another dispatch array nor a base array. */
  ghost predicate Separate(dv: object, dc: object, dn: object, dtc: object,
                           bv: object, bc: object, bn: object, btc: object)
  {
    && dv != dc && dv != dn && dv != dtc && dc != dn && dc != dtc && dn != dtc
    && {dv, dc, dn, dtc} !! {bv, bc, bn, btc}
  }

  /** Copies the record of base index sIndx from each of the four base
      arrays to position dIndx of the matching dispatch array, where the
      layout says that position dIndx takes base index sIndx. */
  method CopyVertex<V, C, N, T>(
    dv: array<V>, dc: array<C>, dn: array<N>, dtc: array<T>,
    baseVerts: array<V>, baseColors: array<C>, baseNormals: array<N>, baseTCs: array<T>,
    ghost layout: seq<nat>, sIndx: nat, dIndx: nat)
    returns (next: nat)
    requires Separate(dv, dc, dn, dtc, baseVerts, baseColors, baseNormals, baseTCs)
    requires dIndx < |layout| && layout[dIndx] == sIndx
    requires dIndx < dv.Length && dIndx < dc.Length && dIndx < dn.Length && dIndx < dtc.Length
    requires sIndx < baseVerts.Length && sIndx < baseColors.Length
    requires sIndx < baseNormals.Length && sIndx < baseTCs.Length
    requires Gathered(dv, baseVerts, layout, dIndx) && Gathered(dc, baseColors, layout, dIndx)
    requires Gathered(dn, baseNormals, layout, dIndx) && Gathered(dtc, baseTCs, layout, dIndx)
    modifies dv, dc, dn, dtc
    ensures next == dIndx + 1
    ensures Gathered(dv, baseVerts, layout, next) && Gathered(dc, baseColors, layout, next)
    ensures Gathered(dn, baseNormals, layout, next) && Gathered(dtc, baseTCs, layout, next)
  {
    dv[dIndx] := baseVerts[sIndx];
    dc[dIndx] := baseColors[sIndx];
    dn[dIndx] := baseNormals[sIndx];
    dtc[dIndx] := baseTCs[sIndx];
    next := dIndx + 1;
  }

  /** For one mesh quad whose lower-left base index is sIndx, copies the
      records of its two triangles to dispatch positions dIndx .. dIndx+5
      and returns the next free position. */
  method CopyQuad<V, C, N, T>(
    dv: array<V>, dc: array<C>, dn: array<N>, dtc: array<T>,
    baseVerts: array<V>, baseColors: array<C>, baseNormals: array<N>, baseTCs: array<T>,
    ghost layout: seq<nat>, n: nat, sIndx: nat, dIndx: nat)
    returns (next: nat)
    requires Separate(dv, dc, dn, dtc, baseVerts, baseColors, baseNormals, baseTCs)
    requires dIndx + 6 <= |layout|
    requires dIndx + 6 <= dv.Length && dIndx + 6 <= dc.Length
    requires dIndx + 6 <= dn.Length && dIndx + 6 <= dtc.Length
    requires sIndx + 1 + n + 1 < baseVerts.Length && sIndx + 1 + n + 1 < baseColors.Length
    requires sIndx + 1 + n + 1 < baseNormals.Length && sIndx + 1 + n + 1 < baseTCs.Length
    requires layout[dIndx] == sIndx && layout[dIndx + 1] == sIndx + 1
    requires layout[dIndx + 2] == sIndx + n + 1 && layout[dIndx + 3] == sIndx + n + 1
    requires layout[dIndx + 4] == sIndx + 1 && layout[dIndx + 5] == sIndx + 1 + n + 1
    requires Gathered(dv, baseVerts, layout, dIndx) && Gathered(dc, baseColors, layout, dIndx)
    requires Gathered(dn, baseNormals, layout, dIndx) && Gathered(dtc, baseTCs, layout, dIndx)
    modifies dv, dc, dn, dtc
    ensures next == dIndx + 6
    ensures Gathered(dv, baseVerts, layout, next) && Gathered(dc, baseColors, layout, next)
    ensures Gathered(dn, baseNormals, layout, next) && Gathered(dtc, baseTCs, layout, next)
  {
    next := dIndx;
    // triangle 0
    next := CopyVertex(dv, dc, dn, dtc, baseVerts, baseColors, baseNormals, baseTCs, layout, sIndx, next);
    next := CopyVertex(dv, dc, dn, dtc, baseVerts, baseColors, baseNormals, baseTCs, layout, sIndx + 1, next);
    next := CopyVertex(dv, dc, dn, dtc, baseVerts, baseColors, baseNormals, baseTCs, layout, sIndx + n + 1, next);
    // triangle 1
    next := CopyVertex(dv, dc, dn, dtc, baseVerts, baseColors, baseNormals, baseTCs, layout, sIndx + n + 1, next);
    next := CopyVertex(dv, dc, dn, dtc, baseVerts, baseColors, baseNormals, baseTCs, layout, sIndx + 1, next);
    next := CopyVertex(dv, dc, dn, dtc, baseVerts, baseColors, baseNormals, baseTCs, layout, sIndx + 1 + n + 1, next);
  }

  /** The two nested loops of the packer: quads row by row (j outer, i
      inner), six records per quad, written at a running position dIndx. */
  method FillMesh<V, C, N, T>(
    dv: array<V>, dc: array<C>, dn: array<N>, dtc: array<T>,
    baseVerts: array<V>, baseColors: array<C>, baseNormals: array<N>, baseTCs: array<T>,
    n: nat) returns (dIndx: nat)
    requires Separate(dv, dc, dn, dtc, baseVerts, baseColors, baseNormals, baseTCs)
    requires dv.Length == 6 * (n * n) && dc.Length == 6 * (n * n)
    requires dn.Length == 6 * (n * n) && dtc.Length == 6 * (n * n)
    requires (n + 1) * (n + 1) <= baseVerts.Length && (n + 1) * (n + 1) <= baseColors.Length
    requires (n + 1) * (n + 1) <= baseNormals.Length && (n + 1) * (n + 1) <= baseTCs.Length
    modifies dv, dc, dn, dtc
    ensures dIndx == 6 * (n * n)
    ensures Gathered(dv, baseVerts, DispatchIndices(n), dv.Length)
    ensures Gathered(dc, baseColors, DispatchIndices(n), dc.Length)
    ensures Gathered(dn, baseNormals, DispatchIndices(n), dn.Length)
    ensures Gathered(dtc, baseTCs, DispatchIndices(n), dtc.Length)
  {
    ghost var layout := DispatchIndices(n);
    dIndx := 0;
    var j := 0;
    while j < n
      invariant 0 <= j <= n
      invariant dIndx == 6 * (j * n)
      invariant Gathered(dv, baseVerts, layout, dIndx)
      invariant Gathered(dc, baseColors, layout, dIndx)
      invariant Gathered(dn, baseNormals, layout, dIndx)
      invariant Gathered(dtc, baseTCs, layout, dIndx)
    {
      var i := 0;
      while i < n
        invariant 0 <= i <= n
        invariant dIndx == 6 * (j * n + i)
        invariant Gathered(dv, baseVerts, layout, dIndx)
        invariant Gathered(dc, baseColors, layout, dIndx)
        invariant Gathered(dn, baseNormals, layout, dIndx)
        invariant Gathered(dtc, baseTCs, layout, dIndx)
      {
        var sIndx := j * (n + 1) + i;
        QuadCornerInGrid(n, j, i, 5);
        QuadDispatch(n, j, i, dIndx, sIndx);

        dIndx := CopyQuad(dv, dc, dn, dtc, baseVerts, baseColors, baseNormals, baseTCs,
                          layout, n, sIndx, dIndx);
        i := i + 1;
      }
      assert (j + 1) * n == j * n + n;
      j := j + 1;
    }
  }

  /** Allocates four dispatch arrays with room for the whole mesh, fills
      them quad by quad, row by row, and reports min(2n^2, triangleLimit)
      triangles and three vertices per triangle. */
  method BuildDisjointTriangleArrays<V(0), C(0), N(0), T(0)>(
    nVertsPerAxis: nat, triangleLimit: int,
    baseVerts: array<V>, baseColors: array<C>, baseNormals: array<N>, baseTCs: array<T>)
    returns (dispatchTriangles: int, dispatchVertexCount: int,
             dispatchVerts: array<V>, dispatchColors: array<C>,
             dispatchNormals: array<N>, dispatchTCs: array<T>)
    requires 6 * (nVertsPerAxis * nVertsPerAxis) <= INT_MAX
    requires IsInt(triangleLimit)
    requires 2 * (nVertsPerAxis * nVertsPerAxis) < triangleLimit || IsInt(3 * triangleLimit)
    requires (nVertsPerAxis + 1) * (nVertsPerAxis + 1) <= baseVerts.Length
    requires (nVertsPerAxis + 1) * (nVertsPerAxis + 1) <= baseColors.Length
    requires (nVertsPerAxis + 1) * (nVertsPerAxis + 1) <= baseNormals.Length
    requires (nVertsPerAxis + 1) * (nVertsPerAxis + 1) <= baseTCs.Length
    ensures fresh(dispatchVerts) && fresh(dispatchColors)
    ensures fresh(dispatchNormals) && fresh(dispatchTCs)
    // the buffers always hold the full mesh; the cap only shrinks the counts
    ensures dispatchVerts.Length == 6 * (nVertsPerAxis * nVertsPerAxis)
    ensures dispatchColors.Length == 6 * (nVertsPerAxis * nVertsPerAxis)
    ensures dispatchNormals.Length == 6 * (nVertsPerAxis * nVertsPerAxis)
    ensures dispatchTCs.Length == 6 * (nVertsPerAxis * nVertsPerAxis)
    ensures |DispatchIndices(nVertsPerAxis)| == 6 * (nVertsPerAxis * nVertsPerAxis)
    // all four arrays take, at every position, the record of one base index
    ensures Gathered(dispatchVerts, baseVerts, DispatchIndices(nVertsPerAxis), dispatchVerts.Length)
    ensures Gathered(dispatchColors, baseColors, DispatchIndices(nVertsPerAxis), dispatchColors.Length)
    ensures Gathered(dispatchNormals, baseNormals, DispatchIndices(nVertsPerAxis), dispatchNormals.Length)
    ensures Gathered(dispatchTCs, baseTCs, DispatchIndices(nVertsPerAxis), dispatchTCs.Length)
    ensures dispatchTriangles == Min(2 * (nVertsPerAxis * nVertsPerAxis), triangleLimit)
    ensures dispatchVertexCount == 3 * dispatchTriangles
    ensures 0 <= triangleLimit ==> 0 <= dispatchVertexCount <= 6 * (nVertsPerAxis * nVertsPerAxis)
  {
    var n := nVertsPerAxis;
    dispatchTriangles := n * n * 2;

    dispatchVerts := new V[dispatchTriangles * 3];
    dispatchColors := new C[dispatchTriangles * 3];
    dispatchNormals := new N[dispatchTriangles * 3];
    dispatchTCs := new T[dispatchTriangles * 3];
    var dv, dc, dn, dtc := dispatchVerts, dispatchColors, dispatchNormals, dispatchTCs;
    assert dispatchTriangles * 3 == 6 * (n * n);

    var written := FillMesh(dv, dc, dn, dtc, baseVerts, baseColors, baseNormals, baseTCs, n);
    assert written == dispatchTriangles * 3;

    // how many of the triangles are sent down with each draw call
    if dispatchTriangles < triangleLimit {
      dispatchVertexCount := dispatchTriangles * 3;
    } else {
      dispatchVertexCount := triangleLimit * 3;
    }
    dispatchTriangles := dispatchVertexCount / 3;
  }
}
