/** The average half-edge length that ctmVertexPrecisionRel computes, with the
    32-bit unsigned arithmetic of its loops.  The Euclidean length of an edge
    is a parameter: the model does not interpret sqrt or float arithmetic. */
module CtmPrecision {
  import opened CtmTypes

  datatype Point = Point(x: real, y: real, z: real)

  /** The array slot of corner k (= 3 * triangle + corner), computed as CTMuint. */
  function Slot(k: nat): nat
  {
    Wrap32(k) as int
  }

  /** The first float of vertex v in the vertex array, computed as CTMuint. */
  function Offset(v: uint32): nat
  {
    Wrap32(3 * v as int) as int
  }

  /** What the loops demand of the caller's arrays: every index slot of the first
      tc triangles, and the three floats of the vertex it names, lie inside them. */
  predicate Readable(vs: seq<real>, ix: seq<uint32>, tc: nat)
  {
    forall k :: 0 <= k < 3 * tc ==> Slot(k) < |ix| && Offset(ix[Slot(k)]) + 2 < |vs|
  }

  /** Corner j of triangle i. */
  function Corner(vs: seq<real>, ix: seq<uint32>, tc: nat, i: nat, j: nat): Point
    requires Readable(vs, ix, tc) && i < tc && j < 3
  {
    var k := 3 * i + j;
    assert 0 <= k < 3 * tc;
    var off := Offset(ix[Slot(k)]);
    Point(vs[off], vs[off + 1], vs[off + 2])
  }

  /** The corner before corner j of a triangle, going round. */
  function Prev(j: nat): nat
  {
    if j == 0 then 2 else j - 1
  }

  /** Half-edge j of triangle i runs from corner j - 1 (corner 2 for j = 0) to corner j. */
  function Edge(vs: seq<real>, ix: seq<uint32>, tc: nat, length: (Point, Point) -> real, i: nat, j: nat): real
    requires Readable(vs, ix, tc) && i < tc && j < 3
  {
    length(Corner(vs, ix, tc, i, Prev(j)), Corner(vs, ix, tc, i, j))
  }

  /** The first j half-edges of triangle i, summed in loop order. */
  function TriangleSum(vs: seq<real>, ix: seq<uint32>, tc: nat, length: (Point, Point) -> real, i: nat, j: nat): real
    requires Readable(vs, ix, tc) && i < tc && j <= 3
  {
    if j == 0 then 0.0 else TriangleSum(vs, ix, tc, length, i, j - 1) + Edge(vs, ix, tc, length, i, j - 1)
  }

  /** Every half-edge of the first n triangles, summed in loop order. */
  function HalfEdgeSum(vs: seq<real>, ix: seq<uint32>, tc: nat, length: (Point, Point) -> real, n: nat): real
    requires Readable(vs, ix, tc) && n <= tc
  {
    if n == 0 then 0.0 else HalfEdgeSum(vs, ix, tc, length, n - 1) + TriangleSum(vs, ix, tc, length, n - 1, 3)
  }

  /** The average half-edge length, divided as ctmVertexPrecisionRel divides it:
      the sum over the first tc triangles by the CTMuint count of half-edges. */
  function AverageEdge(vs: seq<real>, ix: seq<uint32>, tc: nat, length: (Point, Point) -> real): real
    requires Readable(vs, ix, tc) && Wrap32(3 * tc) != 0
  {
    HalfEdgeSum(vs, ix, tc, length, tc) / (Wrap32(3 * tc) as real)
  }

  /** The vertex precision ctmVertexPrecisionRel sets: rel times the average
      half-edge length. */
  function RelativePrecision(vs: seq<real>, ix: seq<uint32>, tc: nat, length: (Point, Point) -> real, rel: real): real
    requires Readable(vs, ix, tc) && Wrap32(3 * tc) != 0
  {
    rel * AverageEdge(vs, ix, tc, length)
  }

  /** The sums the loops produce, divided and scaled as ctmVertexPrecisionRel
      does, give the relative precision. */
  lemma PrecisionOfSums(vs: seq<real>, ix: seq<uint32>, tc: nat, length: (Point, Point) -> real, rel: real,
                        total: real, count: uint32)
    requires Readable(vs, ix, tc) && count == Wrap32(3 * tc) && count != 0
    requires total == HalfEdgeSum(vs, ix, tc, length, tc)
    ensures rel * (total / (count as real)) == RelativePrecision(vs, ix, tc, length, rel)
  {
  }

  ghost function Contents<T>(a: array?<T>): seq<T>
    reads a
  {
    if a == null then [] else a[..]
  }

  lemma WrapAdd(x: nat, d: nat)
    ensures Wrap32(Wrap32(x) as int + d) == Wrap32(x + d)
  {
  }

  function Bumped(c: uint32, j: nat): uint32
  {
    if j == 0 then c else Inc(Bumped(c, j - 1))
  }

  /** The CTMuint edge counter after the first n triangles, three increments each. */
  function EdgesCounted(n: nat): uint32
  {
    if n == 0 then 0 else Bumped(EdgesCounted(n - 1), 3)
  }

  lemma {:induction false} BumpedWraps(n: nat)
    ensures Bumped(Wrap32(n), 3) == Wrap32(n + 3)
  {
    var c := Wrap32(n);
    assert Bumped(c, 1) == Inc(c);
    assert Bumped(c, 2) == Inc(Bumped(c, 1));
    assert Bumped(c, 3) == Inc(Bumped(c, 2));
    IncWraps(c);
    WrapAdd(n, 1);
    IncWraps(Wrap32(n + 1));
    WrapAdd(n + 1, 1);
    IncWraps(Wrap32(n + 2));
    WrapAdd(n + 2, 1);
  }

  /** The counter holds 3n reduced modulo 2^32. */
  lemma {:induction false} EdgesCountedWraps(n: nat)
    ensures EdgesCounted(n) == Wrap32(3 * n)
  {
    if n > 0 {
      EdgesCountedWraps(n - 1);
      BumpedWraps(3 * (n - 1));
    }
  }

  /** The CTMuint edge counter ends at zero only for a mesh without triangles. */
  lemma {:induction false} EdgeCountZero(tc: uint32)
    ensures Wrap32(3 * tc as int) == 0 <==> tc == 0
  {
    var n := 3 * tc as int;
    if tc > 0 {
      assert 0 < n < 3 * TWO_32;
      assert n != TWO_32 && n != 2 * TWO_32;
    }
  }

  /** One pass of the outer loop of ctmVertexPrecisionRel: the inner loop over
      the three corners of triangle i adds each half-edge of the triangle to the
      running sum and counts it. */
  method SumTriangle(vertices: array?<real>, indices: array?<uint32>, tc: uint32, length: (Point, Point) -> real,
                     i: uint32, total0: real, count0: uint32)
    returns (total: real, edgeCount: uint32)
    requires Readable(Contents(vertices), Contents(indices), tc as int) && i < tc
    ensures total == total0 + TriangleSum(Contents(vertices), Contents(indices), tc as int, length, i as int, 3)
    ensures edgeCount == Bumped(count0, 3)
  {
    ghost var vs, ix := Contents(vertices), Contents(indices);
    total, edgeCount := total0, count0;
    // p1 = &mVertices[mIndices[i * 3 + 2] * 3], both indices computed as CTMuint.
    assert Slot(3 * i as int + 2) < |ix|;
    var off := Offset(indices[Slot(3 * i as int + 2)]);
    var p1 := Point(vertices[off], vertices[off + 1], vertices[off + 2]);
    assert p1 == Corner(vs, ix, tc as int, i as int, 2);
    var j := 0;
    while j < 3
      invariant j <= 3
      invariant total == total0 + TriangleSum(vs, ix, tc as int, length, i as int, j)
      invariant edgeCount == Bumped(count0, j)
      invariant p1 == Corner(vs, ix, tc as int, i as int, Prev(j))
    {
      assert Slot(3 * i as int + j) < |ix|;
      off := Offset(indices[Slot(3 * i as int + j)]);
      var p2 := Point(vertices[off], vertices[off + 1], vertices[off + 2]);
      assert p2 == Corner(vs, ix, tc as int, i as int, j);
      total := total + length(p1, p2);
      p1 := p2;
      edgeCount := Inc(edgeCount);
      j := j + 1;
    }
  }

  /** The nested loops of ctmVertexPrecisionRel: the sum over every half-edge and
      the number of half-edges counted, three per triangle, as a CTMuint. */
  method SumHalfEdges(vertices: array?<real>, indices: array?<uint32>, tc: uint32, length: (Point, Point) -> real)
    returns (total: real, edgeCount: uint32)
    requires Readable(Contents(vertices), Contents(indices), tc as int)
    ensures total == HalfEdgeSum(Contents(vertices), Contents(indices), tc as int, length, tc as int)
    ensures edgeCount == Wrap32(3 * tc as int)
    ensures edgeCount == 0 <==> tc == 0
  {
    ghost var vs, ix := Contents(vertices), Contents(indices);
    EdgesCountedWraps(tc as int);
    EdgeCountZero(tc);
    total, edgeCount := 0.0, 0;
    var i: uint32 := 0;
    while i < tc
      invariant i <= tc
      invariant edgeCount == EdgesCounted(i as int)
      invariant total == HalfEdgeSum(vs, ix, tc as int, length, i as int)
    {
      total, edgeCount := SumTriangle(vertices, indices, tc, length, i, total, edgeCount);
      i := i + 1;
    }
  }

  /** A single triangle whose three half-edges have length L has average
      half-edge length L. */
  lemma {:induction false} SingleTriangleAverage(vs: seq<real>, ix: seq<uint32>, length: (Point, Point) -> real, L: real)
    requires Readable(vs, ix, 1)
    requires forall j :: 0 <= j < 3 ==> Edge(vs, ix, 1, length, 0, j) == L
    ensures AverageEdge(vs, ix, 1, length) == L
  {
    assert Edge(vs, ix, 1, length, 0, 0) == L;
    assert Edge(vs, ix, 1, length, 0, 1) == L;
    assert Edge(vs, ix, 1, length, 0, 2) == L;
    assert TriangleSum(vs, ix, 1, length, 0, 1) == L;
    assert TriangleSum(vs, ix, 1, length, 0, 2) == L + L;
    assert TriangleSum(vs, ix, 1, length, 0, 3) == L + L + L;
    assert HalfEdgeSum(vs, ix, 1, length, 1) == 3.0 * L;
  }
}
