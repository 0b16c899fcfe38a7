/** Facts about the vertex generators of main.js: every coordinate scales
    with `size`, and the two ends of every listed edge are different points
    whenever `size` is not zero. */
module VertexTables {
  import opened Vectors
  import opened Catalog
  import opened EdgeTables

  // ---------------------------------------------------------------------------
  // Scaling

  lemma DivLinear(k: real, x: real, d: real)
    requires d != 0.0
    ensures (k * x) / d == k * (x / d)
  {
  }

  lemma MulLinear(k: real, x: real, d: real)
    ensures (k * x) * d == k * (x * d)
  {
  }

  function ScaleMagnitudes(k: real, m: Magnitudes): Magnitudes {
    Magnitudes(k * m.a, k * m.b, k * m.c)
  }

  lemma DodecahedronScalesLinear(size: real, k: real, sqrt: real -> real)
    requires SqrtOk(sqrt)
    ensures Scales(Dodecahedron, k * size, sqrt) == ScaleMagnitudes(k, Scales(Dodecahedron, size, sqrt))
  {
    assert sqrt(3.0) > 0.0;
    var phi := Phi(sqrt);
    var d := 2.0 * sqrt(3.0);
    var scale := size / d;
    DivLinear(k, size, d);
    assert (k * size) / d == k * scale;
    DivLinear(k, scale, phi);
    MulLinear(k, scale, phi);
  }

  lemma IcosahedronScalesLinear(size: real, k: real, sqrt: real -> real)
    requires SqrtOk(sqrt)
    ensures Scales(Icosahedron, k * size, sqrt) == ScaleMagnitudes(k, Scales(Icosahedron, size, sqrt))
  {
    var phi := Phi(sqrt);
    var d := 2.0 * phi;
    var scale := size / d;
    DivLinear(k, size, d);
    assert (k * size) / d == k * scale;
    MulLinear(k, scale, phi);
  }

  /** The tetrahedron, cube and octahedron use one magnitude, `size / d`. */
  lemma UniformLinear(size: real, k: real, d: real)
    requires d != 0.0
    ensures Magnitudes((k * size) / d, (k * size) / d, (k * size) / d)
            == ScaleMagnitudes(k, Magnitudes(size / d, size / d, size / d))
  {
    DivLinear(k, size, d);
  }

  lemma TetrahedronScalesLinear(size: real, k: real, sqrt: real -> real)
    requires SqrtOk(sqrt)
    ensures Scales(Tetrahedron, k * size, sqrt) == ScaleMagnitudes(k, Scales(Tetrahedron, size, sqrt))
  {
    assert sqrt(3.0) > 0.0;
    UniformLinear(size, k, sqrt(3.0));
  }

  lemma CubeScalesLinear(size: real, k: real, sqrt: real -> real)
    requires SqrtOk(sqrt)
    ensures Scales(Cube, k * size, sqrt) == ScaleMagnitudes(k, Scales(Cube, size, sqrt))
  {
    UniformLinear(size, k, 2.0);
  }

  lemma OctahedronScalesLinear(size: real, k: real, sqrt: real -> real)
    requires SqrtOk(sqrt)
    ensures Scales(Octahedron, k * size, sqrt) == ScaleMagnitudes(k, Scales(Octahedron, size, sqrt))
  {
    assert sqrt(2.0) > 0.0;
    UniformLinear(size, k, sqrt(2.0));
  }

  /** Every magnitude a generator derives is proportional to `size`. */
  lemma ScalesLinear(s: Shape, size: real, k: real, sqrt: real -> real)
    requires SqrtOk(sqrt)
    ensures Scales(s, k * size, sqrt) == ScaleMagnitudes(k, Scales(s, size, sqrt))
  {
    match s
    case Tetrahedron => TetrahedronScalesLinear(size, k, sqrt);
    case Cube => CubeScalesLinear(size, k, sqrt);
    case Octahedron => OctahedronScalesLinear(size, k, sqrt);
    case Dodecahedron => DodecahedronScalesLinear(size, k, sqrt);
    case Icosahedron => IcosahedronScalesLinear(size, k, sqrt);
  }

  lemma PointLinear(p: Pattern, m: Magnitudes, k: real)
    ensures Point(p, ScaleMagnitudes(k, m)) == Scale(k, Point(p, m))
  {
  }

  /** The generators are linear in `size`: multiplying it by `k` multiplies
      every coordinate of every vertex by `k`. */
  lemma VerticesLinear(s: Shape, size: real, k: real, sqrt: real -> real)
    requires SqrtOk(sqrt)
    ensures |Vertices(s, k * size, sqrt)| == |Vertices(s, size, sqrt)|
    ensures forall i :: 0 <= i < |Vertices(s, size, sqrt)| ==>
              Vertices(s, k * size, sqrt)[i] == Scale(k, Vertices(s, size, sqrt)[i])
  {
    ScalesLinear(s, size, k, sqrt);
    var m := Scales(s, size, sqrt);
    forall i | 0 <= i < |Vertices(s, size, sqrt)|
      ensures Vertices(s, k * size, sqrt)[i] == Scale(k, Vertices(s, size, sqrt)[i])
    {
      PointLinear(Patterns(s)[i], m, k);
    }
  }

  // ---------------------------------------------------------------------------
  // Distinct ends

  /** Two coordinates that differ for any non-zero magnitudes: one is zero
      and the other is not, or they are opposite signs of one magnitude. */
  predicate Splits(c: Coord, d: Coord) {
    (c.Zero? != d.Zero?)
    || (c.Plus? && d.Minus? && c.u == d.u)
    || (c.Minus? && d.Plus? && c.u == d.u)
  }

  predicate Separated(p: Pattern, q: Pattern) {
    Splits(p.x, q.x) || Splits(p.y, q.y) || Splits(p.z, q.z)
  }

  /** Every edge joins two vertex patterns that are separated. */
  predicate EndsSeparated(ps: seq<Pattern>, es: seq<Edge>) {
    forall i :: 0 <= i < |es| ==>
      es[i].0 < |ps| && es[i].1 < |ps| && Separated(ps[es[i].0], ps[es[i].1])
  }

  lemma SeparatedAppend(ps: seq<Pattern>, a: seq<Edge>, b: seq<Edge>)
    requires EndsSeparated(ps, a) && EndsSeparated(ps, b)
    ensures EndsSeparated(ps, a + b)
  {
    forall i | 0 <= i < |a + b|
      ensures (a + b)[i].0 < |ps| && (a + b)[i].1 < |ps| && Separated(ps[(a + b)[i].0], ps[(a + b)[i].1])
    {
      if i < |a| {
        assert (a + b)[i] == a[i];
      } else {
        assert (a + b)[i] == b[i - |a|];
      }
    }
  }

  lemma TetrahedronSeparated()
    ensures EndsSeparated(Patterns(Tetrahedron), Edges(Tetrahedron))
  {
  }

  lemma CubeSeparated()
    ensures EndsSeparated(Patterns(Cube), Edges(Cube))
  {
    CubeHalves();
    assert EndsSeparated(Patterns(Cube), CubeHalf0());
    assert EndsSeparated(Patterns(Cube), CubeHalf1());
    assert Edges(Cube) == CubeHalf0() + CubeHalf1();
    SeparatedAppend(Patterns(Cube), CubeHalf0(), CubeHalf1());
  }

  lemma OctahedronSeparated()
    ensures EndsSeparated(Patterns(Octahedron), Edges(Octahedron))
  {
    OctahedronHalves();
    assert EndsSeparated(Patterns(Octahedron), OctahedronHalf0());
    assert EndsSeparated(Patterns(Octahedron), OctahedronHalf1());
    assert Edges(Octahedron) == OctahedronHalf0() + OctahedronHalf1();
    SeparatedAppend(Patterns(Octahedron), OctahedronHalf0(), OctahedronHalf1());
  }

  lemma DodecahedronRow0Separated()
    ensures EndsSeparated(Patterns(Dodecahedron), DodecahedronRow0())
  {
  }

  lemma DodecahedronRow1Separated()
    ensures EndsSeparated(Patterns(Dodecahedron), DodecahedronRow1())
  {
  }

  lemma DodecahedronRow2Separated()
    ensures EndsSeparated(Patterns(Dodecahedron), DodecahedronRow2())
  {
  }

  lemma DodecahedronRow3Separated()
    ensures EndsSeparated(Patterns(Dodecahedron), DodecahedronRow3())
  {
  }

  lemma DodecahedronRow4Separated()
    ensures EndsSeparated(Patterns(Dodecahedron), DodecahedronRow4())
  {
  }

  lemma DodecahedronSeparated()
    ensures EndsSeparated(Patterns(Dodecahedron), Edges(Dodecahedron))
  {
    var ps := Patterns(Dodecahedron);
    DodecahedronRows();
    DodecahedronRow0Separated();
    DodecahedronRow1Separated();
    DodecahedronRow2Separated();
    DodecahedronRow3Separated();
    DodecahedronRow4Separated();
    SeparatedAppend(ps, DodecahedronRow0(), DodecahedronRow1());
    SeparatedAppend(ps, DodecahedronRow0() + DodecahedronRow1(), DodecahedronRow2());
    SeparatedAppend(ps, DodecahedronRow0() + DodecahedronRow1() + DodecahedronRow2(), DodecahedronRow3());
    SeparatedAppend(ps, DodecahedronRow0() + DodecahedronRow1() + DodecahedronRow2() + DodecahedronRow3(), DodecahedronRow4());
  }

  lemma IcosahedronRow0Separated()
    ensures EndsSeparated(Patterns(Icosahedron), IcosahedronRow0())
  {
  }

  lemma IcosahedronRow1Separated()
    ensures EndsSeparated(Patterns(Icosahedron), IcosahedronRow1())
  {
  }

  lemma IcosahedronRow2Separated()
    ensures EndsSeparated(Patterns(Icosahedron), IcosahedronRow2())
  {
  }

  lemma IcosahedronRow3Separated()
    ensures EndsSeparated(Patterns(Icosahedron), IcosahedronRow3())
  {
  }

  lemma IcosahedronRow4Separated()
    ensures EndsSeparated(Patterns(Icosahedron), IcosahedronRow4())
  {
  }

  lemma IcosahedronSeparated()
    ensures EndsSeparated(Patterns(Icosahedron), Edges(Icosahedron))
  {
    var ps := Patterns(Icosahedron);
    IcosahedronRows();
    IcosahedronRow0Separated();
    IcosahedronRow1Separated();
    IcosahedronRow2Separated();
    IcosahedronRow3Separated();
    IcosahedronRow4Separated();
    SeparatedAppend(ps, IcosahedronRow0(), IcosahedronRow1());
    SeparatedAppend(ps, IcosahedronRow0() + IcosahedronRow1(), IcosahedronRow2());
    SeparatedAppend(ps, IcosahedronRow0() + IcosahedronRow1() + IcosahedronRow2(), IcosahedronRow3());
    SeparatedAppend(ps, IcosahedronRow0() + IcosahedronRow1() + IcosahedronRow2() + IcosahedronRow3(), IcosahedronRow4());
  }

  /** In every solid the two ends of each edge have separated patterns. */
  lemma TablesSeparated(s: Shape)
    ensures EndsSeparated(Patterns(s), Edges(s))
  {
    match s
    case Tetrahedron => TetrahedronSeparated();
    case Cube => CubeSeparated();
    case Octahedron => OctahedronSeparated();
    case Dodecahedron => DodecahedronSeparated();
    case Icosahedron => IcosahedronSeparated();
  }

  predicate NonZero(m: Magnitudes) {
    m.a != 0.0 && m.b != 0.0 && m.c != 0.0
  }

  /** Separated patterns give different points once no magnitude is zero. */
  lemma SeparatedPoints(p: Pattern, q: Pattern, m: Magnitudes)
    requires NonZero(m) && Separated(p, q)
    ensures Point(p, m) != Point(q, m)
  {
  }

  lemma QuotientNonZero(x: real, d: real)
    requires x != 0.0 && d != 0.0
    ensures x / d != 0.0
  {
    if x / d == 0.0 {
      assert x == (x / d) * d;
    }
  }

  lemma DodecahedronNonZero(size: real, sqrt: real -> real)
    requires SqrtOk(sqrt) && size != 0.0
    ensures NonZero(Scales(Dodecahedron, size, sqrt))
  {
    assert sqrt(3.0) > 0.0;
    var phi := Phi(sqrt);
    var d := 2.0 * sqrt(3.0);
    var scale := size / d;
    QuotientNonZero(size, d);
    QuotientNonZero(scale, phi);
    ProductNonZero(scale, phi);
  }

  lemma IcosahedronNonZero(size: real, sqrt: real -> real)
    requires SqrtOk(sqrt) && size != 0.0
    ensures NonZero(Scales(Icosahedron, size, sqrt))
  {
    var phi := Phi(sqrt);
    var d := 2.0 * phi;
    var scale := size / d;
    QuotientNonZero(size, d);
    ProductNonZero(scale, phi);
  }

  /** No magnitude is zero unless `size` is. */
  lemma ScalesNonZero(s: Shape, size: real, sqrt: real -> real)
    requires SqrtOk(sqrt) && size != 0.0
    ensures NonZero(Scales(s, size, sqrt))
  {
    match s
    case Tetrahedron =>
      assert sqrt(3.0) > 0.0;
      QuotientNonZero(size, sqrt(3.0));
    case Cube =>
      QuotientNonZero(size, 2.0);
    case Octahedron =>
      assert sqrt(2.0) > 0.0;
      QuotientNonZero(size, sqrt(2.0));
    case Dodecahedron => DodecahedronNonZero(size, sqrt);
    case Icosahedron => IcosahedronNonZero(size, sqrt);
  }

  /** At any non-zero size, no edge of a solid joins a vertex to a point
      equal to it. */
  lemma EdgeEndsDistinct(s: Shape, size: real, sqrt: real -> real)
    requires SqrtOk(sqrt) && size != 0.0
    ensures EdgesInRange(Edges(s), |Vertices(s, size, sqrt)|)
    ensures forall i :: 0 <= i < |Edges(s)| ==>
              Vertices(s, size, sqrt)[Edges(s)[i].0] != Vertices(s, size, sqrt)[Edges(s)[i].1]
  {
    EdgesWellFormed(s);
    TablesSeparated(s);
    ScalesNonZero(s, size, sqrt);
    var ps, es, m := Patterns(s), Edges(s), Scales(s, size, sqrt);
    forall i | 0 <= i < |es|
      ensures Vertices(s, size, sqrt)[es[i].0] != Vertices(s, size, sqrt)[es[i].1]
    {
      SeparatedPoints(ps[es[i].0], ps[es[i].1], m);
    }
  }
}
