/** The polyhedron catalog of main.js (`polyhedronData`): for each of the
    five regular polyhedra, a vertex generator parameterised by `size` and a
    fixed table of edges given as pairs of vertex indices. The catalog is
    keyed by face count: 4, 6, 8, 12 and 20. */
module Catalog {
  import opened Options
  import opened Vectors

  datatype Shape = Tetrahedron | Cube | Octahedron | Dodecahedron | Icosahedron

  /** An edge joins the vertices at two indices of the vertex list. */
  type Edge = (nat, nat)

  /** The key of a shape in `polyhedronData`, which is its number of faces. */
  function Key(s: Shape): nat {
    match s
    case Tetrahedron => 4
    case Cube => 6
    case Octahedron => 8
    case Dodecahedron => 12
    case Icosahedron => 20
  }

  /** `polyhedronData[key]`: undefined for any key that is not in the table. */
  function Lookup(key: int): (r: Option<Shape>)
    ensures r.Some? <==> key in {4, 6, 8, 12, 20}
    ensures r.Some? ==> Key(r.value) == key
  {
    if key == 4 then Some(Tetrahedron)
    else if key == 6 then Some(Cube)
    else if key == 8 then Some(Octahedron)
    else if key == 12 then Some(Dodecahedron)
    else if key == 20 then Some(Icosahedron)
    else None
  }

  /** Looking up a shape's own key finds that shape, and only it. */
  lemma LookupKey(s: Shape, key: int)
    ensures Lookup(Key(s)) == Some(s)
    ensures Lookup(key) == Some(s) <==> key == Key(s)
  {
  }

  function VertexCount(s: Shape): nat {
    match s
    case Tetrahedron => 4
    case Cube => 8
    case Octahedron => 6
    case Dodecahedron => 20
    case Icosahedron => 12
  }

  function EdgeCount(s: Shape): nat {
    match s
    case Tetrahedron => 6
    case Cube => 12
    case Octahedron => 12
    case Dodecahedron => 30
    case Icosahedron => 30
  }

  /** Number of edges meeting at each vertex of the solid. */
  function VertexDegree(s: Shape): nat {
    match s
    case Tetrahedron => 3
    case Cube => 3
    case Octahedron => 4
    case Dodecahedron => 3
    case Icosahedron => 5
  }

  // ---------------------------------------------------------------------------
  // Vertex generators

  /** The named magnitudes a generator builds its coordinates from:
      `a` (called `half` for the cube and `s` for the octahedron), `b` and
      `c`. The tetrahedron, cube and octahedron use only `a`. */
  datatype Unit = A | B | C

  /** One coordinate of a vertex: 0, or plus or minus a named magnitude. */
  datatype Coord = Zero | Plus(u: Unit) | Minus(u: Unit)

  /** The sign pattern of one vertex, as written in a generator's table. */
  datatype Pattern = Pattern(x: Coord, y: Coord, z: Coord)

  datatype Magnitudes = Magnitudes(a: real, b: real, c: real)

  function Magnitude(u: Unit, m: Magnitudes): real {
    match u
    case A => m.a
    case B => m.b
    case C => m.c
  }

  function Value(c: Coord, m: Magnitudes): real {
    match c
    case Zero => 0.0
    case Plus(u) => Magnitude(u, m)
    case Minus(u) => -Magnitude(u, m)
  }

  function Point(p: Pattern, m: Magnitudes): Vec3 {
    Vec3(Value(p.x, m), Value(p.y, m), Value(p.z, m))
  }

  /** The golden ratio as the dodecahedron and icosahedron compute it. */
  function Phi(sqrt: real -> real): (phi: real)
    requires SqrtOk(sqrt)
    ensures phi > 0.5
  {
    assert sqrt(5.0) > 0.0;
    (1.0 + sqrt(5.0)) / 2.0
  }

  /** The magnitudes each generator derives from `size`, with the
      normalising constants of `polyhedronData`. */
  function Scales(s: Shape, size: real, sqrt: real -> real): Magnitudes
    requires SqrtOk(sqrt)
  {
    assert sqrt(2.0) > 0.0 && sqrt(3.0) > 0.0;
    match s
    case Tetrahedron =>
      var a := size / sqrt(3.0);
      Magnitudes(a, a, a)
    case Cube =>
      var half := size / 2.0;
      Magnitudes(half, half, half)
    case Octahedron =>
      var a := size / sqrt(2.0);
      Magnitudes(a, a, a)
    case Dodecahedron =>
      var phi := Phi(sqrt);
      var scale := size / (2.0 * sqrt(3.0));
      Magnitudes(scale, scale / phi, scale * phi)
    case Icosahedron =>
      var phi := Phi(sqrt);
      var scale := size / (2.0 * phi);
      Magnitudes(scale, scale * phi, scale * phi)
  }

  /** The vertex tables of the five generators, in the order main.js lists the vertices. */
  function Patterns(s: Shape): seq<Pattern> {
    match s
    case Tetrahedron =>
      [ Pattern(Plus(A), Plus(A), Plus(A)),
        Pattern(Plus(A), Minus(A), Minus(A)),
        Pattern(Minus(A), Plus(A), Minus(A)),
        Pattern(Minus(A), Minus(A), Plus(A)) ]
    case Cube =>
      [ Pattern(Minus(A), Minus(A), Minus(A)),
        Pattern(Plus(A), Minus(A), Minus(A)),
        Pattern(Plus(A), Plus(A), Minus(A)),
        Pattern(Minus(A), Plus(A), Minus(A)),
        Pattern(Minus(A), Minus(A), Plus(A)),
        Pattern(Plus(A), Minus(A), Plus(A)),
        Pattern(Plus(A), Plus(A), Plus(A)),
        Pattern(Minus(A), Plus(A), Plus(A)) ]
    case Octahedron =>
      [ Pattern(Plus(A), Zero, Zero),
        Pattern(Minus(A), Zero, Zero),
        Pattern(Zero, Plus(A), Zero),
        Pattern(Zero, Minus(A), Zero),
        Pattern(Zero, Zero, Plus(A)),
        Pattern(Zero, Zero, Minus(A)) ]
    case Dodecahedron =>
      [ Pattern(Plus(A), Plus(A), Plus(A)),
        Pattern(Plus(A), Plus(A), Minus(A)),
        Pattern(Plus(A), Minus(A), Plus(A)),
        Pattern(Plus(A), Minus(A), Minus(A)),
        Pattern(Minus(A), Plus(A), Plus(A)),
        Pattern(Minus(A), Plus(A), Minus(A)),
        Pattern(Minus(A), Minus(A), Plus(A)),
        Pattern(Minus(A), Minus(A), Minus(A)),
        Pattern(Zero, Plus(B), Plus(C)),
        Pattern(Zero, Plus(B), Minus(C)),
        Pattern(Zero, Minus(B), Plus(C)),
        Pattern(Zero, Minus(B), Minus(C)),
        Pattern(Plus(B), Plus(C), Zero),
        Pattern(Plus(B), Minus(C), Zero),
        Pattern(Minus(B), Plus(C), Zero),
        Pattern(Minus(B), Minus(C), Zero),
        Pattern(Plus(C), Zero, Plus(B)),
        Pattern(Plus(C), Zero, Minus(B)),
        Pattern(Minus(C), Zero, Plus(B)),
        Pattern(Minus(C), Zero, Minus(B)) ]
    case Icosahedron =>
      [ Pattern(Zero, Plus(A), Plus(B)),
        Pattern(Zero, Plus(A), Minus(B)),
        Pattern(Zero, Minus(A), Plus(B)),
        Pattern(Zero, Minus(A), Minus(B)),
        Pattern(Plus(A), Plus(B), Zero),
        Pattern(Plus(A), Minus(B), Zero),
        Pattern(Minus(A), Plus(B), Zero),
        Pattern(Minus(A), Minus(B), Zero),
        Pattern(Plus(B), Zero, Plus(A)),
        Pattern(Plus(B), Zero, Minus(A)),
        Pattern(Minus(B), Zero, Plus(A)),
        Pattern(Minus(B), Zero, Minus(A)) ]
  }

  /** `polyhedronData[key].vertices(size)`: the generator returns the same
      number of vertices whatever the size. */
  function Vertices(s: Shape, size: real, sqrt: real -> real): (vs: seq<Vec3>)
    requires SqrtOk(sqrt)
    ensures |vs| == VertexCount(s)
  {
    var m := Scales(s, size, sqrt);
    var ps := Patterns(s);
    seq(|ps|, i requires 0 <= i < |ps| => Point(ps[i], m))
  }

  // ---------------------------------------------------------------------------
  // Edge tables

  /** `polyhedronData[key].edges`, in the order main.js lists them. */
  function Edges(s: Shape): (es: seq<Edge>)
    ensures |es| == EdgeCount(s)
  {
    match s
    case Tetrahedron =>
      [(0, 1), (0, 2), (0, 3), (1, 2), (1, 3), (2, 3)]
    case Cube =>
      [(0, 1), (1, 2), (2, 3), (3, 0),
       (4, 5), (5, 6), (6, 7), (7, 4),
       (0, 4), (1, 5), (2, 6), (3, 7)]
    case Octahedron =>
      [(0, 2), (0, 4), (0, 3), (0, 5),
       (1, 2), (1, 4), (1, 3), (1, 5),
       (2, 4), (2, 5), (3, 4), (3, 5)]
    case Dodecahedron =>
      [(0, 8), (0, 12), (0, 16), (1, 9), (1, 12), (1, 17),
       (2, 10), (2, 13), (2, 16), (3, 11), (3, 13), (3, 17),
       (4, 8), (4, 14), (4, 18), (5, 9), (5, 14), (5, 19),
       (6, 10), (6, 15), (6, 18), (7, 11), (7, 15), (7, 19),
       (8, 10), (9, 11), (12, 14), (13, 15), (16, 17), (18, 19)]
    case Icosahedron =>
      [(0, 2), (0, 4), (0, 6), (0, 8), (0, 10),
       (1, 3), (1, 4), (1, 6), (1, 9), (1, 11),
       (2, 5), (2, 7), (2, 8), (2, 10),
       (3, 5), (3, 7), (3, 9), (3, 11),
       (4, 6), (4, 8), (4, 9),
       (5, 7), (5, 8), (5, 9),
       (6, 10), (6, 11),
       (7, 10), (7, 11),
       (8, 9), (10, 11)]
  }

  /** The same undirected edge, whichever way round it is written. */
  predicate SameEdge(e: Edge, f: Edge) {
    (e.0 == f.0 && e.1 == f.1) || (e.0 == f.1 && e.1 == f.0)
  }

  /** Every index is a vertex of an `n`-vertex solid and no edge is a loop. */
  predicate EdgesInRange(es: seq<Edge>, n: nat) {
    forall i :: 0 <= i < |es| ==> es[i].0 < n && es[i].1 < n && es[i].0 != es[i].1
  }

  /** No undirected edge is listed twice. */
  predicate NoRepeatedEdge(es: seq<Edge>) {
    forall i, j :: 0 <= i < j < |es| ==> !SameEdge(es[i], es[j])
  }

  /** Whether edge `e` has `v` as an endpoint (1) or not (0). */
  function Hit(e: Edge, v: nat): nat {
    if e.0 == v || e.1 == v then 1 else 0
  }

  /** The number of listed edges that end at vertex `v`. */
  function Degree(es: seq<Edge>, v: nat): nat {
    if es == [] then 0 else Hit(es[0], v) + Degree(es[1..], v)
  }
}
