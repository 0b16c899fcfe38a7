/** The wireframe of one polyhedron (`createObjGeometry` in main.js): a
    THREE.Group whose children are one line per edge, each pulled in by
    `gap` at both ends and dropped when nothing of it is left, plus, when
    `gap` is positive, one points object marking every vertex. */
module Mesh {
  import opened Options
  import opened Vectors
  import opened Catalog
  import opened EdgeTables
  import opened VertexTables

  /** The colour of a material: a CSS colour as the colour picker gives it,
      or the fully saturated colour of the given hue that the colour cycle
      sets (`setHSL(hue / 360, 1, 0.5)`). */
  datatype Color = Css(name: string) | Hue(degrees: real)

  /** A child object of a polyhedron's group. */
  datatype Child =
    | Line(start: Vec3, end: Vec3, color: Color)
    | Points(positions: seq<Vec3>, color: Color)

  /** The same child drawn in another colour (`material.color.set`): only
      the colour changes, the kind of child and its geometry stay. */
  function Recolor(c: Child, color: Color): (r: Child)
    ensures r.color == color
    ensures r.Line? == c.Line?
    ensures c.Line? ==> r.start == c.start && r.end == c.end
    ensures c.Points? ==> r.positions == c.positions
  {
    match c
    case Line(a, b, _) => Line(a, b, color)
    case Points(ps, _) => Points(ps, color)
  }

  // ---------------------------------------------------------------------------
  // Specification

  /** The unit direction from `a` to `b`, or the zero vector when they meet. */
  function Direction(a: Vec3, b: Vec3, sqrt: real -> real): Vec3 {
    Normalize(Sub(b, a), sqrt)
  }

  /** The ends of the line drawn for the edge from `a` to `b`: each end
      moved `gap` along the edge towards the other. */
  function ShrunkStart(a: Vec3, b: Vec3, gap: real, sqrt: real -> real): Vec3 {
    Add(a, Scale(gap, Direction(a, b, sqrt)))
  }

  function ShrunkEnd(a: Vec3, b: Vec3, gap: real, sqrt: real -> real): Vec3 {
    Sub(b, Scale(gap, Direction(a, b, sqrt)))
  }

  /** Whether anything of the edge is left to draw. */
  predicate Kept(a: Vec3, b: Vec3, gap: real, sqrt: real -> real) {
    Distance(ShrunkStart(a, b, gap, sqrt), ShrunkEnd(a, b, gap, sqrt), sqrt) > 0.0
  }

  function EdgeLine(a: Vec3, b: Vec3, gap: real, color: Color, sqrt: real -> real): Child {
    Line(ShrunkStart(a, b, gap, sqrt), ShrunkEnd(a, b, gap, sqrt), color)
  }

  /** The lines created for the edges `es` over the vertices `vs`, in the
      order of the edges. */
  function EdgeLines(vs: seq<Vec3>, es: seq<Edge>, gap: real, color: Color, sqrt: real -> real): seq<Child>
    requires EdgesInRange(es, |vs|)
  {
    if es == [] then []
    else
      var e := es[|es| - 1];
      EdgeLines(vs, es[..|es| - 1], gap, color, sqrt)
        + (if Kept(vs[e.0], vs[e.1], gap, sqrt) then [EdgeLine(vs[e.0], vs[e.1], gap, color, sqrt)] else [])
  }

  /** The lines of the edges followed, when the gap is positive, by the
      points marking the vertices. */
  function Wireframe(vs: seq<Vec3>, es: seq<Edge>, gap: real, color: Color, sqrt: real -> real): seq<Child>
    requires EdgesInRange(es, |vs|)
  {
    EdgeLines(vs, es, gap, color, sqrt) + (if gap > 0.0 then [Points(vs, color)] else [])
  }

  /** The children `createObjGeometry` gives a group for shape `s`. */
  function Geometry(s: Shape, gap: real, color: Color, size: real, sqrt: real -> real): seq<Child>
    requires SqrtOk(sqrt)
  {
    EdgesWellFormed(s);
    Wireframe(Vertices(s, size, sqrt), Edges(s), gap, color, sqrt)
  }

  // ---------------------------------------------------------------------------
  // The group

  /** A THREE.Group: its position, its rotation (Euler angles) and its
      children. */
  class Group {
    var position: Vec3
    var rotation: Vec3
    var children: seq<Child>

    constructor ()
      ensures position == Origin && rotation == Origin && children == []
    {
      position := Origin;
      rotation := Origin;
      children := [];
    }
  }

  /** createObjGeometry(group, gap, color, size, key): removes every child of
      the group, then adds the lines and the points of the shape with face
      count `key`. For a key that is not in the catalog it fails
      (a TypeError) after the children are gone: `ok` is false and the
      group is left empty. */
  method CreateGeometry(group: Group, gap: real, color: Color, size: real, key: int, sqrt: real -> real)
    returns (ok: bool, edgeLines: seq<Child>, vertexPoints: seq<Child>)
    requires SqrtOk(sqrt)
    modifies group
    ensures ok <==> Lookup(key).Some?
    ensures ok ==> group.children == edgeLines + vertexPoints
                   && group.children == Geometry(Lookup(key).value, gap, color, size, sqrt)
    ensures !ok ==> group.children == []
    ensures group.position == old(group.position) && group.rotation == old(group.rotation)
  {
    while |group.children| > 0
      invariant group.position == old(group.position) && group.rotation == old(group.rotation)
      decreases |group.children|
    {
      group.children := group.children[1..];
    }
    var polyhedron := Lookup(key);
    if polyhedron.None? {
      return false, [], [];
    }
    var s := polyhedron.value;
    EdgesWellFormed(s);
    var vertices := Vertices(s, size, sqrt);
    edgeLines := AddEdgeLines(group, vertices, Edges(s), gap, color, sqrt);
    vertexPoints := [];
    if gap > 0.0 {
      var points := Points(vertices, color);
      group.children := group.children + [points];
      vertexPoints := vertexPoints + [points];
    }
    ok := true;
  }

  /** The `edgeList.forEach` loop of createObjGeometry: adds to the group,
      edge by edge, the line of every edge that keeps some length. */
  method AddEdgeLines(group: Group, vertices: seq<Vec3>, edgeList: seq<Edge>, gap: real, color: Color,
                      sqrt: real -> real)
    returns (edgeLines: seq<Child>)
    requires EdgesInRange(edgeList, |vertices|)
    modifies group
    ensures edgeLines == EdgeLines(vertices, edgeList, gap, color, sqrt)
    ensures group.children == old(group.children) + edgeLines
    ensures group.position == old(group.position) && group.rotation == old(group.rotation)
  {
    edgeLines := [];
    var i := 0;
    while i < |edgeList|
      invariant 0 <= i <= |edgeList|
      invariant edgeLines == EdgeLines(vertices, edgeList[..i], gap, color, sqrt)
      invariant group.children == old(group.children) + edgeLines
      invariant group.position == old(group.position) && group.rotation == old(group.rotation)
    {
      var (startIdx, endIdx) := edgeList[i];
      var start, end := vertices[startIdx], vertices[endIdx];
      var direction := Sub(end, start);
      direction := Normalize(direction, sqrt);
      var newStart := Add(start, Scale(gap, direction));
      var newEnd := Sub(end, Scale(gap, direction));
      if Distance(newStart, newEnd, sqrt) > 0.0 {
        var line := Line(newStart, newEnd, color);
        group.children := group.children + [line];
        edgeLines := edgeLines + [line];
      }
      assert edgeList[..i + 1][..i] == edgeList[..i];
      i := i + 1;
    }
    assert edgeList[..i] == edgeList;
  }

  // ---------------------------------------------------------------------------
  // Which edges are drawn

  /** What is left of the edge from `a` to `b` after pulling both ends in by
      `gap` is the edge scaled by (L - 2 gap) / L, where L is its length: a
      shorter copy while gap < L / 2, and a reversed one beyond. */
  lemma ShrunkSpan(a: Vec3, b: Vec3, gap: real, sqrt: real -> real)
    requires SqrtOk(sqrt) && a != b
    ensures Length(Sub(b, a), sqrt) > 0.0
    ensures var len := Length(Sub(b, a), sqrt);
            Sub(ShrunkEnd(a, b, gap, sqrt), ShrunkStart(a, b, gap, sqrt)) == Scale((len - 2.0 * gap) / len, Sub(b, a))
  {
    var d := Sub(b, a);
    DistancePositiveIff(b, a, sqrt);
    var len := Length(d, sqrt);
    var dir := Direction(a, b, sqrt);
    assert dir == Scale(1.0 / len, d);
    PullInSpan(a, b, gap, dir);
    PullInScale(d, gap, len);
  }

  /** Moving both ends of a segment inwards by `gap` along `dir` shortens it
      by 2 * gap along `dir`. */
  lemma PullInSpan(a: Vec3, b: Vec3, gap: real, dir: Vec3)
    ensures Sub(Sub(b, Scale(gap, dir)), Add(a, Scale(gap, dir))) == Sub(Sub(b, a), Scale(2.0 * gap, dir))
  {
  }

  lemma PullInScale(d: Vec3, gap: real, len: real)
    requires len != 0.0
    ensures Sub(d, Scale(2.0 * gap, Scale(1.0 / len, d))) == Scale((len - 2.0 * gap) / len, d)
  {
    PullIn(d.x, gap, len);
    PullIn(d.y, gap, len);
    PullIn(d.z, gap, len);
  }

  lemma PullIn(x: real, gap: real, len: real)
    requires len != 0.0
    ensures x - 2.0 * gap * ((1.0 / len) * x) == ((len - 2.0 * gap) / len) * x
  {
  }

  /** An edge of length L is drawn exactly when its two end vertices differ
      and L is not 2 * gap. In particular the line of an edge shorter than
      2 * gap is still drawn, from the far end back towards the near one. */
  lemma KeptIff(a: Vec3, b: Vec3, gap: real, sqrt: real -> real)
    requires SqrtOk(sqrt)
    ensures Kept(a, b, gap, sqrt) <==> a != b && Length(Sub(b, a), sqrt) != 2.0 * gap
  {
    var s, e := ShrunkStart(a, b, gap, sqrt), ShrunkEnd(a, b, gap, sqrt);
    DistancePositiveIff(s, e, sqrt);
    if a == b {
      assert Sub(b, a) == Origin;
      assert Direction(a, b, sqrt) == Origin;
      assert s == a && e == b;
    } else {
      ShrunkSpan(a, b, gap, sqrt);
      var len := Length(Sub(b, a), sqrt);
      var t := (len - 2.0 * gap) / len;
      ScaleZero(t, Sub(b, a));
      assert Sub(b, a) != Origin;
      assert s == e <==> Sub(e, s) == Origin;
      assert t == 0.0 <==> len == 2.0 * gap;
    }
  }

  /** An edge pulled in by more than half its length is kept, and its line
      points the opposite way to the edge. */
  lemma InvertedEdgeKept(a: Vec3, b: Vec3, gap: real, sqrt: real -> real)
    requires SqrtOk(sqrt) && a != b
    requires 2.0 * gap > Length(Sub(b, a), sqrt)
    ensures Kept(a, b, gap, sqrt)
    ensures exists t: real :: t < 0.0
              && Sub(ShrunkEnd(a, b, gap, sqrt), ShrunkStart(a, b, gap, sqrt)) == Scale(t, Sub(b, a))
  {
    KeptIff(a, b, gap, sqrt);
    ShrunkSpan(a, b, gap, sqrt);
    var len := Length(Sub(b, a), sqrt);
    var t := (len - 2.0 * gap) / len;
    assert t < 0.0;
  }

  /** With no gap, the line of an edge between two different points is the
      whole edge. */
  lemma NoGapWholeEdge(a: Vec3, b: Vec3, color: Color, sqrt: real -> real)
    requires SqrtOk(sqrt) && a != b
    ensures Kept(a, b, 0.0, sqrt)
    ensures EdgeLine(a, b, 0.0, color, sqrt) == Line(a, b, color)
  {
    KeptIff(a, b, 0.0, sqrt);
    DistancePositiveIff(b, a, sqrt);
  }

  // ---------------------------------------------------------------------------
  // The lines, in edge order

  /** The indices of the edges that keep a line, in increasing order: each
      edge is listed once exactly when it is kept. */
  function KeptIndices(vs: seq<Vec3>, es: seq<Edge>, gap: real, sqrt: real -> real): (idx: seq<nat>)
    requires EdgesInRange(es, |vs|)
    ensures forall k :: 0 <= k < |idx| ==> idx[k] < |es|
    ensures forall k, l :: 0 <= k < l < |idx| ==> idx[k] < idx[l]
  {
    if es == [] then []
    else
      var n := |es| - 1;
      var e := es[n];
      KeptIndices(vs, es[..n], gap, sqrt) + (if Kept(vs[e.0], vs[e.1], gap, sqrt) then [n] else [])
  }

  /** KeptIndices lists exactly the kept edges. */
  lemma {:induction false} KeptIndicesExact(vs: seq<Vec3>, es: seq<Edge>, gap: real, sqrt: real -> real)
    requires EdgesInRange(es, |vs|)
    ensures forall i :: 0 <= i < |es| ==>
              (i in KeptIndices(vs, es, gap, sqrt) <==> Kept(vs[es[i].0], vs[es[i].1], gap, sqrt))
  {
    if es != [] {
      var n := |es| - 1;
      var front := es[..n];
      var e := es[n];
      var kept := Kept(vs[e.0], vs[e.1], gap, sqrt);
      KeptIndicesExact(vs, front, gap, sqrt);
      var idx0 := KeptIndices(vs, front, gap, sqrt);
      var idx := KeptIndices(vs, es, gap, sqrt);
      assert idx == idx0 + (if kept then [n] else []);
      forall i | 0 <= i < |es|
        ensures i in idx <==> Kept(vs[es[i].0], vs[es[i].1], gap, sqrt)
      {
        if i < n {
          assert front[i] == es[i];
          assert n !in idx0;
        }
      }
    }
  }

  /** createObjGeometry adds one line per kept edge, in the order of the
      edge table, and nothing for the others. */
  lemma {:induction false} EdgeLinesInOrder(vs: seq<Vec3>, es: seq<Edge>, gap: real, color: Color, sqrt: real -> real)
    requires EdgesInRange(es, |vs|)
    ensures var idx := KeptIndices(vs, es, gap, sqrt);
            var lines := EdgeLines(vs, es, gap, color, sqrt);
            |lines| == |idx|
            && forall k :: 0 <= k < |idx| ==>
                 lines[k] == EdgeLine(vs[es[idx[k]].0], vs[es[idx[k]].1], gap, color, sqrt)
  {
    if es != [] {
      var n := |es| - 1;
      var front := es[..n];
      var e := es[n];
      var kept := Kept(vs[e.0], vs[e.1], gap, sqrt);
      EdgeLinesInOrder(vs, front, gap, color, sqrt);
      var idx0 := KeptIndices(vs, front, gap, sqrt);
      var lines0 := EdgeLines(vs, front, gap, color, sqrt);
      var idx := KeptIndices(vs, es, gap, sqrt);
      var lines := EdgeLines(vs, es, gap, color, sqrt);
      assert idx == idx0 + (if kept then [n] else []);
      assert lines == lines0 + (if kept then [EdgeLine(vs[e.0], vs[e.1], gap, color, sqrt)] else []);
      forall k | 0 <= k < |idx|
        ensures lines[k] == EdgeLine(vs[es[idx[k]].0], vs[es[idx[k]].1], gap, color, sqrt)
      {
        if k < |idx0| {
          assert idx[k] == idx0[k] && lines[k] == lines0[k];
          assert front[idx0[k]] == es[idx0[k]];
        }
      }
    }
  }

  /** No edge gives more than one line. */
  lemma EdgeLinesBound(vs: seq<Vec3>, es: seq<Edge>, gap: real, color: Color, sqrt: real -> real)
    requires EdgesInRange(es, |vs|)
    ensures |EdgeLines(vs, es, gap, color, sqrt)| <= |es|
  {
    var idx := KeptIndices(vs, es, gap, sqrt);
    EdgeLinesInOrder(vs, es, gap, color, sqrt);
    IncreasingBound(idx, |es|);
  }

  lemma {:induction false} IncreasingBound(idx: seq<nat>, n: nat)
    requires forall k :: 0 <= k < |idx| ==> idx[k] < n
    requires forall k, l :: 0 <= k < l < |idx| ==> idx[k] < idx[l]
    ensures |idx| <= n
  {
    if idx != [] {
      var m := |idx| - 1;
      IncreasingBound(idx[..m], idx[m]);
    }
  }

  /** Without a gap every edge between two different points is drawn whole,
      one line per edge in table order. */
  lemma {:induction false} NoGapLines(vs: seq<Vec3>, es: seq<Edge>, color: Color, sqrt: real -> real)
    requires SqrtOk(sqrt) && EdgesInRange(es, |vs|)
    requires forall i :: 0 <= i < |es| ==> vs[es[i].0] != vs[es[i].1]
    ensures EdgeLines(vs, es, 0.0, color, sqrt)
            == seq(|es|, i requires 0 <= i < |es| => Line(vs[es[i].0], vs[es[i].1], color))
  {
    if es != [] {
      var n := |es| - 1;
      assert forall i :: 0 <= i < n ==> es[..n][i] == es[i];
      NoGapLines(vs, es[..n], color, sqrt);
      NoGapWholeEdge(vs[es[n].0], vs[es[n].1], color, sqrt);
    }
  }

  /** Every line is drawn in the given colour. */
  lemma {:induction false} EdgeLinesAreLines(vs: seq<Vec3>, es: seq<Edge>, gap: real, color: Color, sqrt: real -> real)
    requires EdgesInRange(es, |vs|)
    ensures forall k :: 0 <= k < |EdgeLines(vs, es, gap, color, sqrt)| ==>
              EdgeLines(vs, es, gap, color, sqrt)[k].Line?
              && EdgeLines(vs, es, gap, color, sqrt)[k].color == color
  {
    if es != [] {
      var n := |es| - 1;
      assert forall i :: 0 <= i < n ==> es[..n][i] == es[i];
      EdgeLinesAreLines(vs, es[..n], gap, color, sqrt);
    }
  }

  // ---------------------------------------------------------------------------
  // The whole geometry

  /** All children are drawn in the given colour; the vertex points are
      there, as the last child and once, exactly when the gap is positive. */
  lemma GeometryShape(s: Shape, gap: real, color: Color, size: real, sqrt: real -> real)
    requires SqrtOk(sqrt)
    ensures var g := Geometry(s, gap, color, size, sqrt);
            (forall k :: 0 <= k < |g| ==> g[k].color == color)
            && (forall k :: 0 <= k < |g| && g[k].Points? ==> gap > 0.0 && k == |g| - 1)
            && (gap > 0.0 ==> |g| > 0 && g[|g| - 1] == Points(Vertices(s, size, sqrt), color))
            && |g| <= EdgeCount(s) + 1
  {
    EdgesWellFormed(s);
    var vs := Vertices(s, size, sqrt);
    EdgeLinesAreLines(vs, Edges(s), gap, color, sqrt);
    EdgeLinesBound(vs, Edges(s), gap, color, sqrt);
  }

  /** With no gap, a solid of non-zero size is drawn as every edge whole,
      in table order, and without the points object. */
  lemma NoGapGeometry(s: Shape, color: Color, size: real, sqrt: real -> real)
    requires SqrtOk(sqrt) && size != 0.0
    ensures var vs, es := Vertices(s, size, sqrt), Edges(s);
            EdgesInRange(es, |vs|)
            && Geometry(s, 0.0, color, size, sqrt)
               == seq(|es|, i requires 0 <= i < |es| => Line(vs[es[i].0], vs[es[i].1], color))
    ensures |Geometry(s, 0.0, color, size, sqrt)| == EdgeCount(s)
    ensures forall k :: 0 <= k < EdgeCount(s) ==> Geometry(s, 0.0, color, size, sqrt)[k].Line?
  {
    var vs, es := Vertices(s, size, sqrt), Edges(s);
    EdgeEndsDistinct(s, size, sqrt);
    NoGapLines(vs, es, color, sqrt);
    assert Geometry(s, 0.0, color, size, sqrt) == EdgeLines(vs, es, 0.0, color, sqrt);
  }

  /** The cube with no gap, as at start-up: twelve lines and no points
      object. */
  lemma NoGapCube(color: Color, size: real, sqrt: real -> real)
    requires SqrtOk(sqrt) && size != 0.0
    ensures |Geometry(Cube, 0.0, color, size, sqrt)| == 12
    ensures forall k :: 0 <= k < 12 ==> Geometry(Cube, 0.0, color, size, sqrt)[k].Line?
  {
    NoGapGeometry(Cube, color, size, sqrt);
  }

  /** Every child recoloured (`material.color.set` on each). */
  function RecolorAll(cs: seq<Child>, color: Color): seq<Child> {
    seq(|cs|, k requires 0 <= k < |cs| => Recolor(cs[k], color))
  }

  /** Recolouring keeps the children, their order, their kinds and their
      geometry, and gives every one of them the new colour. */
  lemma RecolorKeeps(cs: seq<Child>, color: Color)
    ensures |RecolorAll(cs, color)| == |cs|
    ensures forall k :: 0 <= k < |cs| ==>
              var r := RecolorAll(cs, color)[k];
              r.color == color && r.Line? == cs[k].Line?
              && (cs[k].Line? ==> r.start == cs[k].start && r.end == cs[k].end)
              && (cs[k].Points? ==> r.positions == cs[k].positions)
  {
  }

  /** Only the last recolouring shows. */
  lemma RecolorTwice(cs: seq<Child>, c1: Color, c2: Color)
    ensures RecolorAll(RecolorAll(cs, c1), c2) == RecolorAll(cs, c2)
  {
  }

  /** `group.children.forEach(child => child.material.color.set(color))`:
      every child of the group, one after the other, takes the new colour. */
  method PaintChildren(group: Group, color: Color)
    modifies group
    ensures group.children == RecolorAll(old(group.children), color)
    ensures group.position == old(group.position) && group.rotation == old(group.rotation)
  {
    var k := 0;
    while k < |group.children|
      invariant 0 <= k <= |group.children| == |old(group.children)|
      invariant forall j :: 0 <= j < k ==> group.children[j] == Recolor(old(group.children)[j], color)
      invariant forall j :: k <= j < |group.children| ==> group.children[j] == old(group.children)[j]
      invariant group.position == old(group.position) && group.rotation == old(group.rotation)
    {
      group.children := group.children[k := Recolor(group.children[k], color)];
      k := k + 1;
    }
  }

  lemma RecolorAppend(a: seq<Child>, b: seq<Child>, color: Color)
    ensures RecolorAll(a + b, color) == RecolorAll(a, color) + RecolorAll(b, color)
  {
  }

  lemma {:induction false} RecolorEdgeLines(vs: seq<Vec3>, es: seq<Edge>, gap: real, c1: Color, c2: Color, sqrt: real -> real)
    requires EdgesInRange(es, |vs|)
    ensures RecolorAll(EdgeLines(vs, es, gap, c1, sqrt), c2) == EdgeLines(vs, es, gap, c2, sqrt)
  {
    if es != [] {
      var n := |es| - 1;
      assert forall i :: 0 <= i < n ==> es[..n][i] == es[i];
      var e := es[n];
      var kept := Kept(vs[e.0], vs[e.1], gap, sqrt);
      RecolorEdgeLines(vs, es[..n], gap, c1, c2, sqrt);
      var tail1: seq<Child> := if kept then [EdgeLine(vs[e.0], vs[e.1], gap, c1, sqrt)] else [];
      var tail2: seq<Child> := if kept then [EdgeLine(vs[e.0], vs[e.1], gap, c2, sqrt)] else [];
      assert EdgeLines(vs, es, gap, c1, sqrt) == EdgeLines(vs, es[..n], gap, c1, sqrt) + tail1;
      assert EdgeLines(vs, es, gap, c2, sqrt) == EdgeLines(vs, es[..n], gap, c2, sqrt) + tail2;
      RecolorAppend(EdgeLines(vs, es[..n], gap, c1, sqrt), tail1, c2);
      assert RecolorAll(tail1, c2) == tail2;
    }
  }

  lemma RecolorWireframe(vs: seq<Vec3>, es: seq<Edge>, gap: real, c1: Color, c2: Color, sqrt: real -> real)
    requires EdgesInRange(es, |vs|)
    ensures RecolorAll(Wireframe(vs, es, gap, c1, sqrt), c2) == Wireframe(vs, es, gap, c2, sqrt)
  {
    var ls := EdgeLines(vs, es, gap, c1, sqrt);
    var ps: seq<Child> := if gap > 0.0 then [Points(vs, c1)] else [];
    RecolorEdgeLines(vs, es, gap, c1, c2, sqrt);
    RecolorAppend(ls, ps, c2);
  }

  /** Recolouring every child of a polyhedron gives the geometry built in
      the new colour. */
  lemma RecolorGeometry(s: Shape, gap: real, c1: Color, c2: Color, size: real, sqrt: real -> real)
    requires SqrtOk(sqrt)
    ensures RecolorAll(Geometry(s, gap, c1, size, sqrt), c2) == Geometry(s, gap, c2, size, sqrt)
  {
    EdgesWellFormed(s);
    RecolorWireframe(Vertices(s, size, sqrt), Edges(s), gap, c1, c2, sqrt);
  }
}
