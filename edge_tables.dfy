/** Properties of the five edge tables of `polyhedronData`: every index names
    a vertex, no edge is a loop or listed twice, and every vertex of a solid
    lies on the same number of edges (3, 3, 4, 3 and 5).

    The two 30-edge tables are handled in rows of six edges,
    because indexing a 30-element literal directly is beyond what the solver
    does cheaply. */
module EdgeTables {
  import opened Catalog

  // ---------------------------------------------------------------------------
  // Generic facts about edge lists

  lemma {:induction false} DegreeAppend(a: seq<Edge>, b: seq<Edge>, v: nat)
    ensures Degree(a + b, v) == Degree(a, v) + Degree(b, v)
  {
    if a == [] {
      assert a + b == b;
    } else {
      assert (a + b)[1..] == a[1..] + b;
      DegreeAppend(a[1..], b, v);
    }
  }

  lemma DegreeOfSix(es: seq<Edge>, v: nat)
    requires |es| == 6
    ensures Degree(es, v) == Hit(es[0], v) + Hit(es[1], v) + Hit(es[2], v)
                           + Hit(es[3], v) + Hit(es[4], v) + Hit(es[5], v)
  {
    var t := es;
    assert Degree(t, v) == Hit(t[0], v) + Degree(t[1..], v);
    t := t[1..];
    assert Degree(t, v) == Hit(t[0], v) + Degree(t[1..], v);
    t := t[1..];
    assert Degree(t, v) == Hit(t[0], v) + Degree(t[1..], v);
    t := t[1..];
    assert Degree(t, v) == Hit(t[0], v) + Degree(t[1..], v);
    t := t[1..];
    assert Degree(t, v) == Hit(t[0], v) + Degree(t[1..], v);
    t := t[1..];
    assert Degree(t, v) == Hit(t[0], v) + Degree(t[1..], v);
    assert t[1..] == [];
  }

  lemma DegreeOfTwelve(es: seq<Edge>, v: nat)
    requires |es| == 12
    ensures Degree(es, v) == Hit(es[0], v) + Hit(es[1], v) + Hit(es[2], v)
                           + Hit(es[3], v) + Hit(es[4], v) + Hit(es[5], v)
                           + Hit(es[6], v) + Hit(es[7], v) + Hit(es[8], v)
                           + Hit(es[9], v) + Hit(es[10], v) + Hit(es[11], v)
  {
    assert es == es[..6] + es[6..];
    DegreeAppend(es[..6], es[6..], v);
    DegreeOfSix(es[..6], v);
    DegreeOfSix(es[6..], v);
  }

  /** An order on undirected edges: the key of the smaller endpoint first. */
  function EdgeKey(e: Edge): nat {
    if e.0 <= e.1 then e.0 * 32 + e.1 else e.1 * 32 + e.0
  }

  /** Each edge's key is smaller than the next one's. */
  predicate Ascending(es: seq<Edge>) {
    forall i :: 0 <= i < |es| - 1 ==> EdgeKey(es[i]) < EdgeKey(es[i + 1])
  }

  lemma AscendingAppend(a: seq<Edge>, b: seq<Edge>)
    requires Ascending(a) && Ascending(b)
    requires a != [] && b != [] && EdgeKey(a[|a| - 1]) < EdgeKey(b[0])
    ensures Ascending(a + b)
  {
    forall i | 0 <= i < |a + b| - 1
      ensures EdgeKey((a + b)[i]) < EdgeKey((a + b)[i + 1])
    {
      if i == |a| - 1 {
      } else if i < |a| - 1 {
        assert (a + b)[i] == a[i] && (a + b)[i + 1] == a[i + 1];
      } else {
        assert (a + b)[i] == b[i - |a|] && (a + b)[i + 1] == b[i - |a| + 1];
      }
    }
  }

  /** In an ascending list every later key is larger, not only the next. */
  lemma {:induction false} AscendingIncreases(es: seq<Edge>, i: nat, j: nat)
    requires Ascending(es) && i < j < |es|
    ensures EdgeKey(es[i]) < EdgeKey(es[j])
    decreases j - i
  {
    if j > i + 1 {
      AscendingIncreases(es, i + 1, j);
    }
  }

  /** Sorting by key rules out a repeated edge, written either way round. */
  lemma AscendingNoRepeat(es: seq<Edge>)
    requires Ascending(es)
    ensures NoRepeatedEdge(es)
  {
    forall i, j | 0 <= i < j < |es|
      ensures !SameEdge(es[i], es[j])
    {
      AscendingIncreases(es, i, j);
    }
  }

  lemma InRangeAppend(a: seq<Edge>, b: seq<Edge>, n: nat)
    requires EdgesInRange(a, n) && EdgesInRange(b, n)
    ensures EdgesInRange(a + b, n)
  {
    forall i | 0 <= i < |a + b|
      ensures (a + b)[i].0 < n && (a + b)[i].1 < n && (a + b)[i].0 != (a + b)[i].1
    {
      if i < |a| {
        assert (a + b)[i] == a[i];
      } else {
        assert (a + b)[i] == b[i - |a|];
      }
    }
  }

  // ---------------------------------------------------------------------------
  // The two 30-edge tables, in rows of six

  function DodecahedronRow0(): seq<Edge> {
    [(0, 8), (0, 12), (0, 16), (1, 9), (1, 12), (1, 17)]
  }

  function DodecahedronRow1(): seq<Edge> {
    [(2, 10), (2, 13), (2, 16), (3, 11), (3, 13), (3, 17)]
  }

  function DodecahedronRow2(): seq<Edge> {
    [(4, 8), (4, 14), (4, 18), (5, 9), (5, 14), (5, 19)]
  }

  function DodecahedronRow3(): seq<Edge> {
    [(6, 10), (6, 15), (6, 18), (7, 11), (7, 15), (7, 19)]
  }

  function DodecahedronRow4(): seq<Edge> {
    [(8, 10), (9, 11), (12, 14), (13, 15), (16, 17), (18, 19)]
  }

  lemma DodecahedronRows()
    ensures Edges(Dodecahedron) == DodecahedronRow0() + DodecahedronRow1() + DodecahedronRow2() + DodecahedronRow3() + DodecahedronRow4()
  {
  }

  lemma DodecahedronRowsInRange()
    ensures EdgesInRange(DodecahedronRow0(), 20)
    ensures EdgesInRange(DodecahedronRow1(), 20)
    ensures EdgesInRange(DodecahedronRow2(), 20)
    ensures EdgesInRange(DodecahedronRow3(), 20)
    ensures EdgesInRange(DodecahedronRow4(), 20)
  {
  }

  lemma DodecahedronRowsAscending()
    ensures Ascending(DodecahedronRow0())
    ensures Ascending(DodecahedronRow1())
    ensures Ascending(DodecahedronRow2())
    ensures Ascending(DodecahedronRow3())
    ensures Ascending(DodecahedronRow4())
  {
  }

  /** How many edges of row `k` end at vertex `v`. */
  function DodecahedronRowDegree(k: nat, v: nat): nat {
    match k
    case 0 =>
      if v == 0 || v == 1 then 3
      else if v == 12 then 2
      else if v == 8 || v == 9 || v == 16 || v == 17 then 1
      else 0
    case 1 =>
      if v == 2 || v == 3 then 3
      else if v == 13 then 2
      else if v == 10 || v == 11 || v == 16 || v == 17 then 1
      else 0
    case 2 =>
      if v == 4 || v == 5 then 3
      else if v == 14 then 2
      else if v == 8 || v == 9 || v == 18 || v == 19 then 1
      else 0
    case 3 =>
      if v == 6 || v == 7 then 3
      else if v == 15 then 2
      else if v == 10 || v == 11 || v == 18 || v == 19 then 1
      else 0
    case _ =>
      if 8 <= v < 20 then 1
      else 0
  }

  lemma DodecahedronRow0Degree(v: nat)
    ensures Degree(DodecahedronRow0(), v) == DodecahedronRowDegree(0, v)
  {
    DegreeOfSix(DodecahedronRow0(), v);
  }

  lemma DodecahedronRow1Degree(v: nat)
    ensures Degree(DodecahedronRow1(), v) == DodecahedronRowDegree(1, v)
  {
    DegreeOfSix(DodecahedronRow1(), v);
  }

  lemma DodecahedronRow2Degree(v: nat)
    ensures Degree(DodecahedronRow2(), v) == DodecahedronRowDegree(2, v)
  {
    DegreeOfSix(DodecahedronRow2(), v);
  }

  lemma DodecahedronRow3Degree(v: nat)
    ensures Degree(DodecahedronRow3(), v) == DodecahedronRowDegree(3, v)
  {
    DegreeOfSix(DodecahedronRow3(), v);
  }

  lemma DodecahedronRow4Degree(v: nat)
    ensures Degree(DodecahedronRow4(), v) == DodecahedronRowDegree(4, v)
  {
    DegreeOfSix(DodecahedronRow4(), v);
  }

  lemma DodecahedronRowDegreesSum(v: nat)
    ensures DodecahedronRowDegree(0, v) + DodecahedronRowDegree(1, v) + DodecahedronRowDegree(2, v)
          + DodecahedronRowDegree(3, v) + DodecahedronRowDegree(4, v) == if v < 20 then 3 else 0
  {
  }

  function IcosahedronRow0(): seq<Edge> {
    [(0, 2), (0, 4), (0, 6), (0, 8), (0, 10), (1, 3)]
  }

  function IcosahedronRow1(): seq<Edge> {
    [(1, 4), (1, 6), (1, 9), (1, 11), (2, 5), (2, 7)]
  }

  function IcosahedronRow2(): seq<Edge> {
    [(2, 8), (2, 10), (3, 5), (3, 7), (3, 9), (3, 11)]
  }

  function IcosahedronRow3(): seq<Edge> {
    [(4, 6), (4, 8), (4, 9), (5, 7), (5, 8), (5, 9)]
  }

  function IcosahedronRow4(): seq<Edge> {
    [(6, 10), (6, 11), (7, 10), (7, 11), (8, 9), (10, 11)]
  }

  lemma IcosahedronRows()
    ensures Edges(Icosahedron) == IcosahedronRow0() + IcosahedronRow1() + IcosahedronRow2() + IcosahedronRow3() + IcosahedronRow4()
  {
  }

  lemma IcosahedronRowsInRange()
    ensures EdgesInRange(IcosahedronRow0(), 12)
    ensures EdgesInRange(IcosahedronRow1(), 12)
    ensures EdgesInRange(IcosahedronRow2(), 12)
    ensures EdgesInRange(IcosahedronRow3(), 12)
    ensures EdgesInRange(IcosahedronRow4(), 12)
  {
  }

  lemma IcosahedronRowsAscending()
    ensures Ascending(IcosahedronRow0())
    ensures Ascending(IcosahedronRow1())
    ensures Ascending(IcosahedronRow2())
    ensures Ascending(IcosahedronRow3())
    ensures Ascending(IcosahedronRow4())
  {
  }

  /** How many edges of row `k` end at vertex `v`. */
  function IcosahedronRowDegree(k: nat, v: nat): nat {
    match k
    case 0 =>
      if v == 0 then 5
      else if v == 1 || v == 2 || v == 3 || v == 4 || v == 6 || v == 8 || v == 10 then 1
      else 0
    case 1 =>
      if v == 1 then 4
      else if v == 2 then 2
      else if v == 4 || v == 5 || v == 6 || v == 7 || v == 9 || v == 11 then 1
      else 0
    case 2 =>
      if v == 3 then 4
      else if v == 2 then 2
      else if v == 5 || v == 7 || v == 8 || v == 9 || v == 10 || v == 11 then 1
      else 0
    case 3 =>
      if v == 4 || v == 5 then 3
      else if v == 8 || v == 9 then 2
      else if v == 6 || v == 7 then 1
      else 0
    case _ =>
      if v == 10 || v == 11 then 3
      else if v == 6 || v == 7 then 2
      else if v == 8 || v == 9 then 1
      else 0
  }

  lemma IcosahedronRow0Degree(v: nat)
    ensures Degree(IcosahedronRow0(), v) == IcosahedronRowDegree(0, v)
  {
    DegreeOfSix(IcosahedronRow0(), v);
  }

  lemma IcosahedronRow1Degree(v: nat)
    ensures Degree(IcosahedronRow1(), v) == IcosahedronRowDegree(1, v)
  {
    DegreeOfSix(IcosahedronRow1(), v);
  }

  lemma IcosahedronRow2Degree(v: nat)
    ensures Degree(IcosahedronRow2(), v) == IcosahedronRowDegree(2, v)
  {
    DegreeOfSix(IcosahedronRow2(), v);
  }

  lemma IcosahedronRow3Degree(v: nat)
    ensures Degree(IcosahedronRow3(), v) == IcosahedronRowDegree(3, v)
  {
    DegreeOfSix(IcosahedronRow3(), v);
  }

  lemma IcosahedronRow4Degree(v: nat)
    ensures Degree(IcosahedronRow4(), v) == IcosahedronRowDegree(4, v)
  {
    DegreeOfSix(IcosahedronRow4(), v);
  }

  lemma IcosahedronRowDegreesSum(v: nat)
    ensures IcosahedronRowDegree(0, v) + IcosahedronRowDegree(1, v) + IcosahedronRowDegree(2, v)
          + IcosahedronRowDegree(3, v) + IcosahedronRowDegree(4, v) == if v < 12 then 5 else 0
  {
  }

  lemma TetrahedronEdgesWellFormed()
    ensures EdgesInRange(Edges(Tetrahedron), 4)
    ensures NoRepeatedEdge(Edges(Tetrahedron))
  {
    assert Ascending(Edges(Tetrahedron));
    AscendingNoRepeat(Edges(Tetrahedron));
  }

  /** No edge of `a` appears, either way round, in `b`. */
  predicate Apart(a: seq<Edge>, b: seq<Edge>) {
    forall i, j :: 0 <= i < |a| && 0 <= j < |b| ==> !SameEdge(a[i], b[j])
  }

  lemma NoRepeatAppend(a: seq<Edge>, b: seq<Edge>)
    requires NoRepeatedEdge(a) && NoRepeatedEdge(b) && Apart(a, b)
    ensures NoRepeatedEdge(a + b)
  {
    forall i, j | 0 <= i < j < |a + b|
      ensures !SameEdge((a + b)[i], (a + b)[j])
    {
      if j < |a| {
        assert (a + b)[i] == a[i] && (a + b)[j] == a[j];
      } else if i < |a| {
        assert (a + b)[i] == a[i] && (a + b)[j] == b[j - |a|];
      } else {
        assert (a + b)[i] == b[i - |a|] && (a + b)[j] == b[j - |a|];
      }
    }
  }

  /** A 12-edge table is free of repeats when both halves are and they
      share no edge. */
  lemma HalvesWellFormed(es: seq<Edge>, n: nat)
    requires |es| == 12
    requires EdgesInRange(es[..6], n) && EdgesInRange(es[6..], n)
    requires NoRepeatedEdge(es[..6]) && NoRepeatedEdge(es[6..]) && Apart(es[..6], es[6..])
    ensures EdgesInRange(es, n) && NoRepeatedEdge(es)
  {
    assert es == es[..6] + es[6..];
    InRangeAppend(es[..6], es[6..], n);
    NoRepeatAppend(es[..6], es[6..]);
  }

  function CubeHalf0(): seq<Edge> {
    [(0, 1), (1, 2), (2, 3), (3, 0), (4, 5), (5, 6)]
  }

  function CubeHalf1(): seq<Edge> {
    [(6, 7), (7, 4), (0, 4), (1, 5), (2, 6), (3, 7)]
  }

  function OctahedronHalf0(): seq<Edge> {
    [(0, 2), (0, 4), (0, 3), (0, 5), (1, 2), (1, 4)]
  }

  function OctahedronHalf1(): seq<Edge> {
    [(1, 3), (1, 5), (2, 4), (2, 5), (3, 4), (3, 5)]
  }

  lemma CubeHalves()
    ensures Edges(Cube)[..6] == CubeHalf0() && Edges(Cube)[6..] == CubeHalf1()
  {
  }

  lemma OctahedronHalves()
    ensures Edges(Octahedron)[..6] == OctahedronHalf0() && Edges(Octahedron)[6..] == OctahedronHalf1()
  {
  }

  lemma CubeHalvesInRange()
    ensures EdgesInRange(CubeHalf0(), 8) && EdgesInRange(CubeHalf1(), 8)
  {
  }

  lemma CubeHalf0NoRepeat()
    ensures NoRepeatedEdge(CubeHalf0())
  {
  }

  lemma CubeHalf1NoRepeat()
    ensures NoRepeatedEdge(CubeHalf1())
  {
  }

  lemma CubeHalvesApart()
    ensures Apart(CubeHalf0(), CubeHalf1())
  {
  }

  lemma OctahedronHalvesInRange()
    ensures EdgesInRange(OctahedronHalf0(), 6) && EdgesInRange(OctahedronHalf1(), 6)
  {
  }

  lemma OctahedronHalf0NoRepeat()
    ensures NoRepeatedEdge(OctahedronHalf0())
  {
  }

  lemma OctahedronHalf1NoRepeat()
    ensures NoRepeatedEdge(OctahedronHalf1())
  {
  }

  lemma OctahedronHalvesApart()
    ensures Apart(OctahedronHalf0(), OctahedronHalf1())
  {
  }

  lemma CubeEdgesWellFormed()
    ensures EdgesInRange(Edges(Cube), 8)
    ensures NoRepeatedEdge(Edges(Cube))
  {
    CubeHalves();
    CubeHalvesInRange();
    CubeHalf0NoRepeat();
    CubeHalf1NoRepeat();
    CubeHalvesApart();
    HalvesWellFormed(Edges(Cube), 8);
  }

  lemma OctahedronEdgesWellFormed()
    ensures EdgesInRange(Edges(Octahedron), 6)
    ensures NoRepeatedEdge(Edges(Octahedron))
  {
    OctahedronHalves();
    OctahedronHalvesInRange();
    OctahedronHalf0NoRepeat();
    OctahedronHalf1NoRepeat();
    OctahedronHalvesApart();
    HalvesWellFormed(Edges(Octahedron), 6);
  }

  /** A table in five ascending rows whose keys also increase across the
      joins lists no edge twice. */
  lemma FiveRowsWellFormed(r0: seq<Edge>, r1: seq<Edge>, r2: seq<Edge>, r3: seq<Edge>, r4: seq<Edge>, n: nat)
    requires EdgesInRange(r0, n) && EdgesInRange(r1, n) && EdgesInRange(r2, n)
    requires EdgesInRange(r3, n) && EdgesInRange(r4, n)
    requires Ascending(r0) && Ascending(r1) && Ascending(r2) && Ascending(r3) && Ascending(r4)
    requires |r0| == |r1| == |r2| == |r3| == |r4| == 6
    requires EdgeKey(r0[5]) < EdgeKey(r1[0]) && EdgeKey(r1[5]) < EdgeKey(r2[0])
    requires EdgeKey(r2[5]) < EdgeKey(r3[0]) && EdgeKey(r3[5]) < EdgeKey(r4[0])
    ensures EdgesInRange(r0 + r1 + r2 + r3 + r4, n)
    ensures NoRepeatedEdge(r0 + r1 + r2 + r3 + r4)
  {
    InRangeAppend(r0, r1, n);
    InRangeAppend(r0 + r1, r2, n);
    InRangeAppend(r0 + r1 + r2, r3, n);
    InRangeAppend(r0 + r1 + r2 + r3, r4, n);
    AscendingAppend(r0, r1);
    assert (r0 + r1)[|r0 + r1| - 1] == r1[5];
    AscendingAppend(r0 + r1, r2);
    assert (r0 + r1 + r2)[|r0 + r1 + r2| - 1] == r2[5];
    AscendingAppend(r0 + r1 + r2, r3);
    assert (r0 + r1 + r2 + r3)[|r0 + r1 + r2 + r3| - 1] == r3[5];
    AscendingAppend(r0 + r1 + r2 + r3, r4);
    AscendingNoRepeat(r0 + r1 + r2 + r3 + r4);
  }

  lemma DegreeOfFive(r0: seq<Edge>, r1: seq<Edge>, r2: seq<Edge>, r3: seq<Edge>, r4: seq<Edge>, v: nat)
    ensures Degree(r0 + r1 + r2 + r3 + r4, v)
            == Degree(r0, v) + Degree(r1, v) + Degree(r2, v) + Degree(r3, v) + Degree(r4, v)
  {
    DegreeAppend(r0 + r1 + r2 + r3, r4, v);
    DegreeAppend(r0 + r1 + r2, r3, v);
    DegreeAppend(r0 + r1, r2, v);
    DegreeAppend(r0, r1, v);
  }

  lemma DodecahedronEdgesWellFormed()
    ensures EdgesInRange(Edges(Dodecahedron), 20)
    ensures NoRepeatedEdge(Edges(Dodecahedron))
  {
    DodecahedronRows();
    DodecahedronRowsInRange();
    DodecahedronRowsAscending();
    FiveRowsWellFormed(DodecahedronRow0(), DodecahedronRow1(), DodecahedronRow2(), DodecahedronRow3(), DodecahedronRow4(), 20);
  }

  lemma IcosahedronEdgesWellFormed()
    ensures EdgesInRange(Edges(Icosahedron), 12)
    ensures NoRepeatedEdge(Edges(Icosahedron))
  {
    IcosahedronRows();
    IcosahedronRowsInRange();
    IcosahedronRowsAscending();
    FiveRowsWellFormed(IcosahedronRow0(), IcosahedronRow1(), IcosahedronRow2(), IcosahedronRow3(), IcosahedronRow4(), 12);
  }

  /** Every edge joins two different vertices of the solid, and no undirected
      edge is listed twice. */
  lemma EdgesWellFormed(s: Shape)
    ensures EdgesInRange(Edges(s), VertexCount(s))
    ensures NoRepeatedEdge(Edges(s))
  {
    match s
    case Tetrahedron => TetrahedronEdgesWellFormed();
    case Cube => CubeEdgesWellFormed();
    case Octahedron => OctahedronEdgesWellFormed();
    case Dodecahedron => DodecahedronEdgesWellFormed();
    case Icosahedron => IcosahedronEdgesWellFormed();
  }

  lemma TetrahedronRegular(v: nat)
    ensures Degree(Edges(Tetrahedron), v) == if v < 4 then 3 else 0
  {
    DegreeOfSix(Edges(Tetrahedron), v);
  }

  lemma CubeRegular(v: nat)
    ensures Degree(Edges(Cube), v) == if v < 8 then 3 else 0
  {
    DegreeOfTwelve(Edges(Cube), v);
  }

  lemma OctahedronRegular(v: nat)
    ensures Degree(Edges(Octahedron), v) == if v < 6 then 4 else 0
  {
    DegreeOfTwelve(Edges(Octahedron), v);
  }

  lemma DodecahedronRegular(v: nat)
    ensures Degree(Edges(Dodecahedron), v) == if v < 20 then 3 else 0
  {
    DodecahedronRows();
    DegreeOfFive(DodecahedronRow0(), DodecahedronRow1(), DodecahedronRow2(), DodecahedronRow3(), DodecahedronRow4(), v);
    DodecahedronRow0Degree(v);
    DodecahedronRow1Degree(v);
    DodecahedronRow2Degree(v);
    DodecahedronRow3Degree(v);
    DodecahedronRow4Degree(v);
    DodecahedronRowDegreesSum(v);
  }

  lemma IcosahedronRegular(v: nat)
    ensures Degree(Edges(Icosahedron), v) == if v < 12 then 5 else 0
  {
    IcosahedronRows();
    DegreeOfFive(IcosahedronRow0(), IcosahedronRow1(), IcosahedronRow2(), IcosahedronRow3(), IcosahedronRow4(), v);
    IcosahedronRow0Degree(v);
    IcosahedronRow1Degree(v);
    IcosahedronRow2Degree(v);
    IcosahedronRow3Degree(v);
    IcosahedronRow4Degree(v);
    IcosahedronRowDegreesSum(v);
  }

  /** Each solid is regular: every vertex lies on exactly `VertexDegree(s)`
      edges of its table, and no index beyond the vertex list is used. */
  lemma EdgesRegular(s: Shape, v: nat)
    ensures Degree(Edges(s), v) == if v < VertexCount(s) then VertexDegree(s) else 0
  {
    match s
    case Tetrahedron => TetrahedronRegular(v);
    case Cube => CubeRegular(v);
    case Octahedron => OctahedronRegular(v);
    case Dodecahedron => DodecahedronRegular(v);
    case Icosahedron => IcosahedronRegular(v);
  }
}
