/** The running viewer of main.js: the pool of polyhedron groups in the
    scene (`polyhedrons`, `updateObjCount`), one frame of the animation loop
    (`animate`: spin and colour cycling) and the control handlers, which
    change a setting and rebuild, recolour or reposition the groups. */
module Viewer {
  import opened Options
  import opened Vectors
  import opened Catalog
  import opened Layout
  import opened Mesh

  // ---------------------------------------------------------------------------
  // Spin

  /** `spinSettings`: the angle added per frame and the axes it is added to. */
  datatype SpinSettings = SpinSettings(rate: real, x: bool, y: bool, z: bool)

  /** A rotation after one frame: `rate` added to each enabled axis, with
      no wrap-around. */
  function Spun(r: Vec3, spin: SpinSettings): Vec3 {
    Vec3(if spin.x then r.x + spin.rate else r.x,
         if spin.y then r.y + spin.rate else r.y,
         if spin.z then r.z + spin.rate else r.z)
  }

  /** The rotation after `n` frames. */
  function SpunFor(r: Vec3, spin: SpinSettings, n: nat): Vec3 {
    if n == 0 then r else Spun(SpunFor(r, spin, n - 1), spin)
  }

  /** After `n` frames each enabled axis has turned by n * rate and the
      others not at all. */
  lemma {:induction false} SpinAccumulates(r: Vec3, spin: SpinSettings, n: nat)
    ensures var t := n as real * spin.rate;
            SpunFor(r, spin, n)
            == Vec3(if spin.x then r.x + t else r.x,
                    if spin.y then r.y + t else r.y,
                    if spin.z then r.z + t else r.z)
  {
    if n > 0 {
      SpinAccumulates(r, spin, n - 1);
    }
  }

  // ---------------------------------------------------------------------------
  // Hue

  /** `colorCycleSettings`: whether the colour cycles, by how many degrees
      per frame, and the current hue in degrees. */
  datatype CycleSettings = CycleSettings(enabled: bool, rate: real, hue: real)

  /** A real number with its fractional part dropped, towards zero. */
  function Trunc(x: real): (t: int)
    ensures 0.0 <= x ==> t as real <= x < t as real + 1.0
    ensures x < 0.0 ==> t as real - 1.0 < x <= t as real
  {
    if x >= 0.0 then x.Floor else -((-x).Floor)
  }

  /** JavaScript's `%` on numbers: the remainder has the sign of the
      dividend (unlike Dafny's `%`, whose remainder is never negative). */
  function JsRem(x: real, m: real): real
    requires m > 0.0
  {
    x - m * (Trunc(x / m) as real)
  }

  /** A non-negative dividend leaves a remainder in [0, m). */
  lemma RemNonNegative(x: real, m: real)
    requires m > 0.0 && x >= 0.0
    ensures 0.0 <= JsRem(x, m) < m
  {
    var t := Trunc(x / m) as real;
    Unscale(x, m, t, t + 1.0);
  }

  /** A negative dividend leaves a remainder in (-m, 0]. */
  lemma RemNegative(x: real, m: real)
    requires m > 0.0 && x < 0.0
    ensures -m < JsRem(x, m) <= 0.0
  {
    var t := Trunc(x / m) as real;
    Unscale(x, m, t - 1.0, t);
  }

  /** Bounds on a quotient x / m carry over to x. */
  lemma Unscale(x: real, m: real, lo: real, hi: real)
    requires m > 0.0
    ensures lo <= x / m ==> m * lo <= x
    ensures lo < x / m ==> m * lo < x
    ensures x / m < hi ==> x < m * hi
    ensures x / m <= hi ==> x <= m * hi
  {
    var q := x / m;
    assert x == m * q;
    MulLeft(m, lo, q);
    MulLeft(m, q, hi);
  }

  lemma MulLeft(m: real, a: real, b: real)
    requires m > 0.0
    ensures a <= b ==> m * a <= m * b
    ensures a < b ==> m * a < m * b
  {
    assert m * b - m * a == m * (b - a);
  }

  /** The hue after one cycling frame: `(hue + rate) % 360`. */
  function NextHue(hue: real, rate: real): real {
    JsRem(hue + rate, 360.0)
  }

  /** The hue after `n` cycling frames. */
  function HueAfter(hue: real, rate: real, n: nat): real {
    if n == 0 then hue else NextHue(HueAfter(hue, rate, n - 1), rate)
  }

  /** Taking the remainder of a partial sum first changes nothing, as long as
      all terms are non-negative. */
  lemma RemShift(x: real, r: real, m: real)
    requires m > 0.0 && x >= 0.0 && r >= 0.0
    ensures JsRem(JsRem(x, m) + r, m) == JsRem(x + r, m)
  {
    RemNonNegative(x, m);
    var k := Trunc(x / m);
    var y := JsRem(x, m) + r;
    assert y == x + r - m * (k as real);
    var j := Trunc(y / m);
    assert y / m == (x + r) / m - k as real;
    assert Trunc((x + r) / m) == j + k;
  }

  /** hue + n * rate, added up one frame at a time. */
  function Swept(hue: real, rate: real, n: nat): real {
    if n == 0 then hue else Swept(hue, rate, n - 1) + rate
  }

  lemma {:induction false} SweptIsProduct(hue: real, rate: real, n: nat)
    ensures Swept(hue, rate, n) == hue + n as real * rate
  {
    if n > 0 {
      var m: nat := n - 1;
      SweptIsProduct(hue, rate, m);
      assert m as real * rate + rate == n as real * rate;
    }
  }

  /** The hue after `n` frames is the remainder of the whole sweep, when
      nothing is negative. */
  lemma {:induction false} HueAfterSwept(hue: real, rate: real, n: nat)
    requires 0.0 <= hue < 360.0 && rate >= 0.0
    ensures Swept(hue, rate, n) >= 0.0
    ensures HueAfter(hue, rate, n) == JsRem(Swept(hue, rate, n), 360.0)
  {
    if n == 0 {
      assert Trunc(hue / 360.0) == 0;
    } else {
      var m: nat := n - 1;
      HueAfterSwept(hue, rate, m);
      RemShift(Swept(hue, rate, m), rate, 360.0);
    }
  }

  /** With a non-negative rate and a hue in [0, 360), the hue after `n`
      frames is (hue + n * rate) % 360, and so stays in [0, 360). */
  lemma HueAfterFrames(hue: real, rate: real, n: nat)
    requires 0.0 <= hue < 360.0 && rate >= 0.0
    ensures HueAfter(hue, rate, n) == JsRem(hue + n as real * rate, 360.0)
    ensures 0.0 <= HueAfter(hue, rate, n) < 360.0
  {
    HueAfterSwept(hue, rate, n);
    SweptIsProduct(hue, rate, n);
    RemNonNegative(Swept(hue, rate, n), 360.0);
  }

  /** With a negative rate the hue leaves [0, 360): the remainder keeps the
      sign of the dividend, so one frame from hue 0 gives hue = rate. */
  lemma NegativeRateHue(rate: real)
    requires -360.0 < rate < 0.0
    ensures NextHue(0.0, rate) == rate
  {
    assert Trunc(rate / 360.0) == 0;
  }

  /** A whole turn of the colour wheel: 36 frames at 10 degrees each bring
      the hue back to where it started. */
  lemma FullTurn(hue: real)
    requires 0.0 <= hue < 360.0
    ensures HueAfter(hue, 10.0, 36) == hue
  {
    HueAfterFrames(hue, 10.0, 36);
    assert Trunc((hue + 360.0) / 360.0) == 1;
  }

  // ---------------------------------------------------------------------------
  // The viewer

  /** Every value the controls set, taken together. */
  datatype Settings = Settings(
    spin: SpinSettings, cycle: CycleSettings, gap: real, color: string, count: nat,
    size: real, spacing: real, background: string, shapeType: int)

  /** The settings main.js starts with. */
  function InitialSettings(): Settings {
    Settings(SpinSettings(0.01, true, true, false), CycleSettings(false, 0.5, 0.0),
             0.0, "#00ff00", 1, 1.0, 1.5, "#000000", 6)
  }

  /** The module-level state of main.js: the polyhedron groups, the scene
      holding them, the spin and colour-cycle settings and the current
      values of the controls. `sqrt` stands for Math.sqrt. */
  class Animator {
    const sqrt: real -> real
    var polyhedrons: seq<Group>
    /** The groups added to the scene. */
    var scene: set<Group>
    /** `scene.background`, unset until the background colour is picked. */
    var background: Option<string>
    var spinSettings: SpinSettings
    var colorCycleSettings: CycleSettings
    var currentGap: real
    var currentColor: string
    var currentObjCount: nat
    var currentSize: real
    var currentSpacing: real
    var currentBackgroundColor: string
    var currentShapeType: int
    /** The colour every group is drawn in. */
    ghost var shown: Color
    /** The children every group holds while the shape key is known. */
    ghost var drawing: seq<Child>

    function Controls(): Settings
      reads this
    {
      Settings(spinSettings, colorCycleSettings, currentGap, currentColor, currentObjCount,
               currentSize, currentSpacing, currentBackgroundColor, currentShapeType)
    }

    /** The groups are distinct and the scene holds exactly them. */
    ghost predicate Pooled()
      reads this`polyhedrons, this`scene
    {
      (forall i, j :: 0 <= i < j < |polyhedrons| ==> polyhedrons[i] != polyhedrons[j])
      && scene == set g | g in polyhedrons
    }

    /** One group per requested object and, while the shape key is in
        the catalog, every group shows that shape with the current gap and
        size, all in the colour `shown`. */
    ghost predicate Drawn()
      reads this`polyhedrons, this`scene, this`currentObjCount, this`currentShapeType, this`currentGap
      reads this`currentSize, this`shown, this`drawing, polyhedrons
    {
      Pooled()
      && SqrtOk(sqrt)
      && |polyhedrons| == currentObjCount
      && (Lookup(currentShapeType).Some? ==>
            drawing == Geometry(Lookup(currentShapeType).value, currentGap, shown, currentSize, sqrt)
            && forall i :: 0 <= i < |polyhedrons| ==> polyhedrons[i].children == drawing)
    }

    /** What holds between any two events: the groups are drawn as above,
        in the picked colour unless the colour is cycling. */
    ghost predicate Valid()
      reads this`polyhedrons, this`scene, this`currentObjCount, this`currentShapeType, this`currentGap
      reads this`currentSize, this`shown, this`drawing, this`colorCycleSettings, this`currentColor, polyhedrons
    {
      Drawn() && (!colorCycleSettings.enabled ==> shown == Css(currentColor))
    }

    /** The start-up of main.js: the initial settings and
        `updateObjCount(1, 0, 0x00ff00, 1, 1.5, 6)`, one green cube at the
        origin. */
    constructor (sqrt: real -> real)
      requires SqrtOk(sqrt)
      ensures Valid()
      ensures Controls() == InitialSettings() && background == None
      ensures |polyhedrons| == 1 && fresh(polyhedrons[0])
      ensures polyhedrons[0].position == Origin && polyhedrons[0].rotation == Origin
      ensures polyhedrons[0].children == Geometry(Cube, 0.0, Css("#00ff00"), 1.0, sqrt)
    {
      this.sqrt := sqrt;
      polyhedrons := [];
      scene := {};
      background := None;
      spinSettings := SpinSettings(0.01, true, true, false);
      colorCycleSettings := CycleSettings(false, 0.5, 0.0);
      currentGap := 0.0;
      currentColor := "#00ff00";
      currentObjCount := 1;
      currentSize := 1.0;
      currentSpacing := 1.5;
      currentBackgroundColor := "#000000";
      currentShapeType := 6;
      shown := Css("#00ff00");
      drawing := Geometry(Cube, 0.0, Css("#00ff00"), 1.0, sqrt);
      new;
      var ok := UpdateObjCount(1, 0.0, Css("#00ff00"), 1.0, 1.5, 6);
    }

    /** updateObjCount(count, gap, color, size, spacing, shapeType): pops
        groups off the end until at most `count` are left, pushes new empty
        groups until there are `count`, then places and rebuilds every group
        in order. An unknown shape key stops the rebuild at the first group
        (createObjGeometry fails there after emptying it): `ok` is false. */
    method UpdateObjCount(count: nat, gap: real, color: Color, size: real, spacing: real, shapeType: int)
      returns (ok: bool)
      requires Pooled() && SqrtOk(sqrt)
      modifies this, polyhedrons
      ensures Pooled()
      ensures Controls() == old(Controls()) && background == old(background)
      ensures shown == old(shown) && drawing == old(drawing)
      ensures |polyhedrons| == count
      ensures forall i :: 0 <= i < |polyhedrons| && i < |old(polyhedrons)| ==> polyhedrons[i] == old(polyhedrons)[i]
      ensures forall i :: |old(polyhedrons)| <= i < |polyhedrons| ==> fresh(polyhedrons[i])
      ensures forall i :: 0 <= i < |polyhedrons| ==>
                polyhedrons[i].rotation == if i < |old(polyhedrons)| then old(polyhedrons[i].rotation) else Origin
      ensures ok <==> count == 0 || Lookup(shapeType).Some?
      ensures ok ==> forall i :: 0 <= i < |polyhedrons| ==> polyhedrons[i].position == Position(i, count, spacing)
      ensures ok && Lookup(shapeType).Some? ==> forall i :: 0 <= i < |polyhedrons| ==>
                polyhedrons[i].children == Geometry(Lookup(shapeType).value, gap, color, size, sqrt)
      ensures !ok ==> polyhedrons[0].position == Position(0, count, spacing) && polyhedrons[0].children == []
      ensures !ok ==> forall i :: 1 <= i < |polyhedrons| ==>
                polyhedrons[i].position == (if i < |old(polyhedrons)| then old(polyhedrons[i].position) else Origin)
                && polyhedrons[i].children == if i < |old(polyhedrons)| then old(polyhedrons[i].children) else []
    {
      RemoveExcess(count);
      ghost var survivors := polyhedrons;
      assert forall i :: 0 <= i < |survivors| ==>
        survivors[i] == old(polyhedrons)[i]
        && survivors[i].rotation == old(polyhedrons[i].rotation)
        && survivors[i].position == old(polyhedrons[i].position)
        && survivors[i].children == old(polyhedrons[i].children);
      AddMissing(count);
      assert forall i :: 0 <= i < |survivors| ==> polyhedrons[i] == survivors[i];
      ok := PlaceAll(count, gap, color, size, spacing, shapeType);
    }

    /** The first loop of updateObjCount: pops groups off the end, and out
        of the scene, while there are more than `count`. */
    method RemoveExcess(count: nat)
      requires Pooled()
      modifies this
      ensures Pooled()
      ensures Controls() == old(Controls()) && background == old(background)
      ensures shown == old(shown) && drawing == old(drawing)
      ensures |polyhedrons| == if |old(polyhedrons)| > count then count else |old(polyhedrons)|
      ensures polyhedrons == old(polyhedrons)[..|polyhedrons|]
    {
      while |polyhedrons| > count
        invariant Pooled()
        invariant |polyhedrons| <= |old(polyhedrons)| && polyhedrons == old(polyhedrons)[..|polyhedrons|]
        invariant |polyhedrons| >= count || polyhedrons == old(polyhedrons)
        invariant Controls() == old(Controls()) && background == old(background)
        invariant shown == old(shown) && drawing == old(drawing)
        decreases |polyhedrons|
      {
        var last := |polyhedrons| - 1;
        var polyhedron := polyhedrons[last];
        polyhedrons := polyhedrons[..last];
        scene := scene - {polyhedron};
      }
    }

    /** The second loop of updateObjCount: pushes new, empty groups, and
        adds them to the scene, while there are fewer than `count`. */
    method AddMissing(count: nat)
      requires Pooled()
      modifies this
      ensures Pooled()
      ensures Controls() == old(Controls()) && background == old(background)
      ensures shown == old(shown) && drawing == old(drawing)
      ensures |polyhedrons| == if |old(polyhedrons)| < count then count else |old(polyhedrons)|
      ensures polyhedrons[..|old(polyhedrons)|] == old(polyhedrons)
      ensures forall i :: |old(polyhedrons)| <= i < |polyhedrons| ==>
                fresh(polyhedrons[i]) && polyhedrons[i].position == Origin
                && polyhedrons[i].rotation == Origin && polyhedrons[i].children == []
    {
      while |polyhedrons| < count
        invariant Pooled()
        invariant |old(polyhedrons)| <= |polyhedrons| && polyhedrons[..|old(polyhedrons)|] == old(polyhedrons)
        invariant |polyhedrons| <= count || polyhedrons == old(polyhedrons)
        invariant forall i :: |old(polyhedrons)| <= i < |polyhedrons| ==>
                    fresh(polyhedrons[i]) && polyhedrons[i].position == Origin
                    && polyhedrons[i].rotation == Origin && polyhedrons[i].children == []
        invariant Controls() == old(Controls()) && background == old(background)
        invariant shown == old(shown) && drawing == old(drawing)
        decreases count - |polyhedrons|
      {
        var objGroup := new Group();
        scene := scene + {objGroup};
        polyhedrons := polyhedrons + [objGroup];
      }
    }

    /** The last loop of updateObjCount: puts every group at its place in
        a grid of `count` and rebuilds its geometry, in order, stopping at
        the first group whose rebuild fails. */
    method PlaceAll(count: nat, gap: real, color: Color, size: real, spacing: real, shapeType: int)
      returns (ok: bool)
      requires Pooled() && SqrtOk(sqrt) && |polyhedrons| == count
      modifies polyhedrons
      ensures ok <==> count == 0 || Lookup(shapeType).Some?
      ensures forall i :: 0 <= i < |polyhedrons| ==> polyhedrons[i].rotation == old(polyhedrons[i].rotation)
      ensures ok ==> forall i :: 0 <= i < |polyhedrons| ==> polyhedrons[i].position == Position(i, count, spacing)
      ensures ok && Lookup(shapeType).Some? ==> forall i :: 0 <= i < |polyhedrons| ==>
                polyhedrons[i].children == Geometry(Lookup(shapeType).value, gap, color, size, sqrt)
      ensures !ok ==> polyhedrons[0].position == Position(0, count, spacing) && polyhedrons[0].children == []
      ensures !ok ==> forall i :: 1 <= i < |polyhedrons| ==>
                polyhedrons[i].position == old(polyhedrons[i].position)
                && polyhedrons[i].children == old(polyhedrons[i].children)
    {
      ok := true;
      var index := 0;
      while index < |polyhedrons|
        invariant 0 <= index <= |polyhedrons|
        invariant index > 0 ==> Lookup(shapeType).Some?
        invariant forall i :: 0 <= i < index ==> polyhedrons[i].position == Position(i, count, spacing)
        invariant Lookup(shapeType).Some? ==> forall i :: 0 <= i < index ==>
                    polyhedrons[i].children == Geometry(Lookup(shapeType).value, gap, color, size, sqrt)
        invariant forall i :: index <= i < |polyhedrons| ==>
                    polyhedrons[i].position == old(polyhedrons[i].position)
                    && polyhedrons[i].children == old(polyhedrons[i].children)
        invariant forall i :: 0 <= i < |polyhedrons| ==> polyhedrons[i].rotation == old(polyhedrons[i].rotation)
      {
        var polyhedron := polyhedrons[index];
        assert forall i :: 0 <= i < |polyhedrons| && i != index ==> polyhedrons[i] != polyhedron;
        polyhedron.position := Position(index, count, spacing);
        var created, edgeLines, vertexPoints := CreateGeometry(polyhedron, gap, color, size, shapeType, sqrt);
        if !created {
          ok := false;
          return;
        }
        index := index + 1;
      }
    }

    /** The forEach the shape, gap and size handlers end with: rebuilds
        every group with the given settings, in order, stopping at the
        first group whose rebuild fails. Positions and rotations stay. */
    method RebuildAll(gap: real, color: Color, size: real, shapeType: int) returns (ok: bool)
      requires Pooled() && SqrtOk(sqrt)
      modifies polyhedrons
      ensures ok <==> |polyhedrons| == 0 || Lookup(shapeType).Some?
      ensures forall i :: 0 <= i < |polyhedrons| ==>
                polyhedrons[i].position == old(polyhedrons[i].position)
                && polyhedrons[i].rotation == old(polyhedrons[i].rotation)
      ensures ok && Lookup(shapeType).Some? ==> forall i :: 0 <= i < |polyhedrons| ==>
                polyhedrons[i].children == Geometry(Lookup(shapeType).value, gap, color, size, sqrt)
      ensures !ok ==> polyhedrons[0].children == []
                      && forall i :: 1 <= i < |polyhedrons| ==> polyhedrons[i].children == old(polyhedrons[i].children)
    {
      ok := true;
      var index := 0;
      while index < |polyhedrons|
        invariant 0 <= index <= |polyhedrons|
        invariant index > 0 ==> Lookup(shapeType).Some?
        invariant Lookup(shapeType).Some? ==> forall i :: 0 <= i < index ==>
                    polyhedrons[i].children == Geometry(Lookup(shapeType).value, gap, color, size, sqrt)
        invariant forall i :: index <= i < |polyhedrons| ==> polyhedrons[i].children == old(polyhedrons[i].children)
        invariant forall i :: 0 <= i < |polyhedrons| ==>
                    polyhedrons[i].position == old(polyhedrons[i].position)
                    && polyhedrons[i].rotation == old(polyhedrons[i].rotation)
      {
        var polyhedron := polyhedrons[index];
        assert forall i :: 0 <= i < |polyhedrons| && i != index ==> polyhedrons[i] != polyhedron;
        var created, edgeLines, vertexPoints := CreateGeometry(polyhedron, gap, color, size, shapeType, sqrt);
        if !created {
          ok := false;
          return;
        }
        index := index + 1;
      }
    }

    /** Rebuilds every group with the current settings after the shape,
        the gap or the size has changed; the groups then show the current
        shape in the picked colour. */
    method Recreate() returns (ok: bool)
      requires Pooled() && SqrtOk(sqrt) && |polyhedrons| == currentObjCount
      requires !colorCycleSettings.enabled ==> shown == Css(currentColor)
      modifies this, polyhedrons
      ensures Valid()
      ensures Controls() == old(Controls())
      ensures polyhedrons == old(polyhedrons) && background == old(background)
      ensures ok <==> |polyhedrons| == 0 || Lookup(currentShapeType).Some?
      ensures ok ==> shown == Css(currentColor)
      ensures !ok ==> polyhedrons[0].children == []
                      && forall i :: 1 <= i < |polyhedrons| ==> polyhedrons[i].children == old(polyhedrons[i].children)
      ensures forall i :: 0 <= i < |polyhedrons| ==>
                polyhedrons[i].position == old(polyhedrons[i].position)
                && polyhedrons[i].rotation == old(polyhedrons[i].rotation)
    {
      var color := Css(currentColor);
      ok := RebuildAll(currentGap, color, currentSize, currentShapeType);
      if ok {
        Redrawn();
      }
    }

    /** The nested loops of the colour handlers and of the colour cycle:
        every child of every group takes colour `color`. */
    method PaintAll(color: Color)
      requires Pooled()
      modifies polyhedrons
      ensures forall i :: 0 <= i < |polyhedrons| ==>
                polyhedrons[i].children == RecolorAll(old(polyhedrons[i].children), color)
                && polyhedrons[i].position == old(polyhedrons[i].position)
                && polyhedrons[i].rotation == old(polyhedrons[i].rotation)
    {
      var index := 0;
      while index < |polyhedrons|
        invariant 0 <= index <= |polyhedrons|
        invariant forall i :: 0 <= i < index ==>
                    polyhedrons[i].children == RecolorAll(old(polyhedrons[i].children), color)
        invariant forall i :: index <= i < |polyhedrons| ==> polyhedrons[i].children == old(polyhedrons[i].children)
        invariant forall i :: 0 <= i < |polyhedrons| ==>
                    polyhedrons[i].position == old(polyhedrons[i].position)
                    && polyhedrons[i].rotation == old(polyhedrons[i].rotation)
      {
        var polyhedron := polyhedrons[index];
        assert forall i :: 0 <= i < |polyhedrons| && i != index ==> polyhedrons[i] != polyhedron;
        PaintChildren(polyhedron, color);
        index := index + 1;
      }
    }

    /** The rotation loop of animate: each group turns by the spin rate
        about each enabled axis. */
    method SpinAll()
      requires Pooled()
      modifies polyhedrons
      ensures forall i :: 0 <= i < |polyhedrons| ==>
                polyhedrons[i].rotation == Spun(old(polyhedrons[i].rotation), spinSettings)
                && polyhedrons[i].position == old(polyhedrons[i].position)
                && polyhedrons[i].children == old(polyhedrons[i].children)
    {
      var index := 0;
      while index < |polyhedrons|
        invariant 0 <= index <= |polyhedrons|
        invariant forall i :: 0 <= i < index ==>
                    polyhedrons[i].rotation == Spun(old(polyhedrons[i].rotation), spinSettings)
        invariant forall i :: index <= i < |polyhedrons| ==> polyhedrons[i].rotation == old(polyhedrons[i].rotation)
        invariant forall i :: 0 <= i < |polyhedrons| ==>
                    polyhedrons[i].position == old(polyhedrons[i].position)
                    && polyhedrons[i].children == old(polyhedrons[i].children)
      {
        var polyhedron := polyhedrons[index];
        assert forall i :: 0 <= i < |polyhedrons| && i != index ==> polyhedrons[i] != polyhedron;
        if spinSettings.x {
          polyhedron.rotation := polyhedron.rotation.(x := polyhedron.rotation.x + spinSettings.rate);
        }
        if spinSettings.y {
          polyhedron.rotation := polyhedron.rotation.(y := polyhedron.rotation.y + spinSettings.rate);
        }
        if spinSettings.z {
          polyhedron.rotation := polyhedron.rotation.(z := polyhedron.rotation.z + spinSettings.rate);
        }
        index := index + 1;
      }
    }

    /** Paints every child of every group in `color`, as the colour
        handlers and the colour cycle do; the groups then show their shape
        in that colour. */
    method Repaint(color: Color)
      requires Drawn()
      requires !colorCycleSettings.enabled ==> color == Css(currentColor)
      modifies this, polyhedrons
      ensures Valid()
      ensures Controls() == old(Controls())
      ensures polyhedrons == old(polyhedrons) && background == old(background)
      ensures shown == color
      ensures forall i :: 0 <= i < |polyhedrons| ==>
                polyhedrons[i].children == RecolorAll(old(polyhedrons[i].children), color)
                && polyhedrons[i].position == old(polyhedrons[i].position)
                && polyhedrons[i].rotation == old(polyhedrons[i].rotation)
    {
      PaintAll(color);
      shown, drawing := color, RecolorAll(drawing, color);
      if Lookup(currentShapeType).Some? {
        RecolorGeometry(Lookup(currentShapeType).value, currentGap, old(shown), color, currentSize, sqrt);
      }
    }

    // -------------------------------------------------------------------------
    // One frame

    /** One frame of animate: every group spins; while the colour cycles
        the hue moves on by the cycle rate, modulo 360, and every child of
        every group takes the colour of that hue. */
    method Animate()
      requires Valid()
      modifies this, polyhedrons
      ensures Valid()
      ensures polyhedrons == old(polyhedrons) && background == old(background)
      ensures Controls() == old(Controls()).(cycle :=
                if old(colorCycleSettings.enabled)
                then old(colorCycleSettings).(hue := NextHue(old(colorCycleSettings.hue), old(colorCycleSettings.rate)))
                else old(colorCycleSettings))
      ensures forall i :: 0 <= i < |polyhedrons| ==>
                polyhedrons[i].rotation == Spun(old(polyhedrons[i].rotation), spinSettings)
                && polyhedrons[i].position == old(polyhedrons[i].position)
      ensures colorCycleSettings.enabled ==>
                shown == Hue(colorCycleSettings.hue)
                && forall i :: 0 <= i < |polyhedrons| ==>
                     polyhedrons[i].children == RecolorAll(old(polyhedrons[i].children), Hue(colorCycleSettings.hue))
      ensures !colorCycleSettings.enabled ==>
                shown == old(shown)
                && forall i :: 0 <= i < |polyhedrons| ==> polyhedrons[i].children == old(polyhedrons[i].children)
    {
      SpinAll();
      if colorCycleSettings.enabled {
        colorCycleSettings := colorCycleSettings.(hue := JsRem(colorCycleSettings.hue + colorCycleSettings.rate, 360.0));
        Repaint(Hue(colorCycleSettings.hue));
      }
    }

    // -------------------------------------------------------------------------
    // The controls

    /** The spin-rate slider. */
    method SetSpinRate(rate: real)
      requires Valid()
      modifies this
      ensures Valid()
      ensures Controls() == old(Controls()).(spin := old(spinSettings).(rate := rate))
      ensures polyhedrons == old(polyhedrons) && background == old(background)
    {
      spinSettings := spinSettings.(rate := rate);
    }

    /** The spin-axis check boxes. */
    method SetSpinX(checked: bool)
      requires Valid()
      modifies this
      ensures Valid()
      ensures Controls() == old(Controls()).(spin := old(spinSettings).(x := checked))
      ensures polyhedrons == old(polyhedrons) && background == old(background)
    {
      spinSettings := spinSettings.(x := checked);
    }

    method SetSpinY(checked: bool)
      requires Valid()
      modifies this
      ensures Valid()
      ensures Controls() == old(Controls()).(spin := old(spinSettings).(y := checked))
      ensures polyhedrons == old(polyhedrons) && background == old(background)
    {
      spinSettings := spinSettings.(y := checked);
    }

    method SetSpinZ(checked: bool)
      requires Valid()
      modifies this
      ensures Valid()
      ensures Controls() == old(Controls()).(spin := old(spinSettings).(z := checked))
      ensures polyhedrons == old(polyhedrons) && background == old(background)
    {
      spinSettings := spinSettings.(z := checked);
    }

    /** The shape selector: records the new key and rebuilds every group
        as that shape. An unknown key empties the first group and stops. */
    method SetShapeType(key: int) returns (ok: bool)
      requires Valid()
      modifies this, polyhedrons
      ensures Valid()
      ensures Controls() == old(Controls()).(shapeType := key)
      ensures polyhedrons == old(polyhedrons) && background == old(background)
      ensures ok <==> |polyhedrons| == 0 || Lookup(key).Some?
      ensures ok ==> shown == Css(currentColor)
      ensures !ok ==> polyhedrons[0].children == []
                      && forall i :: 1 <= i < |polyhedrons| ==> polyhedrons[i].children == old(polyhedrons[i].children)
      ensures forall i :: 0 <= i < |polyhedrons| ==>
                polyhedrons[i].position == old(polyhedrons[i].position)
                && polyhedrons[i].rotation == old(polyhedrons[i].rotation)
    {
      currentShapeType := key;
      ok := Recreate();
    }

    /** The colour picker: records the colour, turns colour cycling off
        and paints every child of every group in the picked colour. */
    method SetColor(color: string)
      requires Valid()
      modifies this, polyhedrons
      ensures Valid()
      ensures Controls() == old(Controls()).(color := color, cycle := old(colorCycleSettings).(enabled := false))
      ensures polyhedrons == old(polyhedrons) && background == old(background)
      ensures shown == Css(color)
      ensures forall i :: 0 <= i < |polyhedrons| ==>
                polyhedrons[i].children == RecolorAll(old(polyhedrons[i].children), Css(color))
                && polyhedrons[i].position == old(polyhedrons[i].position)
                && polyhedrons[i].rotation == old(polyhedrons[i].rotation)
    {
      currentColor := color;
      if colorCycleSettings.enabled {
        colorCycleSettings := colorCycleSettings.(enabled := false);
      }
      Repaint(Css(currentColor));
    }

    /** The colour-cycle check box. Turning cycling off paints every child
        of every group in the picked colour again; turning it on changes
        nothing until the next frame. */
    method SetColorCycling(enabled: bool)
      requires Valid()
      modifies this, polyhedrons
      ensures Valid()
      ensures Controls() == old(Controls()).(cycle := old(colorCycleSettings).(enabled := enabled))
      ensures polyhedrons == old(polyhedrons) && background == old(background)
      ensures enabled ==> shown == old(shown)
                          && forall i :: 0 <= i < |polyhedrons| ==> polyhedrons[i].children == old(polyhedrons[i].children)
      ensures !enabled ==> shown == Css(currentColor)
                           && forall i :: 0 <= i < |polyhedrons| ==>
                                polyhedrons[i].children == RecolorAll(old(polyhedrons[i].children), Css(currentColor))
      ensures forall i :: 0 <= i < |polyhedrons| ==>
                polyhedrons[i].position == old(polyhedrons[i].position)
                && polyhedrons[i].rotation == old(polyhedrons[i].rotation)
    {
      colorCycleSettings := colorCycleSettings.(enabled := enabled);
      if !colorCycleSettings.enabled {
        Repaint(Css(currentColor));
      }
    }

    /** The colour-cycle rate slider. */
    method SetCycleRate(rate: real)
      requires Valid()
      modifies this
      ensures Valid()
      ensures Controls() == old(Controls()).(cycle := old(colorCycleSettings).(rate := rate))
      ensures polyhedrons == old(polyhedrons) && background == old(background)
    {
      colorCycleSettings := colorCycleSettings.(rate := rate);
    }

    /** The background colour picker. */
    method SetBackgroundColor(color: string)
      requires Valid()
      modifies this
      ensures Valid()
      ensures Controls() == old(Controls()).(background := color)
      ensures background == Some(color)
      ensures polyhedrons == old(polyhedrons)
    {
      currentBackgroundColor := color;
      background := Some(currentBackgroundColor);
    }

    /** The edge-gap slider: records the gap and rebuilds every group. */
    method SetGap(gap: real) returns (ok: bool)
      requires Valid()
      modifies this, polyhedrons
      ensures Valid()
      ensures Controls() == old(Controls()).(gap := gap)
      ensures polyhedrons == old(polyhedrons) && background == old(background)
      ensures ok <==> |polyhedrons| == 0 || Lookup(currentShapeType).Some?
      ensures ok ==> shown == Css(currentColor)
      ensures !ok ==> polyhedrons[0].children == []
                      && forall i :: 1 <= i < |polyhedrons| ==> polyhedrons[i].children == old(polyhedrons[i].children)
      ensures forall i :: 0 <= i < |polyhedrons| ==>
                polyhedrons[i].position == old(polyhedrons[i].position)
                && polyhedrons[i].rotation == old(polyhedrons[i].rotation)
    {
      currentGap := gap;
      ok := Recreate();
    }

    /** The count slider: records the count and calls updateObjCount with
        the current settings. */
    method SetCount(count: nat) returns (ok: bool)
      requires Valid()
      modifies this, polyhedrons
      ensures Valid()
      ensures Controls() == old(Controls()).(count := count)
      ensures background == old(background)
      ensures |polyhedrons| == count
      ensures forall i :: 0 <= i < |polyhedrons| && i < |old(polyhedrons)| ==> polyhedrons[i] == old(polyhedrons)[i]
      ensures forall i :: |old(polyhedrons)| <= i < |polyhedrons| ==> fresh(polyhedrons[i])
      ensures ok <==> count == 0 || Lookup(currentShapeType).Some?
      ensures ok ==> shown == Css(currentColor)
      ensures forall i :: 0 <= i < |polyhedrons| ==>
                polyhedrons[i].rotation == if i < |old(polyhedrons)| then old(polyhedrons[i].rotation) else Origin
      ensures ok ==> forall i :: 0 <= i < |polyhedrons| ==> polyhedrons[i].position == Position(i, count, currentSpacing)
      ensures !ok ==> polyhedrons[0].position == Position(0, count, currentSpacing) && polyhedrons[0].children == []
      ensures !ok ==> forall i :: 1 <= i < |polyhedrons| ==>
                polyhedrons[i].position == (if i < |old(polyhedrons)| then old(polyhedrons[i].position) else Origin)
                && polyhedrons[i].children == if i < |old(polyhedrons)| then old(polyhedrons[i].children) else []
    {
      currentObjCount := count;
      ok := UpdateObjCount(currentObjCount, currentGap, Css(currentColor), currentSize, currentSpacing, currentShapeType);
      if ok {
        Redrawn();
      }
    }

    /** Records that every group now shows the current shape in the
        current colour. */
    ghost method Redrawn()
      requires Pooled() && SqrtOk(sqrt) && |polyhedrons| == currentObjCount
      requires Lookup(currentShapeType).Some? ==> forall i :: 0 <= i < |polyhedrons| ==>
                 polyhedrons[i].children
                 == Geometry(Lookup(currentShapeType).value, currentGap, Css(currentColor), currentSize, sqrt)
      modifies this`shown, this`drawing
      ensures Valid() && shown == Css(currentColor)
    {
      shown := Css(currentColor);
      if Lookup(currentShapeType).Some? {
        drawing := Geometry(Lookup(currentShapeType).value, currentGap, Css(currentColor), currentSize, sqrt);
      }
    }

    /** The size slider: records the size and rebuilds every group. */
    method SetSize(size: real) returns (ok: bool)
      requires Valid()
      modifies this, polyhedrons
      ensures Valid()
      ensures Controls() == old(Controls()).(size := size)
      ensures polyhedrons == old(polyhedrons) && background == old(background)
      ensures ok <==> |polyhedrons| == 0 || Lookup(currentShapeType).Some?
      ensures ok ==> shown == Css(currentColor)
      ensures !ok ==> polyhedrons[0].children == []
                      && forall i :: 1 <= i < |polyhedrons| ==> polyhedrons[i].children == old(polyhedrons[i].children)
      ensures forall i :: 0 <= i < |polyhedrons| ==>
                polyhedrons[i].position == old(polyhedrons[i].position)
                && polyhedrons[i].rotation == old(polyhedrons[i].rotation)
    {
      currentSize := size;
      ok := Recreate();
    }

    /** The spacing slider: records the spacing and moves every group to
        its place in the grid; geometry and rotation stay. */
    method SetSpacing(spacing: real)
      requires Valid()
      modifies this, polyhedrons
      ensures Valid()
      ensures Controls() == old(Controls()).(spacing := spacing)
      ensures polyhedrons == old(polyhedrons) && background == old(background)
      ensures shown == old(shown)
      ensures forall i :: 0 <= i < |polyhedrons| ==>
                polyhedrons[i].position == Position(i, |polyhedrons|, spacing)
                && polyhedrons[i].children == old(polyhedrons[i].children)
                && polyhedrons[i].rotation == old(polyhedrons[i].rotation)
    {
      currentSpacing := spacing;
      var index := 0;
      while index < |polyhedrons|
        modifies polyhedrons
        invariant 0 <= index <= |polyhedrons|
        invariant forall i :: 0 <= i < index ==> polyhedrons[i].position == Position(i, currentObjCount, currentSpacing)
        invariant forall i :: 0 <= i < |polyhedrons| ==>
                    polyhedrons[i].children == old(polyhedrons[i].children)
                    && polyhedrons[i].rotation == old(polyhedrons[i].rotation)
      {
        var polyhedron := polyhedrons[index];
        assert forall i :: 0 <= i < |polyhedrons| && i != index ==> polyhedrons[i] != polyhedron;
        polyhedron.position := Position(index, currentObjCount, currentSpacing);
        index := index + 1;
      }
    }

    /** Every child of every group is drawn in one colour: the picked
        colour while the colour does not cycle. */
    lemma OneColor()
      requires Valid() && Lookup(currentShapeType).Some?
      ensures forall i, k :: 0 <= i < |polyhedrons| && 0 <= k < |polyhedrons[i].children| ==>
                polyhedrons[i].children[k].color == shown
      ensures !colorCycleSettings.enabled ==>
                forall i, k :: 0 <= i < |polyhedrons| && 0 <= k < |polyhedrons[i].children| ==>
                  polyhedrons[i].children[k].color == Css(currentColor)
    {
      GeometryShape(Lookup(currentShapeType).value, currentGap, shown, currentSize, sqrt);
    }
  }
}
