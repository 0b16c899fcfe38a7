/** Placement of the polyhedra on a square grid in the z = 0 plane
    (`getObjPosition` in main.js): object `index` of `total` goes to row
    `index / g` and column `index % g` of a `g` by `g` grid, where `g` is the
    smallest whole number whose square reaches `total`; cells are `spacing`
    apart and the grid is centred on the origin. A single object sits at the
    origin. */
module Layout {
  import opened Vectors

  /** Math.ceil(Math.sqrt(n)) for a whole number n: the least g with
      g * g >= n (CeilSqrtBounds). */
  function CeilSqrt(n: nat): (g: nat)
    ensures n > 0 ==> g > 0
  {
    CeilSqrtFrom(n, 0)
  }

  /** Searches upward from `g` for the first whole number whose square
      reaches `n`. */
  function CeilSqrtFrom(n: nat, g: nat): (r: nat)
    ensures r >= g && (n > 0 ==> r > 0)
    decreases n - g
  {
    if g * g >= n then g
    else
      assert g < n by {
        if g > 0 {
          calc { g; <= g * g; < n; }
        }
      }
      CeilSqrtFrom(n, g + 1)
  }

  /** Started from a `g` whose predecessor is too small, the search ends at
      the least whole number whose square reaches `n`. */
  lemma {:induction false} CeilSqrtFromBounds(n: nat, g: nat)
    requires g == 0 || (g - 1) * (g - 1) < n
    ensures CeilSqrtFrom(n, g) >= g
    ensures CeilSqrtFrom(n, g) * CeilSqrtFrom(n, g) >= n
    ensures CeilSqrtFrom(n, g) == 0 || (CeilSqrtFrom(n, g) - 1) * (CeilSqrtFrom(n, g) - 1) < n
    decreases n - g
  {
    if g * g < n {
      assert g < n by {
        if g > 0 {
          calc { g; <= g * g; < n; }
        }
      }
      CeilSqrtFromBounds(n, g + 1);
    }
  }

  /** CeilSqrt(n) is the least whole number whose square reaches `n`. */
  lemma CeilSqrtBounds(n: nat)
    ensures CeilSqrt(n) * CeilSqrt(n) >= n
    ensures CeilSqrt(n) == 0 || (CeilSqrt(n) - 1) * (CeilSqrt(n) - 1) < n
  {
    CeilSqrtFromBounds(n, 0);
  }

  lemma SquareMonotone(a: nat, b: nat)
    requires a <= b
    ensures a * a <= b * b
  {
    calc { a * a; <= a * b; <= b * b; }
  }

  /** No smaller grid holds `n` cells: any h with h * h >= n is at least CeilSqrt(n). */
  lemma CeilSqrtLeast(n: nat, h: nat)
    requires h * h >= n
    ensures CeilSqrt(n) <= h
  {
    var g := CeilSqrt(n);
    CeilSqrtBounds(n);
    if h < g {
      SquareMonotone(h, g - 1);
    }
  }

  /** Where the cell in column `col` and row `row` of a `g` by `g` grid
      with cells `spacing` apart lies, the grid being centred on the origin
      and its first row at the top. */
  function Cell(col: nat, row: nat, g: nat, spacing: real): Vec3 {
    var offset := ((g - 1) as real * spacing) / 2.0;
    Vec3(col as real * spacing - offset, -(row as real) * spacing + offset, 0.0)
  }

  /** getObjPosition(index, total, spacing). `total` is at least 1: for 0
      the grid size would be 0 and the division by it undefined. */
  function Position(index: nat, total: nat, spacing: real): Vec3
    requires total > 0
  {
    if total == 1 then Origin
    else
      var g := CeilSqrt(total);
      Cell(index % g, index / g, g, spacing)
  }

  /** The side of the grid that `total` objects are laid out on. */
  function GridSize(total: nat): (g: nat)
    ensures total > 0 ==> g > 0
  {
    if total == 1 then 1 else CeilSqrt(total)
  }

  /** Division with remainder has only one answer. */
  lemma DivModUnique(n: nat, g: nat, q: nat, r: nat)
    requires 0 <= r < g && n == q * g + r
    ensures n / g == q && n % g == r
  {
    var q', r' := n / g, n % g;
    assert n == q' * g + r' && 0 <= r' < g;
    if q' < q {
      MulLe(q' + 1, q, g);
    } else if q' > q {
      MulLe(q + 1, q', g);
    }
  }

  lemma MulLe(a: int, b: int, g: nat)
    requires a <= b
    ensures a * g <= b * g
  {
  }

  /** Moving one place on, within a row, moves one column right. */
  lemma ColumnStep(i: nat, g: nat)
    requires g > 0 && (i + 1) % g != 0
    ensures (i + 1) % g == i % g + 1 && (i + 1) / g == i / g
  {
    var q, r := i / g, i % g;
    assert i == q * g + r;
    if r + 1 == g {
      DivModUnique(i + 1, g, q + 1, 0);
    } else {
      DivModUnique(i + 1, g, q, r + 1);
    }
  }

  /** Moving `g` places on moves one row down, in the same column. */
  lemma RowStep(i: nat, g: nat)
    requires g > 0
    ensures (i + g) % g == i % g && (i + g) / g == i / g + 1
  {
    var q, r := i / g, i % g;
    assert i == q * g + r;
    DivModUnique(i + g, g, q + 1, r);
  }

  /** Different indices have different cells. */
  lemma CellOfIndexInjective(i: nat, j: nat, g: nat)
    requires g > 0 && i != j
    ensures i % g != j % g || i / g != j / g
  {
    assert i == (i / g) * g + i % g && j == (j / g) * g + j % g;
  }

  /** Every object of the layout has a row and a column inside the grid. */
  lemma GridCellInside(index: nat, total: nat)
    requires index < total
    ensures GridSize(total) > 0
    ensures index / GridSize(total) < GridSize(total)
    ensures index % GridSize(total) < GridSize(total)
  {
    var g := GridSize(total);
    CeilSqrtBounds(total);
    assert g * g >= total;
    var row := index / g;
    if row >= g {
      calc { index; >= row * g; >= g * g; >= total; }
    }
  }

  /** Every object has a row and a column inside the grid, and reading the
      grid row by row gives back its index. */
  lemma GridCell(index: nat, total: nat)
    requires index < total
    ensures GridSize(total) > 0
    ensures index / GridSize(total) < GridSize(total)
    ensures index % GridSize(total) < GridSize(total)
    ensures (index / GridSize(total)) * GridSize(total) + index % GridSize(total) == index
  {
    GridCellInside(index, total);
  }

  /** Each object sits at the centre of its cell: column `index % g`, row
      `index / g`, where `g` is the side of the grid. */
  lemma PositionIsCell(index: nat, total: nat, spacing: real)
    requires index < total
    ensures GridSize(total) > 0
    ensures Position(index, total, spacing)
            == Cell(index % GridSize(total), index / GridSize(total), GridSize(total), spacing)
  {
    if total == 1 {
      assert index == 0;
      assert Cell(0, 0, 1, spacing) == Origin;
    }
  }

  /** Every object lies in the z = 0 plane. */
  lemma PositionFlat(index: nat, total: nat, spacing: real)
    requires total > 0
    ensures Position(index, total, spacing).z == 0.0
  {
  }

  /** Columns c and g - 1 - c are at opposite x. */
  lemma CellMirrorX(c1: nat, r1: nat, c2: nat, r2: nat, g: nat, spacing: real)
    requires c1 + c2 == g - 1
    ensures Cell(c1, r1, g, spacing).x == -Cell(c2, r2, g, spacing).x
  {
    var m := (g - 1) as real;
    calc {
      Cell(c1, r1, g, spacing).x + Cell(c2, r2, g, spacing).x;
      == (c1 as real + c2 as real - m) * spacing;
      == { assert c1 as real + c2 as real == m; } 0.0;
    }
  }

  /** Rows r and g - 1 - r are at opposite y. */
  lemma CellMirrorY(c1: nat, r1: nat, c2: nat, r2: nat, g: nat, spacing: real)
    requires r1 + r2 == g - 1
    ensures Cell(c1, r1, g, spacing).y == -Cell(c2, r2, g, spacing).y
  {
    var m := (g - 1) as real;
    calc {
      Cell(c1, r1, g, spacing).y + Cell(c2, r2, g, spacing).y;
      == (m - r1 as real - r2 as real) * spacing;
      == { assert r1 as real + r2 as real == m; } 0.0;
    }
  }

  /** Objects in columns c and g - 1 - c sit at opposite x. */
  lemma MirrorColumns(i: nat, j: nat, total: nat, spacing: real)
    requires i < total && j < total
    requires i % GridSize(total) + j % GridSize(total) == GridSize(total) - 1
    ensures Position(i, total, spacing).x == -Position(j, total, spacing).x
  {
    var g := GridSize(total);
    PositionIsCell(i, total, spacing);
    PositionIsCell(j, total, spacing);
    var ci, ri, cj, rj := i % g, i / g, j % g, j / g;
    var pi, pj := Position(i, total, spacing), Position(j, total, spacing);
    assert pi == Cell(ci, ri, g, spacing) && pj == Cell(cj, rj, g, spacing);
    CellMirrorX(ci, ri, cj, rj, g, spacing);
    assert pi.x == -pj.x;
  }

  /** Objects in rows r and g - 1 - r sit at opposite y. */
  lemma MirrorRows(i: nat, j: nat, total: nat, spacing: real)
    requires i < total && j < total
    requires i / GridSize(total) + j / GridSize(total) == GridSize(total) - 1
    ensures Position(i, total, spacing).y == -Position(j, total, spacing).y
  {
    var g := GridSize(total);
    PositionIsCell(i, total, spacing);
    PositionIsCell(j, total, spacing);
    var ci, ri, cj, rj := i % g, i / g, j % g, j / g;
    var pi, pj := Position(i, total, spacing), Position(j, total, spacing);
    assert pi == Cell(ci, ri, g, spacing) && pj == Cell(cj, rj, g, spacing);
    CellMirrorY(ci, ri, cj, rj, g, spacing);
    assert pi.y == -pj.y;
  }

  /** The grid is centred on the origin: two objects in columns c and
      g - 1 - c sit at opposite x, and two in rows r and g - 1 - r at
      opposite y. */
  lemma PositionCentred(i: nat, j: nat, total: nat, spacing: real)
    requires i < total && j < total
    ensures i % GridSize(total) + j % GridSize(total) == GridSize(total) - 1
            ==> Position(i, total, spacing).x == -Position(j, total, spacing).x
    ensures i / GridSize(total) + j / GridSize(total) == GridSize(total) - 1
            ==> Position(i, total, spacing).y == -Position(j, total, spacing).y
  {
    var g := GridSize(total);
    if i % g + j % g == g - 1 {
      MirrorColumns(i, j, total, spacing);
    }
    if i / g + j / g == g - 1 {
      MirrorRows(i, j, total, spacing);
    }
  }

  /** The next object along a row is exactly `spacing` to the right, on the
      same height. */
  lemma NextInRow(index: nat, total: nat, spacing: real)
    requires index + 1 < total
    requires (index + 1) % GridSize(total) != 0
    ensures Position(index + 1, total, spacing).x == Position(index, total, spacing).x + spacing
    ensures Position(index + 1, total, spacing).y == Position(index, total, spacing).y
  {
    var g := GridSize(total);
    PositionIsCell(index, total, spacing);
    PositionIsCell(index + 1, total, spacing);
    ColumnStep(index, g);
    var q, r := index / g, index % g;
    assert Position(index, total, spacing) == Cell(r, q, g, spacing);
    assert Position(index + 1, total, spacing) == Cell(r + 1, q, g, spacing);
    CellStep(r, q, g, spacing);
  }

  /** Neighbouring cells are `spacing` apart, across and down. */
  lemma CellStep(c: nat, r: nat, g: nat, spacing: real)
    ensures Cell(c + 1, r, g, spacing).x == Cell(c, r, g, spacing).x + spacing
    ensures Cell(c + 1, r, g, spacing).y == Cell(c, r, g, spacing).y
    ensures Cell(c, r + 1, g, spacing).x == Cell(c, r, g, spacing).x
    ensures Cell(c, r + 1, g, spacing).y == Cell(c, r, g, spacing).y - spacing
  {
    var m := (g - 1) as real;
    calc {
      Cell(c + 1, r, g, spacing).x;
      == (c as real + 1.0) * spacing - (m * spacing) / 2.0;
      == Cell(c, r, g, spacing).x + spacing;
    }
    calc {
      Cell(c, r + 1, g, spacing).y;
      == -(r as real + 1.0) * spacing + (m * spacing) / 2.0;
      == Cell(c, r, g, spacing).y - spacing;
    }
  }

  /** The object one grid side further on sits exactly `spacing` lower, in
      the same column. */
  lemma NextRow(index: nat, total: nat, spacing: real)
    requires index + GridSize(total) < total
    ensures Position(index + GridSize(total), total, spacing).x == Position(index, total, spacing).x
    ensures Position(index + GridSize(total), total, spacing).y == Position(index, total, spacing).y - spacing
  {
    var g := GridSize(total);
    PositionIsCell(index, total, spacing);
    PositionIsCell(index + g, total, spacing);
    RowStep(index, g);
    var q, r := index / g, index % g;
    assert Position(index, total, spacing) == Cell(r, q, g, spacing);
    assert Position(index + g, total, spacing) == Cell(r, q + 1, g, spacing);
    CellStep(r, q, g, spacing);
  }

  /** With a non-zero spacing, distinct cells lie at distinct points. */
  lemma CellsDistinct(c1: nat, r1: nat, c2: nat, r2: nat, g: nat, spacing: real)
    requires spacing != 0.0 && (c1 != c2 || r1 != r2)
    ensures Cell(c1, r1, g, spacing) != Cell(c2, r2, g, spacing)
  {
    if c1 != c2 {
      ProductNonZero(c1 as real - c2 as real, spacing);
      calc {
        Cell(c1, r1, g, spacing).x - Cell(c2, r2, g, spacing).x;
        == (c1 as real - c2 as real) * spacing;
        != 0.0;
      }
    } else {
      ProductNonZero(r2 as real - r1 as real, spacing);
      calc {
        Cell(c1, r1, g, spacing).y - Cell(c2, r2, g, spacing).y;
        == (r2 as real - r1 as real) * spacing;
        != 0.0;
      }
    }
  }

  /** With a non-zero spacing no two objects share a position. */
  lemma PositionsDistinct(i: nat, j: nat, total: nat, spacing: real)
    requires i < total && j < total && i != j && spacing != 0.0
    ensures Position(i, total, spacing) != Position(j, total, spacing)
  {
    var g := GridSize(total);
    PositionIsCell(i, total, spacing);
    PositionIsCell(j, total, spacing);
    var ci, ri, cj, rj := i % g, i / g, j % g, j / g;
    var pi, pj := Position(i, total, spacing), Position(j, total, spacing);
    assert pi == Cell(ci, ri, g, spacing) && pj == Cell(cj, rj, g, spacing);
    assert ci != cj || ri != rj by {
      CellOfIndexInjective(i, j, g);
    }
    CellsDistinct(ci, ri, cj, rj, g, spacing);
  }

  lemma MulMonotone(a: real, b: real, t: real)
    requires a <= b && t >= 0.0
    ensures a * t <= b * t
  {
    calc { b * t - a * t; == (b - a) * t; >= 0.0; }
  }

  /** With a non-negative spacing every object lies in the square of half
      side (g - 1) * spacing / 2 around the origin. */
  lemma PositionBounded(index: nat, total: nat, spacing: real)
    requires index < total && spacing >= 0.0
    ensures var half := ((GridSize(total) - 1) as real * spacing) / 2.0;
            -half <= Position(index, total, spacing).x <= half
            && -half <= Position(index, total, spacing).y <= half
  {
    var g := GridSize(total);
    GridCellInside(index, total);
    PositionIsCell(index, total, spacing);
    CellBounded(index % g, index / g, g, spacing);
  }

  lemma CellBounded(c: nat, r: nat, g: nat, spacing: real)
    requires c < g && r < g && spacing >= 0.0
    ensures var half := ((g - 1) as real * spacing) / 2.0;
            -half <= Cell(c, r, g, spacing).x <= half && -half <= Cell(c, r, g, spacing).y <= half
  {
    var m := (g - 1) as real;
    MulMonotone(0.0, c as real, spacing);
    MulMonotone(c as real, m, spacing);
    MulMonotone(0.0, r as real, spacing);
    MulMonotone(r as real, m, spacing);
  }
}
