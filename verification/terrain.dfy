/** The terrain generator (`generateTerrainInstanced`) and the collision
    query (`getGroundHeight`) of js/world-gen.js. */
module Terrain {
  import opened JsMath
  import opened Config
  import opened Sweep
  import opened Voxels

  /** The floating-point parts of the height rule, as opaque inputs.
      `ease` is the raised cosine (cos(t·π) + 1) / 2 of the slope, which
      depends only on the distance and so is indexed by the squared distance;
      it lies in [0, 1]. `noise` is sin(0.15x)·cos(0.15z) + 0.5·sin(0.1(x+z)),
      any real. Both are fixed for one option set. */
  datatype Field = Field(ease: nat -> Unit, noise: (int, int) -> real)

  /** The noise-field height: 1 above 0.6, 2 above 1.2, otherwise 0. */
  function NoiseLevel(n: real): (h: int)
    ensures 0 <= h <= 2
    ensures h == 2 <==> n > 1.2
    ensures h >= 1 <==> n > 0.6
  {
    if n > 1.2 then 2 else if n > 0.6 then 1 else 0
  }

  /** The rounded raised-cosine height on the slope never leaves [0, peak]. */
  function SlopeHeight(peak: nat, e: Unit): (h: int)
    ensures 0 <= h <= peak
  {
    Scale(e, peak as real);
    assert 0.0 <= peak as real * e <= peak as real;
    Round(peak as real * e)
  }

  /** The three zones, by distance from the centre. */
  datatype Zone = Plateau | Slope | Rolling

  function ZoneOf(o: WorldOptions, x: int, z: int): Zone
  {
    var d2 := Dist2(x, z);
    if Inside(d2, o.plateauRadius) then Plateau
    else if Inside(d2, o.hillRadius) then Slope
    else Rolling
  }

  /** The erosion blemish may apply to a slope cell more than two units
      past the plateau edge. */
  predicate ErodibleRing(o: WorldOptions, x: int, z: int)
  {
    ZoneOf(o, x, z) == Slope && Beyond(Dist2(x, z), o.plateauRadius + 2)
  }

  /** The height h of the generated column at (x, z). `erode` is the one
      `Math.random()` draw of that cell; the erosion lowers the slope by one
      when it exceeds 0.7. */
  function ColumnHeight(o: WorldOptions, hills: bool, peak: nat, f: Field,
                        erode: (int, int) -> Unit01, x: int, z: int): (h: int)
    ensures h >= 0
    ensures !hills ==> h == 0
    ensures hills && ZoneOf(o, x, z) == Plateau ==> h == peak
    ensures hills && ZoneOf(o, x, z) == Slope ==> 0 <= h <= peak
    ensures hills && ZoneOf(o, x, z) == Rolling ==> h == NoiseLevel(f.noise(x, z))
  {
    if !hills then 0
    else
      match ZoneOf(o, x, z)
      case Plateau => peak
      case Slope =>
        var s := SlopeHeight(peak, f.ease(Dist2(x, z)));
        if ErodibleRing(o, x, z) && s > 0 && erode(x, z) > 0.7 then s - 1 else s
      case Rolling => NoiseLevel(f.noise(x, z))
  }

  /** `getGroundHeight`: 0 outside the world disc, otherwise the zone rule
      with no erosion. It has no hills toggle. */
  function GroundHeight(o: WorldOptions, useGameHeight: bool, f: Field, x: int, z: int): (h: int)
    ensures h >= 0
    ensures Beyond(Dist2(x, z), o.worldRadius) ==> h == 0
    ensures Within(Dist2(x, z), o.worldRadius) && ZoneOf(o, x, z) == Plateau ==> h == PeakFor(useGameHeight)
    ensures Within(Dist2(x, z), o.worldRadius) && ZoneOf(o, x, z) == Rolling ==> h == NoiseLevel(f.noise(x, z))
    ensures h <= PeakFor(useGameHeight)
  {
    var peak := PeakFor(useGameHeight);
    if Beyond(Dist2(x, z), o.worldRadius) then 0
    else
      match ZoneOf(o, x, z)
      case Plateau => peak
      case Slope => SlopeHeight(peak, f.ease(Dist2(x, z)))
      case Rolling => NoiseLevel(f.noise(x, z))
  }

  /** With hills on, a generated column is the collision height or one below
      it, and only an erodible slope cell with positive ground is ever one
      below. Collision therefore never reports a surface lower than the
      rendered one. */
  lemma ColumnMatchesGround(o: WorldOptions, useGameHeight: bool, f: Field,
                            erode: (int, int) -> Unit01, x: int, z: int)
    requires Within(Dist2(x, z), o.worldRadius)
    ensures var h := ColumnHeight(o, true, PeakFor(useGameHeight), f, erode, x, z);
            var g := GroundHeight(o, useGameHeight, f, x, z);
            && (h == g || h == g - 1)
            && (h == g - 1 ==> ErodibleRing(o, x, z) && g > 0 && erode(x, z) > 0.7)
  {
  }

  // ---------------------------------------------------------------------
  // The voxel sweep.

  /** The dirt voxels of a column of height h: y = -1 .. h - 1. */
  function DirtColumn(x: int, z: int, h: int): seq<Cell>
  {
    Concat(-1, h - 1, Stack(x, z))
  }

  /** The step of a column sweep: the one cell at height y. */
  function Stack(x: int, z: int): int -> seq<Cell>
  {
    y => [Cell(x, y, z)]
  }

  /** The one snow voxel on top of a column of height h. */
  function SnowColumn(x: int, z: int, h: int): seq<Cell>
  {
    [Cell(x, h, z)]
  }

  /** Whether the sweep emits a column at (x, z): `dist > r` skips it. */
  predicate Included(o: WorldOptions, x: int, z: int)
  {
    Within(Dist2(x, z), o.worldRadius)
  }

  /** The parameters one terrain pass is run with. */
  datatype Pass = Pass(o: WorldOptions, hills: bool, peak: nat, f: Field, erode: (int, int) -> Unit01)

  function Height(p: Pass, x: int, z: int): int
  {
    ColumnHeight(p.o, p.hills, p.peak, p.f, p.erode, x, z)
  }

  function DirtAt(p: Pass, x: int, z: int): seq<Cell>
  {
    if Included(p.o, x, z) then DirtColumn(x, z, Height(p, x, z)) else []
  }

  function SnowAt(p: Pass, x: int, z: int): seq<Cell>
  {
    if Included(p.o, x, z) then SnowColumn(x, z, Height(p, x, z)) else []
  }

  /** The instances written to the dirt mesh, in order. */
  function DirtCells(p: Pass): seq<Cell>
  {
    Grid(p.o.worldRadius, DirtStep(p))
  }

  function DirtStep(p: Pass): (int, int) -> seq<Cell>
  {
    (x, z) => DirtAt(p, x, z)
  }

  /** The instances written to the snow mesh, in order. */
  function SnowCells(p: Pass): seq<Cell>
  {
    Grid(p.o.worldRadius, SnowStep(p))
  }

  function SnowStep(p: Pass): (int, int) -> seq<Cell>
  {
    (x, z) => SnowAt(p, x, z)
  }

  /** `maxCount`: (2r + 1)² · 5 slots per mesh. */
  function Capacity(o: WorldOptions): int
  {
    (2 * o.worldRadius + 1) * (2 * o.worldRadius + 1) * 5
  }

  /** The two meshes the pass adds, dirt first, then snow. */
  function Meshes(p: Pass): (m: seq<Obj>)
    ensures |m| == 2 && m[0].Instanced? && m[1].Instanced?
    ensures m[0].mat == Dirt && m[1].mat == SnowBlock
    ensures m[0].cells == DirtCells(p) && m[1].cells == SnowCells(p)
  {
    [Instanced(Dirt, Capacity(p.o), DirtCells(p)), Instanced(SnowBlock, Capacity(p.o), SnowCells(p))]
  }

  lemma DirtColumnMember(x: int, z: int, h: int, c: Cell)
    ensures c in DirtColumn(x, z, h) <==> c.x == x && c.z == z && -1 <= c.y < h
  {
    ConcatMember(-1, h - 1, Stack(x, z), c);
    if c.x == x && c.z == z && -1 <= c.y < h {
      assert c in Stack(x, z)(c.y);
    }
  }

  /** A snow instance is exactly the top of an included column. */
  lemma SnowMember(p: Pass, c: Cell)
    ensures c in SnowCells(p) <==> Included(p.o, c.x, c.z) && c.y == Height(p, c.x, c.z)
  {
    var r := p.o.worldRadius;
    GridMember(r, SnowStep(p), c);
    if c in SnowCells(p) {
      var x, z :| -r <= x <= r && -r <= z <= r && c in SnowStep(p)(x, z);
      assert c in SnowAt(p, x, z);
    }
    if Included(p.o, c.x, c.z) && c.y == Height(p, c.x, c.z) {
      WithinBox(c.x, c.z, r);
      assert c in SnowStep(p)(c.x, c.z);
    }
  }

  /** A dirt instance is exactly a cell of an included column from y = -1
      up to, but not including, the column height. */
  lemma DirtMember(p: Pass, c: Cell)
    ensures c in DirtCells(p) <==> Included(p.o, c.x, c.z) && -1 <= c.y < Height(p, c.x, c.z)
  {
    var r := p.o.worldRadius;
    GridMember(r, DirtStep(p), c);
    if c in DirtCells(p) {
      var x, z :| -r <= x <= r && -r <= z <= r && c in DirtStep(p)(x, z);
      assert c in DirtAt(p, x, z);
      assert Included(p.o, x, z);
      DirtColumnMember(x, z, Height(p, x, z), c);
    }
    if Included(p.o, c.x, c.z) && -1 <= c.y < Height(p, c.x, c.z) {
      WithinBox(c.x, c.z, r);
      DirtColumnMember(c.x, c.z, Height(p, c.x, c.z), c);
      assert c in DirtStep(p)(c.x, c.z);
    }
  }

  // ---------------------------------------------------------------------
  // Counting.

  /** Selects the cells of column (x0, z0). */
  function At(x0: int, z0: int): Cell -> bool
  {
    (c: Cell) => c.x == x0 && c.z == z0
  }

  lemma DirtColumnCount(x: int, z: int, h: int, x0: int, z0: int)
    requires h >= 0
    ensures CountIf(DirtColumn(x, z, h), At(x0, z0)) == if x == x0 && z == z0 then h + 1 else 0
  {
    var s := DirtColumn(x, z, h);
    forall i | 0 <= i < |s|
      ensures s[i].x == x && s[i].z == z
    {
      DirtColumnMember(x, z, h, s[i]);
    }
    if x == x0 && z == z0 {
      CountIfAll(s, At(x0, z0));
      ConcatLengthExactly(-1, h - 1, Stack(x, z), 1);
    } else {
      CountIfZero(s, At(x0, z0));
    }
  }

  /** The per-column invariant: an included column (x0, z0) has exactly one
      snow voxel and exactly h + 1 dirt voxels, where h is its height; a
      skipped column has none. */
  lemma ColumnCounts(p: Pass, x0: int, z0: int)
    ensures Included(p.o, x0, z0) ==> CountIf(SnowCells(p), At(x0, z0)) == 1
    ensures Included(p.o, x0, z0) ==> CountIf(DirtCells(p), At(x0, z0)) == Height(p, x0, z0) + 1
    ensures !Included(p.o, x0, z0) ==> CountIf(SnowCells(p), At(x0, z0)) == 0
    ensures !Included(p.o, x0, z0) ==> CountIf(DirtCells(p), At(x0, z0)) == 0
  {
    var r := p.o.worldRadius;
    var sel := At(x0, z0);
    forall x, z | -r <= x <= r && -r <= z <= r && (x != x0 || z != z0 || !Included(p.o, x, z))
      ensures CountIf(SnowStep(p)(x, z), sel) == 0
      ensures CountIf(DirtStep(p)(x, z), sel) == 0
    {
      if Included(p.o, x, z) {
        DirtColumnCount(x, z, Height(p, x, z), x0, z0);
      }
    }
    if Included(p.o, x0, z0) {
      WithinBox(x0, z0, r);
      GridCountOnly(r, SnowStep(p), sel, x0, z0);
      GridCountOnly(r, DirtStep(p), sel, x0, z0);
      DirtColumnCount(x0, z0, Height(p, x0, z0), x0, z0);
    } else {
      GridCountNone(r, SnowStep(p), sel);
      GridCountNone(r, DirtStep(p), sel);
    }
  }

  /** The included cells, in sweep order. */
  function IncludedCells(o: WorldOptions): seq<(int, int)>
  {
    Grid(o.worldRadius, IncludedStep(o))
  }

  function IncludedStep(o: WorldOptions): (int, int) -> seq<(int, int)>
  {
    (x, z) => if Included(o, x, z) then [(x, z)] else []
  }

  /** The snow mesh holds one instance per included cell, so its count is at
      most (2r + 1)² and always fits the mesh's capacity. */
  lemma SnowCount(p: Pass)
    ensures |SnowCells(p)| == |IncludedCells(p.o)|
    ensures |SnowCells(p)| <= Span(-p.o.worldRadius, p.o.worldRadius) * Span(-p.o.worldRadius, p.o.worldRadius)
    ensures |SnowCells(p)| <= Capacity(p.o)
  {
    var r := p.o.worldRadius;
    GridLengthSame(r, SnowStep(p), IncludedStep(p.o));
    GridLengthAtMost(r, SnowStep(p), 1);
    if r >= 0 {
      assert Span(-r, r) == 2 * r + 1;
    }
  }

  /** Outside the hill disc a column is at most 2 high, and inside it at most
      the peak, so a column holds at most 3 dirt voxels plus peak - 2 more
      when it lies in the hill's bounding square. */
  lemma DirtColumnBound(p: Pass, x: int, z: int)
    requires p.peak >= 2 && 0 <= p.o.plateauRadius <= p.o.hillRadius
    ensures |DirtAt(p, x, z)| <= 3 + (if -p.o.hillRadius <= x <= p.o.hillRadius && -p.o.hillRadius <= z <= p.o.hillRadius then p.peak - 2 else 0)
  {
    if Included(p.o, x, z) {
      var h := Height(p, x, z);
      ConcatLengthExactly(-1, h - 1, Stack(x, z), 1);
      if ZoneOf(p.o, x, z) != Rolling && p.hills {
        InsideNested(Dist2(x, z), p.o.plateauRadius, p.o.hillRadius);
        WithinBox(x, z, p.o.hillRadius);
      }
    }
  }

  lemma InsideNested(d2: nat, a: int, b: int)
    requires 0 <= a <= b
    ensures Inside(d2, a) ==> Inside(d2, b)
    ensures Inside(d2, b) ==> Within(d2, b)
  {
    if Inside(d2, a) {
      assert a * a <= a * b;
      assert a * b <= b * b;
    }
  }

  /** The dirt mesh holds at most 3 instances per cell of the world square
      plus peak - 2 more per cell of the hill square. */
  lemma DirtCountBound(p: Pass)
    requires p.peak >= 2 && 0 <= p.o.plateauRadius <= p.o.hillRadius <= p.o.worldRadius
    ensures |DirtCells(p)| <= 3 * Span(-p.o.worldRadius, p.o.worldRadius) * Span(-p.o.worldRadius, p.o.worldRadius)
                              + (p.peak - 2) * Span(-p.o.hillRadius, p.o.hillRadius) * Span(-p.o.hillRadius, p.o.hillRadius)
  {
    var r := p.o.worldRadius;
    var q := p.o.hillRadius;
    forall x, z | -r <= x <= r && -r <= z <= r
      ensures |DirtStep(p)(x, z)| <= 3 + (if -q <= x <= q && -q <= z <= q then p.peak - 2 else 0)
    {
      DirtColumnBound(p, x, z);
    }
    GridLengthAtMostBand(r, DirtStep(p), 3, p.peak - 2, q);
  }

  /** The arithmetic behind ShippedMeshesFit: a = 2r + 1 cells per side of
      the world, b = 2q + 1 of the hill. */
  lemma FitArith(n: int, r: int, q: int, peak: int, a: int, b: int)
    requires (r == 75 && q == 14) || (r == 150 && q == 28)
    requires peak == 10 || peak == 20
    requires a == 2 * r + 1 && b == 2 * q + 1
    requires n <= 3 * a * a + (peak - 2) * b * b
    ensures n <= a * a * 5
  {
    if r == 75 {
      assert a * a == 22801 && b * b == 841;
    } else {
      assert a * a == 90601 && b * b == 3249;
    }
  }

  /** Neither instanced mesh overflows its (2r + 1)² · 5 slots for either
      shipped option set at either peak height, even though a column can be
      21 voxels tall: few enough cells lie inside the hill. */
  lemma ShippedMeshesFit(p: Pass)
    requires p.o == SceneOpts || p.o == GameWorldOpts
    requires p.peak == PeakFor(false) || p.peak == PeakFor(true)
    ensures |DirtCells(p)| <= Capacity(p.o)
    ensures |SnowCells(p)| <= Capacity(p.o)
  {
    var r := p.o.worldRadius;
    var q := p.o.hillRadius;
    assert (r == 75 && q == 14) || (r == 150 && q == 28);
    assert 0 <= p.o.plateauRadius <= q <= r && p.peak >= 2;
    assert p.peak == 10 || p.peak == 20;
    DirtCountBound(p);
    SnowCount(p);
    var n := |DirtCells(p)|;
    var a, b := Span(-r, r), Span(-q, q);
    assert a == 2 * r + 1 && b == 2 * q + 1;
    assert n <= 3 * a * a + (p.peak - 2) * b * b;
    FitArith(n, r, q, p.peak, a, b);
    assert Capacity(p.o) == a * a * 5;
  }
}
