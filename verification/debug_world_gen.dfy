/** The older build copy bin/Debug/net8.0-windows/js/world-gen.js: the same
    generators without options, tracking or output array. Terrain always has
    hills on `PEAK_HEIGHT`, the cabin always stands on `PEAK_HEIGHT`, trees
    always grow and their lights depend only on the per-leaf 4 % draw. Each
    generator is defined here as that file writes it and proved equal to the
    source model with every toggle on and game height off. */
module DebugWorldGen {
  import opened Wrappers
  import opened JsMath
  import opened Config
  import opened Sweep
  import opened Voxels
  import opened Terrain
  import House
  import Trees
  import WorldGen

  // ---------------------------------------------------------------------
  // Terrain.

  /** The column height of the Debug sweep: the zone rule on `PEAK_HEIGHT`,
      with erosion and no hills switch. */
  function DebugColumnHeight(o: WorldOptions, f: Field, erode: (int, int) -> Unit01, x: int, z: int): int
  {
    var d2 := Dist2(x, z);
    if Inside(d2, o.plateauRadius) then PeakHeight()
    else if Inside(d2, o.hillRadius) then
      var h := SlopeHeight(10, f.ease(d2));
      if Beyond(d2, o.plateauRadius + 2) && h > 0 && erode(x, z) > 0.7 then h - 1 else h
    else NoiseLevel(f.noise(x, z))
  }

  function DebugDirtStep(o: WorldOptions, f: Field, erode: (int, int) -> Unit01): (int, int) -> seq<Cell>
  {
    (x, z) => if Within(Dist2(x, z), o.worldRadius) then DirtColumn(x, z, DebugColumnHeight(o, f, erode, x, z)) else []
  }

  function DebugSnowStep(o: WorldOptions, f: Field, erode: (int, int) -> Unit01): (int, int) -> seq<Cell>
  {
    (x, z) => if Within(Dist2(x, z), o.worldRadius) then SnowColumn(x, z, DebugColumnHeight(o, f, erode, x, z)) else []
  }

  /** The two meshes the Debug terrain adds to the scene. */
  function DebugTerrain(o: WorldOptions, f: Field, erode: (int, int) -> Unit01): seq<Obj>
  {
    var cap := (2 * o.worldRadius + 1) * (2 * o.worldRadius + 1) * 5;
    [Instanced(Dirt, cap, Grid(o.worldRadius, DebugDirtStep(o, f, erode))),
     Instanced(SnowBlock, cap, Grid(o.worldRadius, DebugSnowStep(o, f, erode)))]
  }

  /** The source pass with hills on and game height off. */
  function SourcePass(o: WorldOptions, f: Field, erode: (int, int) -> Unit01): Pass
  {
    Pass(o, true, PeakFor(false), f, erode)
  }

  /** Column by column, the Debug height is the source height with hills on
      and game height off. */
  lemma DebugColumnIsSource(o: WorldOptions, f: Field, erode: (int, int) -> Unit01, x: int, z: int)
    ensures DebugColumnHeight(o, f, erode, x, z) == Height(SourcePass(o, f, erode), x, z)
  {
  }

  /** The Debug terrain adds the same two meshes as the source terrain with
      hills on and game height off. */
  lemma DebugTerrainIsSource(o: WorldOptions, f: Field, erode: (int, int) -> Unit01)
    ensures DebugTerrain(o, f, erode) == Meshes(SourcePass(o, f, erode))
  {
    var p := SourcePass(o, f, erode);
    var r := o.worldRadius;
    forall x, z | -r <= x <= r && -r <= z <= r
      ensures DebugDirtStep(o, f, erode)(x, z) == DirtStep(p)(x, z)
      ensures DebugSnowStep(o, f, erode)(x, z) == SnowStep(p)(x, z)
    {
      DebugColumnIsSource(o, f, erode, x, z);
      assert DirtStep(p)(x, z) == DirtAt(p, x, z);
      assert SnowStep(p)(x, z) == SnowAt(p, x, z);
    }
    GridExt(r, DebugDirtStep(o, f, erode), DirtStep(p));
    GridExt(r, DebugSnowStep(o, f, erode), SnowStep(p));
  }

  // ---------------------------------------------------------------------
  // House.

  /** The objects the Debug body sweep creates for cell (x, z) of layer y
      (0 = floor, 1 .. 3 = walls) on `PEAK_HEIGHT`, in creation order: the
      door skip below layer 3, the three windows of layer 2 and the light of
      the (-2, 0) window. */
  function DebugBodyObjs(y: int, x: int, z: int): seq<Obj>
  {
    var hw := 2;
    var c := Cell(x, PeakHeight() + y, z);
    if y == 0 then [Voxel(c, Plank)]
    else if IntAbs(x) == hw || IntAbs(z) == hw then
      if z == hw && x == 0 && y < 3 then []
      else if y == 2 && ((IntAbs(x) == hw && z == 0) || (z == -hw && x == 0)) then
        [Voxel(c, Window)] + (if x == -hw && z == 0 then [PointLight(c)] else [])
      else [Voxel(c, Wood)]
    else []
  }

  function DebugBodyCell(y: int): (int, int) -> seq<Obj>
  {
    (x, z) => DebugBodyObjs(y, x, z)
  }

  function DebugBodyLayer(): int -> seq<Obj>
  {
    y => Grid(2, DebugBodyCell(y))
  }

  /** A roof stone at height y and its snow cap. */
  function DebugRoofCell(y: int): (int, int) -> seq<Obj>
  {
    (x, z) => [Voxel(Cell(x, y, z), Stone), SnowCap(Cell(x, y, z))]
  }

  /** Roof step i: the square of half-width 3 - i at roofStart + i. */
  function DebugRoofLayer(): int -> seq<Obj>
  {
    i => Grid(2 + 1 - i, DebugRoofCell(PeakHeight() + 4 + i))
  }

  /** Everything the Debug `generateHouse` adds to the scene: the body
      layers 0 .. 3, the roof steps 0 .. 3, and the two chimney stones. */
  function DebugHouse(): seq<Obj>
  {
    var roofStart := PeakHeight() + 4;
    Concat(0, 3, DebugBodyLayer()) + Concat(0, 3, DebugRoofLayer())
      + [Voxel(Cell(1, roofStart + 2, 1), Stone), Voxel(Cell(1, roofStart + 3, 1), Stone)]
  }

  /** The Debug cabin is always the cabin template on `PEAK_HEIGHT`: the
      same 242 objects in the same order. */
  lemma DebugHouseIsTemplate()
    ensures DebugHouse() == House.HouseObjects(PeakHeight())
    ensures |DebugHouse()| == 242
  {
    var fy := PeakHeight();
    DebugBodyIsSource();
    DebugRoofIsSource();
    DebugHouseParts();
    HouseParts(fy);
    House.HouseCounts(fy);
  }

  lemma DebugBodyIsSource()
    ensures Concat(0, 3, DebugBodyLayer()) == Concat(0, 3, House.BodyLayer(PeakHeight()))
  {
    var b, b' := DebugBodyLayer(), House.BodyLayer(PeakHeight());
    forall y | 0 <= y <= 3
      ensures b(y) == b'(y)
    {
      DebugBodyLayerIsSource(y);
    }
    ConcatExt(0, 3, b, b');
  }

  lemma DebugRoofIsSource()
    ensures Concat(0, 3, DebugRoofLayer()) == Concat(0, 3, House.RoofLayer(PeakHeight()))
  {
    var r, r' := DebugRoofLayer(), House.RoofLayer(PeakHeight());
    forall i | 0 <= i <= 3
      ensures r(i) == r'(i)
    {
      DebugRoofLayerIsSource(i);
    }
    ConcatExt(0, 3, r, r');
  }

  lemma DebugHouseParts()
    ensures DebugHouse() == Concat(0, 3, DebugBodyLayer()) + Concat(0, 3, DebugRoofLayer()) + House.Chimney(PeakHeight())
  {
  }

  lemma HouseParts(fy: int)
    ensures House.HouseObjects(fy) == Concat(0, 3, House.BodyLayer(fy)) + Concat(0, 3, House.RoofLayer(fy)) + House.Chimney(fy)
  {
  }

  lemma DebugBodyLayerIsSource(y: int)
    ensures DebugBodyLayer()(y) == House.BodyLayer(PeakHeight())(y)
  {
    var fy := PeakHeight();
    forall x, z | -2 <= x <= 2 && -2 <= z <= 2
      ensures DebugBodyCell(y)(x, z) == House.BodyCell(fy, y)(x, z)
    {
    }
    GridExt(2, DebugBodyCell(y), House.BodyCell(fy, y));
    House.BodyLayerIs(fy, y);
  }

  lemma DebugRoofLayerIsSource(i: int)
    ensures DebugRoofLayer()(i) == House.RoofLayer(PeakHeight())(i)
  {
    var ry, r := PeakHeight() + 4 + i, 2 + 1 - i;
    forall x, z | -r <= x <= r && -r <= z <= r
      ensures DebugRoofCell(ry)(x, z) == House.RoofCell(ry)(x, z)
    {
    }
    GridExt(r, DebugRoofCell(ry), House.RoofCell(ry));
    House.RoofLayerIs(PeakHeight(), i);
  }

  /** The current generator, with the house on and game height off,
      records exactly the Debug cabin. */
  lemma DebugHouseIsSource(w: WorldGen.World, opts: WorldGen.Options)
    requires opts.house != Some(false) && opts.useGameHeight != Some(true)
    ensures WorldGen.GenerateHouse(w, opts) == WorldGen.Record(w, WorldGen.HousePart, DebugHouse())
  {
    DebugHouseIsTemplate();
  }

  // ---------------------------------------------------------------------
  // Trees.

  /** The foliage radius of level ly, as the Debug sweep picks it. */
  function DebugRadius(leafStart: int, ly: int): int
  {
    if ly == leafStart then 2 else if ly == leafStart + 1 then 2 else if ly == leafStart + 2 then 1 else 0
  }

  /** One offset of the Debug foliage sweep: no lights switch. */
  function DebugLeafObjs(x: int, y: int, z: int, h: int, d: Trees.TreeDraws, ly: int, lx: int, lz: int): seq<Obj>
  {
    var rad := DebugRadius(y + h - 2, ly);
    if IntAbs(lx) == rad && IntAbs(lz) == rad && rad > 0 then []
    else if lx == 0 && lz == 0 && ly < y + h then []
    else
      var c := Cell(x + lx, ly, z + lz);
      [Voxel(c, Leaves)] + (if d.lit(c) < 0.04 then [Trees.Light(c, lx, lz, d.hue(c))] else [])
  }

  function DebugLeafCell(x: int, y: int, z: int, h: int, d: Trees.TreeDraws, ly: int): (int, int) -> seq<Obj>
  {
    (lx, lz) => DebugLeafObjs(x, y, z, h, d, ly, lx, lz)
  }

  function DebugLevel(x: int, y: int, z: int, h: int, d: Trees.TreeDraws): int -> seq<Obj>
  {
    ly => Grid(DebugRadius(y + h - 2, ly), DebugLeafCell(x, y, z, h, d, ly))
  }

  function DebugTrunkStep(x: int, y: int, z: int): int -> seq<Obj>
  {
    i => [Voxel(Cell(x, y + i, z), Wood)]
  }

  /** The Debug `buildTree`: trunk, then the four foliage levels. */
  function DebugBuildTree(x: int, y: int, z: int, d: Trees.TreeDraws): seq<Obj>
  {
    var h := Trees.TrunkHeight(d.trunk);
    Concat(0, h - 1, DebugTrunkStep(x, y, z)) + Concat(y + h - 2, y + h + 1, DebugLevel(x, y, z, h, d))
  }

  lemma DebugLevelIsSource(t: Trees.Tree, ly: int, rad: int)
    requires t.lights && Trees.LeafStart(t) <= ly <= Trees.LeafStart(t) + 3
    requires rad == Trees.LeafRadius(ly - Trees.LeafStart(t))
    ensures DebugLevel(t.x, t.y, t.z, Trees.Height(t), t.draws)(ly) == Trees.FoliageLevel(t)(ly)
  {
    var h := Trees.Height(t);
    assert DebugRadius(t.y + h - 2, ly) == rad;
    forall lx, lz | -rad <= lx <= rad && -rad <= lz <= rad
      ensures DebugLeafCell(t.x, t.y, t.z, h, t.draws, ly)(lx, lz) == Trees.LeafCell(t, ly)(lx, lz)
    {
      assert Trees.LeafCell(t, ly)(lx, lz) == Trees.LeafObjs(t, ly, lx, lz);
    }
    GridExt(rad, DebugLeafCell(t.x, t.y, t.z, h, t.draws, ly), Trees.LeafCell(t, ly));
    Trees.FoliageLevelIs(t, ly);
  }

  lemma DebugTrunkIsSource(t: Trees.Tree)
    ensures Concat(0, Trees.Height(t) - 1, DebugTrunkStep(t.x, t.y, t.z)) == Trees.Trunk(t)
  {
    forall i | 0 <= i <= Trees.Height(t) - 1
      ensures DebugTrunkStep(t.x, t.y, t.z)(i) == Trees.TrunkStep(t)(i)
    {
    }
    ConcatExt(0, Trees.Height(t) - 1, DebugTrunkStep(t.x, t.y, t.z), Trees.TrunkStep(t));
  }

  lemma DebugFoliageIsSource(t: Trees.Tree)
    requires t.lights
    ensures var h := Trees.Height(t);
      Concat(t.y + h - 2, t.y + h + 1, DebugLevel(t.x, t.y, t.z, h, t.draws)) == Trees.Foliage(t)
  {
    var h := Trees.Height(t);
    var lo := t.y + h - 2;
    var f, g := DebugLevel(t.x, t.y, t.z, h, t.draws), Trees.FoliageLevel(t);
    forall ly | lo <= ly <= lo + 3
      ensures f(ly) == g(ly)
    {
      DebugLevelIsSource(t, ly, Trees.LeafRadius(ly - lo));
    }
    ConcatExt(lo, lo + 3, f, g);
    assert Trees.Foliage(t) == Concat(lo, lo + 3, g) by {
      assert Trees.LeafStart(t) == lo;
    }
  }

  /** The Debug tree is the source tree with lights on. */
  lemma DebugTreeIsSource(x: int, y: int, z: int, d: Trees.TreeDraws)
    ensures DebugBuildTree(x, y, z, d) == Trees.BuildTree(Trees.Tree(x, y, z, true, d))
  {
    var t := Trees.Tree(x, y, z, true, d);
    var h := Trees.TrunkHeight(d.trunk);
    var trunk := Concat(0, h - 1, DebugTrunkStep(x, y, z));
    var leaves := Concat(y + h - 2, y + h + 1, DebugLevel(x, y, z, h, d));
    assert trunk == Trees.Trunk(t) by { DebugTrunkIsSource(t); }
    assert leaves == Trees.Foliage(t) by { DebugFoliageIsSource(t); }
    assert DebugBuildTree(x, y, z, d) == trunk + leaves;
  }

  /** One pass of the Debug placement loop. */
  function DebugPlanted(o: WorldOptions, f: Field, s: Trees.Site): seq<Obj>
  {
    if Beyond(Dist2(s.tx, s.tz), o.worldRadius) then []
    else DebugBuildTree(s.tx, NoiseLevel(f.noise(s.tx, s.tz)) + 1, s.tz, s.draws)
  }

  function DebugPlantStep(o: WorldOptions, f: Field, sites: int -> Trees.Site): int -> seq<Obj>
  {
    i => DebugPlanted(o, f, sites(i))
  }

  lemma DebugSiteIsSource(o: WorldOptions, f: Field, s: Trees.Site)
    ensures DebugPlanted(o, f, s) == Trees.Planted(o, f, true, s)
  {
    var y := NoiseLevel(f.noise(s.tx, s.tz)) + 1;
    assert Trees.TreeAt(f, true, s) == Trees.Tree(s.tx, y, s.tz, true, s.draws);
    if Trees.Accepted(o, s) {
      assert DebugBuildTree(s.tx, y, s.tz, s.draws) == Trees.BuildTree(Trees.TreeAt(f, true, s)) by {
        DebugTreeIsSource(s.tx, y, s.tz, s.draws);
      }
    }
  }

  /** The Debug `generateTrees`: treeCount passes, always on. */
  function DebugForest(o: WorldOptions, f: Field, sites: int -> Trees.Site): seq<Obj>
  {
    Concat(0, o.treeCount - 1, DebugPlantStep(o, f, sites))
  }

  /** The Debug forest is the source forest with lights on, so it applies
      the same site rejection and base rule; and it is what the source
      generator records with trees and lights on. */
  lemma DebugForestIsSource(o: WorldOptions, f: Field, sites: int -> Trees.Site)
    ensures DebugForest(o, f, sites) == Trees.Forest(o, f, true, sites)
  {
    forall i | 0 <= i <= o.treeCount - 1
      ensures DebugPlantStep(o, f, sites)(i) == Trees.PlantStep(o, f, true, sites)(i)
    {
      DebugSiteIsSource(o, f, sites(i));
      assert DebugPlantStep(o, f, sites)(i) == DebugPlanted(o, f, sites(i));
      assert Trees.PlantStep(o, f, true, sites)(i) == Trees.Planted(o, f, true, sites(i));
    }
    ConcatExt(0, o.treeCount - 1, DebugPlantStep(o, f, sites), Trees.PlantStep(o, f, true, sites));
  }

  /** With trees and lights on, the source generator records the Debug
      forest. */
  lemma DebugTreesRecorded(w: WorldGen.World, o: WorldOptions, opts: WorldGen.Options, f: Field,
                           sites: int -> Trees.Site)
    requires opts.trees != Some(false) && opts.lights != Some(false)
    ensures WorldGen.GenerateTrees(w, o, opts, f, sites) == WorldGen.Record(w, WorldGen.TreesPart, DebugForest(o, f, sites))
  {
    DebugForestIsSource(o, f, sites);
  }
}
