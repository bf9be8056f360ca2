/** Tree stamping (`buildTree`, `addLight`) and tree placement
    (`generateTrees`) of js/world-gen.js. */
module Trees {
  import opened JsMath
  import opened Config
  import opened Sweep
  import opened Voxels
  import opened Terrain

  /** The string-light colours, in palette order. */
  const Palette: seq<int> := [0xff0000, 0x00ff00, 0x2266ff, 0xffd700]

  /** The `Math.random()` draws of one tree: the trunk-height draw and, per
      leaf cell, the 4 % light draw and the colour draw. */
  datatype TreeDraws = TreeDraws(trunk: Unit01, lit: Cell -> Unit01, hue: Cell -> Unit01)

  /** One call of `buildTree`: the base cell (x, y, z) and the lights switch. */
  datatype Tree = Tree(x: int, y: int, z: int, lights: bool, draws: TreeDraws)

  /** The trunk height drawn from u: 5 for the upper half of [0, 1), 4
      otherwise. */
  function TrunkHeight(u: Unit01): int
  {
    if u >= 0.5 then 5 else 4
  }

  /** The trunk height is `4 + Math.floor(Math.random() * 2)`. */
  lemma TrunkHeightDraw(u: Unit01)
    ensures TrunkHeight(u) == 4 + Floor(u * 2.0)
    ensures TrunkHeight(u) == 4 || TrunkHeight(u) == 5
  {
  }

  function Height(t: Tree): int
  {
    TrunkHeight(t.draws.trunk)
  }

  function TrunkStep(t: Tree): int -> seq<Obj>
  {
    i => [Voxel(Cell(t.x, t.y + i, t.z), Wood)]
  }

  /** The wood voxels y .. y + h - 1 above the base. */
  function Trunk(t: Tree): seq<Obj>
  {
    Concat(0, Height(t) - 1, TrunkStep(t))
  }

  /** The lowest foliage level, two below the trunk top. */
  function LeafStart(t: Tree): int
  {
    t.y + Height(t) - 2
  }

  /** The foliage radius k levels above the lowest: 2, 2, 1, then 0. */
  function LeafRadius(k: int): (rad: int)
    ensures 0 <= rad <= 2
  {
    if k == 0 then 2 else if k == 1 then 2 else if k == 2 then 1 else 0
  }

  /** Whether the foliage sweep skips offset (lx, lz) on level ly: a corner
      of a square of positive radius, or the centre while still beside the
      trunk. */
  predicate Skipped(t: Tree, ly: int, lx: int, lz: int)
  {
    Culled(LeafRadius(ly - LeafStart(t)), ly < t.y + Height(t), lx, lz)
  }

  /** The two `continue` tests of the foliage sweep for a square of radius
      rad, on a level beside the trunk or above it. */
  predicate Culled(rad: int, besideTrunk: bool, lx: int, lz: int)
  {
    (IntAbs(lx) == rad && IntAbs(lz) == rad && rad > 0) || (lx == 0 && lz == 0 && besideTrunk)
  }

  /** `addLight` for the leaf at c, offset (lx, lz) from the trunk axis: a
      palette colour, pushed 0.6 outwards along each non-zero offset. */
  function Light(c: Cell, lx: int, lz: int, hue: Unit01): Obj
  {
    StringLight(c.x as real + (if lx != 0 then Sign(lx) * 0.6 else 0.0),
                c.y as real,
                c.z as real + (if lz != 0 then Sign(lz) * 0.6 else 0.0),
                Palette[Pick(hue, |Palette|)])
  }

  /** A light sits level with its leaf, in a palette colour, 0.6 out from
      the leaf along each non-zero offset direction and level with it along
      a zero one. */
  lemma LightPlacement(c: Cell, lx: int, lz: int, hue: Unit01)
    ensures var l := Light(c, lx, lz, hue);
      && l.StringLight? && l.y == c.y as real && l.color in Palette
      && (lx == 0 ==> l.x == c.x as real)
      && (lx != 0 ==> Abs(l.x - c.x as real) == 0.6 && (l.x > c.x as real <==> lx > 0))
      && (lz == 0 ==> l.z == c.z as real)
      && (lz != 0 ==> Abs(l.z - c.z as real) == 0.6 && (l.z > c.z as real <==> lz > 0))
  {
  }

  /** What the foliage sweep creates at offset (lx, lz) of level ly: the
      leaf, then its light when lights are on and the light draw is under
      0.04. */
  function LeafObjs(t: Tree, ly: int, lx: int, lz: int): seq<Obj>
  {
    if Skipped(t, ly, lx, lz) then []
    else
      var c := Cell(t.x + lx, ly, t.z + lz);
      [Voxel(c, Leaves)] + (if t.lights && t.draws.lit(c) < 0.04 then [Light(c, lx, lz, t.draws.hue(c))] else [])
  }

  function LeafCell(t: Tree, ly: int): (int, int) -> seq<Obj>
  {
    (lx, lz) => LeafObjs(t, ly, lx, lz)
  }

  /** Foliage level ly: the square of its radius around the trunk axis. */
  function FoliageLevel(t: Tree): int -> seq<Obj>
  {
    ly => Grid(LeafRadius(ly - LeafStart(t)), LeafCell(t, ly))
  }

  /** The four foliage levels leafStart .. leafStart + 3. */
  function Foliage(t: Tree): seq<Obj>
  {
    Concat(LeafStart(t), LeafStart(t) + 3, FoliageLevel(t))
  }

  /** Everything `buildTree` returns, trunk first. */
  function BuildTree(t: Tree): seq<Obj>
  {
    Trunk(t) + Foliage(t)
  }

  // ---------------------------------------------------------------------
  // Shape of one tree.

  lemma TrunkMember(t: Tree, o: Obj)
    ensures o in Trunk(t) <==>
      o.Voxel? && o.mat == Wood && o.at.x == t.x && o.at.z == t.z && t.y <= o.at.y < t.y + Height(t)
  {
    ConcatMember(0, Height(t) - 1, TrunkStep(t), o);
    if o.Voxel? && o.mat == Wood && o.at.x == t.x && o.at.z == t.z && t.y <= o.at.y < t.y + Height(t) {
      assert o in TrunkStep(t)(o.at.y - t.y);
    }
  }

  /** Whatever the foliage sweep creates at one offset is the leaf there or
      its light. */
  lemma LeafObjsUnskipped(t: Tree, ly: int, lx: int, lz: int, o: Obj)
    requires o in LeafObjs(t, ly, lx, lz)
    ensures !Skipped(t, ly, lx, lz)
  {
  }

  lemma LeafObjsAt(t: Tree, ly: int, lx: int, lz: int, o: Obj)
    requires o in LeafObjs(t, ly, lx, lz)
    ensures var c := Cell(t.x + lx, ly, t.z + lz);
            || o == Voxel(c, Leaves)
            || (t.lights && t.draws.lit(c) < 0.04 && o == Light(c, lx, lz, t.draws.hue(c)))
  {
  }

  /** Whatever the foliage holds comes from one unskipped offset of one of
      its four levels. */
  lemma FoliageOut(t: Tree, o: Obj) returns (ly: int, lx: int, lz: int)
    requires o in Foliage(t)
    ensures LeafStart(t) <= ly <= LeafStart(t) + 3
    ensures var rad := LeafRadius(ly - LeafStart(t)); -rad <= lx <= rad && -rad <= lz <= rad
    ensures o in LeafObjs(t, ly, lx, lz)
  {
    ConcatMember(LeafStart(t), LeafStart(t) + 3, FoliageLevel(t), o);
    ly :| LeafStart(t) <= ly <= LeafStart(t) + 3 && o in FoliageLevel(t)(ly);
    var rad := LeafRadius(ly - LeafStart(t));
    assert FoliageLevel(t)(ly) == Grid(rad, LeafCell(t, ly));
    GridMember(rad, LeafCell(t, ly), o);
    lx, lz :| -rad <= lx <= rad && -rad <= lz <= rad && o in LeafCell(t, ly)(lx, lz);
  }

  lemma FoliageLevelIs(t: Tree, ly: int)
    ensures FoliageLevel(t)(ly) == Grid(LeafRadius(ly - LeafStart(t)), LeafCell(t, ly))
  {
  }

  lemma FoliageIs(t: Tree)
    ensures Foliage(t) == Concat(LeafStart(t), LeafStart(t) + 3, FoliageLevel(t))
  {
  }

  lemma FoliageInLevel(t: Tree, ly: int, lx: int, lz: int, o: Obj, rad: int)
    requires LeafStart(t) <= ly <= LeafStart(t) + 3
    requires rad == LeafRadius(ly - LeafStart(t)) && -rad <= lx <= rad && -rad <= lz <= rad
    requires o in LeafCell(t, ly)(lx, lz)
    ensures o in Foliage(t)
  {
    var F, C := FoliageLevel(t), LeafCell(t, ly);
    GridIn(rad, C, lx, lz, o);
    assert o in F(ly) by {
      FoliageLevelIs(t, ly);
    }
    InFoliageLevel(t, ly, o);
  }

  lemma InFoliageLevel(t: Tree, ly: int, o: Obj)
    requires LeafStart(t) <= ly <= LeafStart(t) + 3 && o in FoliageLevel(t)(ly)
    ensures o in Foliage(t)
  {
    FoliageIs(t);
    ConcatIn(Foliage(t), LeafStart(t), LeafStart(t) + 3, FoliageLevel(t), ly, o);
  }

  /** Whatever an offset inside the square of a level creates is in the
      foliage. */
  lemma FoliageIn(t: Tree, ly: int, lx: int, lz: int, o: Obj)
    requires LeafStart(t) <= ly <= LeafStart(t) + 3
    requires var rad := LeafRadius(ly - LeafStart(t)); -rad <= lx <= rad && -rad <= lz <= rad
    requires o in LeafObjs(t, ly, lx, lz)
    ensures o in Foliage(t)
  {
    var rad := LeafRadius(ly - LeafStart(t));
    assert o in LeafCell(t, ly)(lx, lz);
    FoliageInLevel(t, ly, lx, lz, o, rad);
  }

  /** The offset of a cell from the trunk axis lies in the square of its
      level and is not skipped. */
  predicate LeafSite(t: Tree, c: Cell)
  {
    var rad := LeafRadius(c.y - LeafStart(t));
    && LeafStart(t) <= c.y <= LeafStart(t) + 3
    && -rad <= c.x - t.x <= rad && -rad <= c.z - t.z <= rad
    && !Skipped(t, c.y, c.x - t.x, c.z - t.z)
  }

  /** A leaf of the tree stands on a leaf site. */
  lemma LeafOnSite(t: Tree, c: Cell)
    requires Voxel(c, Leaves) in BuildTree(t)
    ensures LeafSite(t, c)
  {
    TrunkMember(t, Voxel(c, Leaves));
    var ly, lx, lz := FoliageOut(t, Voxel(c, Leaves));
    LeafObjsUnskipped(t, ly, lx, lz, Voxel(c, Leaves));
    LeafObjsAt(t, ly, lx, lz, Voxel(c, Leaves));
  }

  /** Every leaf site holds a leaf. */
  lemma LeafAtSite(t: Tree, c: Cell)
    requires LeafSite(t, c)
    ensures Voxel(c, Leaves) in BuildTree(t)
  {
    FoliageIn(t, c.y, c.x - t.x, c.z - t.z, Voxel(c, Leaves));
  }

  /** A tree has a leaf exactly at its leaf sites. */
  lemma LeafMember(t: Tree, c: Cell)
    ensures Voxel(c, Leaves) in BuildTree(t) <==> LeafSite(t, c)
  {
    if Voxel(c, Leaves) in BuildTree(t) {
      LeafOnSite(t, c);
    }
    if LeafSite(t, c) {
      LeafAtSite(t, c);
    }
  }

  /** Leaves and wood never share a cell: the centre column of foliage is
      skipped on every level beside the trunk. */
  lemma LeavesClearTrunk(t: Tree, c: Cell)
    requires Voxel(c, Wood) in BuildTree(t)
    ensures Voxel(c, Leaves) !in BuildTree(t)
  {
    LeafMember(t, c);
    if Voxel(c, Wood) in Foliage(t) {
      var ly, lx, lz := FoliageOut(t, Voxel(c, Wood));
      LeafObjsAt(t, ly, lx, lz, Voxel(c, Wood));
      assert false;
    }
    TrunkMember(t, Voxel(c, Wood));
  }

  lemma LightOnLeafAt(t: Tree, ly: int, lx: int, lz: int, o: Obj) returns (c: Cell)
    requires LeafStart(t) <= ly <= LeafStart(t) + 3
    requires var rad := LeafRadius(ly - LeafStart(t)); -rad <= lx <= rad && -rad <= lz <= rad
    requires o in LeafObjs(t, ly, lx, lz) && o.StringLight?
    ensures c == Cell(t.x + lx, ly, t.z + lz)
    ensures t.lights && t.draws.lit(c) < 0.04
    ensures Voxel(c, Leaves) in Foliage(t)
    ensures o == Light(c, c.x - t.x, c.z - t.z, t.draws.hue(c))
  {
    c := Cell(t.x + lx, ly, t.z + lz);
    LeafLight(t, ly, lx, lz, o);
    FoliageIn(t, ly, lx, lz, Voxel(c, Leaves));
    assert c.x - t.x == lx && c.z - t.z == lz;
  }

  /** A light among the objects of an offset hangs on that offset's leaf. */
  lemma LeafLight(t: Tree, ly: int, lx: int, lz: int, o: Obj)
    requires o in LeafObjs(t, ly, lx, lz) && o.StringLight?
    ensures var c := Cell(t.x + lx, ly, t.z + lz);
      && t.lights && t.draws.lit(c) < 0.04 && o == Light(c, lx, lz, t.draws.hue(c))
      && Voxel(c, Leaves) in LeafObjs(t, ly, lx, lz)
  {
    LeafObjsAt(t, ly, lx, lz, o);
    LeafObjsUnskipped(t, ly, lx, lz, o);
  }

  /** A light of a tree hangs on one of its leaves, only when lights are
      on and that leaf's draw is under 0.04, in a palette colour. */
  lemma LightOnLeaf(t: Tree, o: Obj) returns (c: Cell)
    requires o in BuildTree(t) && o.StringLight?
    ensures t.lights && t.draws.lit(c) < 0.04
    ensures Voxel(c, Leaves) in BuildTree(t)
    ensures o == Light(c, c.x - t.x, c.z - t.z, t.draws.hue(c))
  {
    assert o in Foliage(t) by {
      TrunkMember(t, o);
    }
    var ly, lx, lz := FoliageOut(t, o);
    c := LightOnLeafAt(t, ly, lx, lz, o);
  }

  /** With lights off, a tree has no string light. */
  lemma LightsOff(t: Tree)
    requires !t.lights
    ensures forall o :: o in BuildTree(t) ==> !o.StringLight?
  {
    forall o | o in BuildTree(t) && o.StringLight?
      ensures false
    {
      var c := LightOnLeaf(t, o);
    }
  }

  // ---------------------------------------------------------------------
  // Leaf count.

  predicate IsLeaf(o: Obj) { o.Voxel? && o.mat == Leaves }

  /** The offsets a square of radius rad keeps, one entry per kept offset. */
  function Spots(rad: int, besideTrunk: bool): (int, int) -> seq<(int, int)>
  {
    (lx, lz) => if Culled(rad, besideTrunk, lx, lz) then [] else [(lx, lz)]
  }

  /** Every offset of a level yields one leaf if kept and none if culled;
      a light is not a leaf. */
  lemma LeafCellCount(t: Tree, ly: int, lx: int, lz: int, rad: int, besideTrunk: bool)
    requires rad == LeafRadius(ly - LeafStart(t)) && besideTrunk == (ly < t.y + Height(t))
    ensures CountIf(LeafCell(t, ly)(lx, lz), IsLeaf) == |Spots(rad, besideTrunk)(lx, lz)|
  {
    assert LeafCell(t, ly)(lx, lz) == LeafObjs(t, ly, lx, lz);
    assert Spots(rad, besideTrunk)(lx, lz) == if Culled(rad, besideTrunk, lx, lz) then [] else [(lx, lz)];
    if !Skipped(t, ly, lx, lz) {
      var c := Cell(t.x + lx, ly, t.z + lz);
      var rest := if t.lights && t.draws.lit(c) < 0.04 then [Light(c, lx, lz, t.draws.hue(c))] else [];
      assert LeafObjs(t, ly, lx, lz) == [Voxel(c, Leaves)] + rest;
      CountIfAppend([Voxel(c, Leaves)], rest, IsLeaf);
      assert CountIf([Voxel(c, Leaves)], IsLeaf) == 1;
      assert CountIf(rest, IsLeaf) == 0;
    }
  }

  /** A level holds one leaf per offset its square keeps. */
  lemma LevelLeafCount(t: Tree, ly: int, rad: int, besideTrunk: bool)
    requires rad == LeafRadius(ly - LeafStart(t)) && besideTrunk == (ly < t.y + Height(t))
    ensures CountIf(FoliageLevel(t)(ly), IsLeaf) == |Grid(rad, Spots(rad, besideTrunk))|
  {
    FoliageLevelIs(t, ly);
    forall lx, lz | -rad <= lx <= rad && -rad <= lz <= rad
      ensures CountIf(LeafCell(t, ly)(lx, lz), IsLeaf) == |Spots(rad, besideTrunk)(lx, lz)|
    {
      LeafCellCount(t, ly, lx, lz, rad, besideTrunk);
    }
    GridCountMatches(rad, LeafCell(t, ly), Spots(rad, besideTrunk), IsLeaf);
  }

  /** Rows -2 and 2 of a radius-2 level lose their two corners, and the
      middle row loses the centre beside the trunk. */
  lemma WideSpots(x: int, besideTrunk: bool)
    requires -2 <= x <= 2
    ensures |Rows(2, Spots(2, besideTrunk))(x)| ==
      if x == -2 || x == 2 then 3 else if x == 0 && besideTrunk then 4 else 5
  {
    var cell := Spots(2, besideTrunk);
    Unroll5(Column(cell, x));
    assert |cell(x, -2)| == (if x == -2 || x == 2 then 0 else 1);
    assert |cell(x, -1)| == 1 && |cell(x, 1)| == 1;
    assert |cell(x, 2)| == (if x == -2 || x == 2 then 0 else 1);
    assert |cell(x, 0)| == (if x == 0 && besideTrunk then 0 else 1);
  }

  /** A radius-2 square beside the trunk keeps 25 - 4 corners - 1 centre
      offsets. */
  lemma WideLevelSpots()
    ensures |Grid(2, Spots(2, true))| == 20
  {
    var rows := Rows(2, Spots(2, true));
    Unroll5(rows);
    WideSpots(-2, true);
    WideSpots(-1, true);
    WideSpots(0, true);
    WideSpots(1, true);
    WideSpots(2, true);
  }

  /** A radius-1 square above the trunk keeps 9 - 4 corners offsets, and a
      radius-0 square keeps its centre. */
  lemma NarrowLevelSpots()
    ensures |Grid(1, Spots(1, false))| == 5
    ensures |Grid(0, Spots(0, false))| == 1
  {
    var cell := Spots(1, false);
    Unroll3(Rows(1, cell));
    Unroll3(Column(cell, -1));
    Unroll3(Column(cell, 0));
    Unroll3(Column(cell, 1));
    assert |cell(-1, -1)| == 0 && |cell(-1, 0)| == 1 && |cell(-1, 1)| == 0;
    assert |cell(0, -1)| == 1 && |cell(0, 0)| == 1 && |cell(0, 1)| == 1;
    assert |cell(1, -1)| == 0 && |cell(1, 0)| == 1 && |cell(1, 1)| == 0;
    var dot := Spots(0, false);
    assert Grid(0, dot) == Rows(0, dot)(0);
    assert Rows(0, dot)(0) == dot(0, 0);
  }

  /** The four foliage levels hold 20 + 20 + 5 + 1 leaves. */
  lemma FoliageLeafCount(t: Tree)
    ensures CountIf(Foliage(t), IsLeaf) == 46
  {
    var s := LeafStart(t);
    var f := FoliageLevel(t);
    assert CountIf(f(s), IsLeaf) == 20 by {
      LevelLeafCount(t, s, 2, true);
      WideLevelSpots();
    }
    assert CountIf(f(s + 1), IsLeaf) == 20 by {
      LevelLeafCount(t, s + 1, 2, true);
      WideLevelSpots();
    }
    assert CountIf(f(s + 2), IsLeaf) == 5 by {
      LevelLeafCount(t, s + 2, 1, false);
      NarrowLevelSpots();
    }
    assert CountIf(f(s + 3), IsLeaf) == 1 by {
      LevelLeafCount(t, s + 3, 0, false);
      NarrowLevelSpots();
    }
    assert Foliage(t) == f(s) + f(s + 1) + f(s + 2) + f(s + 3) by {
      Unroll4(s, f);
    }
    CountIfAppend4(f(s), f(s + 1), f(s + 2), f(s + 3), IsLeaf);
  }

  /** The trunk is all wood. */
  lemma TrunkLeafCount(t: Tree)
    ensures CountIf(Trunk(t), IsLeaf) == 0
  {
    forall i | 0 <= i <= Height(t) - 1
      ensures CountIf(TrunkStep(t)(i), IsLeaf) == 0
    {
      assert TrunkStep(t)(i) == [Voxel(Cell(t.x, t.y + i, t.z), Wood)];
    }
    CountIfConcatNone(0, Height(t) - 1, TrunkStep(t), IsLeaf);
  }

  /** Whatever its trunk height, a tree has 46 leaves. */
  lemma LeafCount(t: Tree)
    ensures CountIf(BuildTree(t), IsLeaf) == 46
  {
    FoliageLeafCount(t);
    TrunkLeafCount(t);
    CountIfAppend(Trunk(t), Foliage(t), IsLeaf);
  }

  // ---------------------------------------------------------------------
  // Placement (`generateTrees`).

  /** One pass of the placement loop: the integer site (tx, tz) that
      flooring cos(angle)·dist and sin(angle)·dist produced, and the draws
      of the tree planted there. */
  datatype Site = Site(tx: int, tz: int, draws: TreeDraws)

  /** A site more than worldRadius from the centre is skipped. */
  predicate Accepted(o: WorldOptions, s: Site)
  {
    Within(Dist2(s.tx, s.tz), o.worldRadius)
  }

  /** The tree planted at a site: its base is one above the noise level
      ty of the site. */
  function TreeAt(f: Field, lights: bool, s: Site): Tree
  {
    Tree(s.tx, NoiseLevel(f.noise(s.tx, s.tz)) + 1, s.tz, lights, s.draws)
  }

  /** What one pass of the loop adds. */
  function Planted(o: WorldOptions, f: Field, lights: bool, s: Site): seq<Obj>
  {
    if Accepted(o, s) then BuildTree(TreeAt(f, lights, s)) else []
  }

  function PlantStep(o: WorldOptions, f: Field, lights: bool, sites: int -> Site): int -> seq<Obj>
  {
    i => Planted(o, f, lights, sites(i))
  }

  /** Everything the treeCount passes add, in order. */
  function Forest(o: WorldOptions, f: Field, lights: bool, sites: int -> Site): seq<Obj>
  {
    Concat(0, o.treeCount - 1, PlantStep(o, f, lights, sites))
  }

  function AcceptStep(o: WorldOptions, sites: int -> Site): int -> seq<Site>
  {
    i => if Accepted(o, sites(i)) then [sites(i)] else []
  }

  /** The sites that pass the distance test, in loop order. */
  function AcceptedSites(o: WorldOptions, sites: int -> Site): seq<Site>
  {
    Concat(0, o.treeCount - 1, AcceptStep(o, sites))
  }

  /** A planted tree stands on the noise level of its site: its base is 1,
      2 or 3, and in the rolling zone of the world it is one above the
      collision height there, so trees sit on the snow. */
  lemma TreeBase(o: WorldOptions, useGameHeight: bool, f: Field, lights: bool, s: Site)
    ensures var t := TreeAt(f, lights, s);
      && t.x == s.tx && t.z == s.tz && t.lights == lights
      && 1 <= t.y <= 3
      && (t.y >= 2 <==> f.noise(s.tx, s.tz) > 0.6)
      && (t.y == 3 <==> f.noise(s.tx, s.tz) > 1.2)
      && (Accepted(o, s) && ZoneOf(o, s.tx, s.tz) == Rolling ==>
            t.y == GroundHeight(o, useGameHeight, f, s.tx, s.tz) + 1)
  {
  }

  /** The forest holds exactly the objects of the trees planted at accepted
      sites. */
  lemma ForestMemberOut(o: WorldOptions, f: Field, lights: bool, sites: int -> Site, b: Obj) returns (i: int)
    requires b in Forest(o, f, lights, sites)
    ensures 0 <= i < o.treeCount && Accepted(o, sites(i))
    ensures b in BuildTree(TreeAt(f, lights, sites(i)))
  {
    ConcatMember(0, o.treeCount - 1, PlantStep(o, f, lights, sites), b);
    i :| 0 <= i <= o.treeCount - 1 && b in PlantStep(o, f, lights, sites)(i);
    assert PlantStep(o, f, lights, sites)(i) == Planted(o, f, lights, sites(i));
  }

  lemma ForestMemberIn(o: WorldOptions, f: Field, lights: bool, sites: int -> Site, i: int, b: Obj)
    requires 0 <= i < o.treeCount && Accepted(o, sites(i))
    requires b in BuildTree(TreeAt(f, lights, sites(i)))
    ensures b in Forest(o, f, lights, sites)
  {
    assert b in PlantStep(o, f, lights, sites)(i);
    ConcatIn(Forest(o, f, lights, sites), 0, o.treeCount - 1, PlantStep(o, f, lights, sites), i, b);
  }

  /** With lights off, no string light is placed anywhere in the forest. */
  lemma ForestLightsOff(o: WorldOptions, f: Field, sites: int -> Site)
    ensures forall b :: b in Forest(o, f, false, sites) ==> !b.StringLight?
  {
    forall b | b in Forest(o, f, false, sites) && b.StringLight?
      ensures false
    {
      var i := ForestMemberOut(o, f, false, sites, b);
      LightsOff(TreeAt(f, false, sites(i)));
    }
  }

  /** Every string light of the forest hangs on a leaf of the forest, in a
      palette colour. */
  lemma ForestLights(o: WorldOptions, f: Field, lights: bool, sites: int -> Site, b: Obj)
    requires b in Forest(o, f, lights, sites) && b.StringLight?
    ensures lights && b.color in Palette
    ensures exists c :: Voxel(c, Leaves) in Forest(o, f, lights, sites) && b.y == c.y as real
  {
    var i := ForestMemberOut(o, f, lights, sites, b);
    var t := TreeAt(f, lights, sites(i));
    var c := LightOnLeaf(t, b);
    LightPlacement(c, c.x - t.x, c.z - t.z, t.draws.hue(c));
    ForestMemberIn(o, f, lights, sites, i, Voxel(c, Leaves));
  }

  /** Each accepted site adds 46 leaves and a skipped one none. */
  lemma ForestLeafCount(o: WorldOptions, f: Field, lights: bool, sites: int -> Site)
    ensures CountIf(Forest(o, f, lights, sites), IsLeaf) == 46 * |AcceptedSites(o, sites)|
  {
    var step := PlantStep(o, f, lights, sites);
    var acc := AcceptStep(o, sites);
    forall i | 0 <= i <= o.treeCount - 1
      ensures CountIf(step(i), IsLeaf) == 46 * |acc(i)|
    {
      assert step(i) == Planted(o, f, lights, sites(i));
      if Accepted(o, sites(i)) {
        LeafCount(TreeAt(f, lights, sites(i)));
      }
    }
    CountIfConcatMatches(0, o.treeCount - 1, step, acc, IsLeaf, 46);
  }
}
