/** The option handling and the cleanup bookkeeping of js/world-gen.js: the
    three generators as steps on the tracking lists (`generatedObjects`) and
    the optional output array, and `clearWorld` emptying the lists. */
module WorldGen {
  import opened Wrappers
  import opened JsMath
  import opened Config
  import opened Voxels
  import opened Terrain
  import House
  import Trees

  /** The boolean options a generator reads; None is an option left out of
      the options object. */
  datatype Options = Options(
    hills: Option<bool>,
    useGameHeight: Option<bool>,
    house: Option<bool>,
    trees: Option<bool>,
    lights: Option<bool>)

  /** `options.x !== false`: on unless explicitly switched off. */
  predicate DefaultOn(flag: Option<bool>)
  {
    flag != Some(false)
  }

  /** `options.useGameHeight || false`: off unless explicitly switched on. */
  predicate DefaultOff(flag: Option<bool>)
  {
    flag == Some(true)
  }

  /** `generatedObjects`: what each generator created, for `clearWorld`. */
  datatype Tracking = Tracking(terrain: seq<Obj>, house: seq<Obj>, trees: seq<Obj>, lights: seq<Obj>)

  /** The tracking lists and the caller's output array (None when the caller
      passes no array). */
  datatype World = World(tracked: Tracking, out: Option<seq<Obj>>)

  function Emit(out: Option<seq<Obj>>, objs: seq<Obj>): Option<seq<Obj>>
  {
    match out
    case None => None
    case Some(a) => Some(a + objs)
  }

  /** The tracking list a generator records into. */
  datatype Part = TerrainPart | HousePart | TreesPart

  /** What every generator does with the objects it created: append them to
      its tracking list and to the output array, when there is one. */
  function Record(w: World, part: Part, objs: seq<Obj>): World
  {
    var t := w.tracked;
    var t' := match part
      case TerrainPart => t.(terrain := t.terrain + objs)
      case HousePart => t.(house := t.house + objs)
      case TreesPart => t.(trees := t.trees + objs);
    World(t', Emit(w.out, objs))
  }

  /** The peak height the options select. */
  function PeakOf(opts: Options): (h: int)
    ensures h == (if opts.useGameHeight == Some(true) then 20 else 10)
  {
    PeakFor(DefaultOff(opts.useGameHeight))
  }

  /** The terrain pass for an option set and options. */
  function TerrainPass(o: WorldOptions, opts: Options, f: Field, erode: (int, int) -> Unit01): Pass
  {
    Pass(o, DefaultOn(opts.hills), PeakOf(opts), f, erode)
  }

  /** `generateTerrainInstanced`: always runs (hills off only flattens), and
      records its two meshes. */
  function GenerateTerrain(w: World, o: WorldOptions, opts: Options, f: Field,
                           erode: (int, int) -> Unit01): World
  {
    Record(w, TerrainPart, Meshes(TerrainPass(o, opts, f, erode)))
  }

  /** `generateHouse`: nothing when the house is switched off, otherwise the
      cabin on the selected peak. */
  function GenerateHouse(w: World, opts: Options): World
  {
    if !DefaultOn(opts.house) then w
    else Record(w, HousePart, House.HouseObjects(PeakOf(opts)))
  }

  /** `generateTrees`: nothing when trees are switched off, otherwise the
      forest with lights unless those are switched off. */
  function GenerateTrees(w: World, o: WorldOptions, opts: Options, f: Field,
                         sites: int -> Trees.Site): World
  {
    if !DefaultOn(opts.trees) then w
    else Record(w, TreesPart, Trees.Forest(o, f, DefaultOn(opts.lights), sites))
  }

  /** `clearWorld`: the disposed objects (terrain, house, then trees) and the
      emptied tracking lists. */
  function ClearWorld(t: Tracking): (Tracking, seq<Obj>)
  {
    (Tracking([], [], [], []), t.terrain + t.house + t.trees)
  }

  // ---------------------------------------------------------------------

  /** The flags as the generators read them: an absent option turns hills,
      house, trees and lights on and game height off; only an explicit false
      turns one of the first four off, and only an explicit true turns game
      height on. */
  lemma OptionDefaults(flag: Option<bool>)
    ensures DefaultOn(flag) <==> (flag == None || flag == Some(true))
    ensures DefaultOff(flag) <==> !(flag == None || flag == Some(false))
  {
    if flag.Some? {
      if flag.value {
        assert flag == Some(true);
      } else {
        assert flag == Some(false);
      }
    }
  }

  /** Recording appends exactly the given objects to the chosen tracking
      list and to the output array when there is one, and leaves the other
      lists alone. */
  lemma RecordAppends(w: World, part: Part, objs: seq<Obj>)
    ensures var r := Record(w, part, objs);
      && r.tracked.terrain == w.tracked.terrain + (if part == TerrainPart then objs else [])
      && r.tracked.house == w.tracked.house + (if part == HousePart then objs else [])
      && r.tracked.trees == w.tracked.trees + (if part == TreesPart then objs else [])
      && r.tracked.lights == w.tracked.lights
      && (r.out.Some? <==> w.out.Some?)
      && (w.out.Some? ==> r.out.value == w.out.value + objs)
  {
    var r := Record(w, part, objs);
    if part != TerrainPart {
      assert w.tracked.terrain + [] == w.tracked.terrain;
    }
    if part != HousePart {
      assert w.tracked.house + [] == w.tracked.house;
    }
    if part != TreesPart {
      assert w.tracked.trees + [] == w.tracked.trees;
    }
  }

  /** The terrain step appends two meshes to the terrain list, and to the
      output array when there is one, and touches no other list. The first
      is the dirt mesh: every in-disc cell from -1 up to below its column
      height. The second is the snow mesh: exactly the in-disc column tops.
      The heights follow the hills flag (all 0 with hills off) and the peak
      the options select, and both meshes have (2r + 1)² · 5 slots. */
  lemma TerrainStep(w: World, o: WorldOptions, opts: Options, f: Field, erode: (int, int) -> Unit01)
    ensures var w', n := GenerateTerrain(w, o, opts, f, erode), |w.tracked.terrain|;
      var hills, peak := opts.hills != Some(false), if opts.useGameHeight == Some(true) then 20 else 10;
      && |w'.tracked.terrain| == n + 2 && w'.tracked.terrain[..n] == w.tracked.terrain
      && w'.tracked.house == w.tracked.house && w'.tracked.trees == w.tracked.trees
      && w'.tracked.lights == w.tracked.lights
      && (w'.out.Some? <==> w.out.Some?)
      && (w.out.Some? ==> w'.out.value == w.out.value + w'.tracked.terrain[n..])
      && var dirt, snow := w'.tracked.terrain[n], w'.tracked.terrain[n + 1];
      && dirt.Instanced? && dirt.mat == Dirt && dirt.capacity == (2 * o.worldRadius + 1) * (2 * o.worldRadius + 1) * 5
      && snow.Instanced? && snow.mat == SnowBlock && snow.capacity == dirt.capacity
      && (forall c :: c in dirt.cells <==>
            Included(o, c.x, c.z) && -1 <= c.y < ColumnHeight(o, hills, peak, f, erode, c.x, c.z))
      && (forall c :: c in snow.cells <==>
            Included(o, c.x, c.z) && c.y == ColumnHeight(o, hills, peak, f, erode, c.x, c.z))
      && (!hills ==> forall c :: c in snow.cells ==> c.y == 0)
  {
    var p := TerrainPass(o, opts, f, erode);
    var m := Meshes(p);
    RecordAppends(w, TerrainPart, m);
    var w', n := Record(w, TerrainPart, m), |w.tracked.terrain|;
    assert w'.tracked.terrain[n..] == m;
    assert w'.tracked.terrain[n] == m[0] && w'.tracked.terrain[n + 1] == m[1];
    forall c
      ensures c in m[0].cells <==> Included(o, c.x, c.z) && -1 <= c.y < Height(p, c.x, c.z)
      ensures c in m[1].cells <==> Included(o, c.x, c.z) && c.y == Height(p, c.x, c.z)
    {
      DirtMember(p, c);
      SnowMember(p, c);
    }
  }

  /** With the house switched off nothing changes. Otherwise the house list,
      and the output array when there is one, grow by the 242 objects of
      the cabin, whose floor is the peak the options select: exactly the
      objects of the body, roof and chimney shapes. No other list changes. */
  lemma HouseStep(w: World, opts: Options)
    ensures opts.house == Some(false) ==> GenerateHouse(w, opts) == w
    ensures var w', n := GenerateHouse(w, opts), |w.tracked.house|;
      var floorY := if opts.useGameHeight == Some(true) then 20 else 10;
      opts.house != Some(false) ==>
        && |w'.tracked.house| == n + 242 && w'.tracked.house[..n] == w.tracked.house
        && (forall b :: b in w'.tracked.house[n..] <==>
              House.BodyShape(floorY, b) || House.RoofShape(floorY, b) || House.ChimneyShape(floorY, b))
        && w'.tracked.terrain == w.tracked.terrain && w'.tracked.trees == w.tracked.trees
        && w'.tracked.lights == w.tracked.lights
        && (w'.out.Some? <==> w.out.Some?)
        && (w.out.Some? ==> w'.out.value == w.out.value + w'.tracked.house[n..])
  {
    if opts.house != Some(false) {
      var floorY := PeakOf(opts);
      var objs := House.HouseObjects(floorY);
      RecordAppends(w, HousePart, objs);
      var w', n := Record(w, HousePart, objs), |w.tracked.house|;
      assert w'.tracked.house[n..] == objs;
      House.HouseCounts(floorY);
      forall b
        ensures b in objs <==> House.BodyShape(floorY, b) || House.RoofShape(floorY, b) || House.ChimneyShape(floorY, b)
      {
        House.HouseMember(floorY, b);
      }
    }
  }

  /** With trees switched off nothing changes; otherwise the forest is
      recorded, and it holds a string light only when lights are not switched
      off. */
  lemma TreesStep(w: World, o: WorldOptions, opts: Options, f: Field, sites: int -> Trees.Site)
    ensures opts.trees == Some(false) ==> GenerateTrees(w, o, opts, f, sites) == w
    ensures opts.trees != Some(false) ==>
      var objs := Trees.Forest(o, f, opts.lights != Some(false), sites);
      && GenerateTrees(w, o, opts, f, sites) == Record(w, TreesPart, objs)
      && (opts.lights == Some(false) ==> forall b :: b in objs ==> !b.StringLight?)
  {
    Trees.ForestLightsOff(o, f, sites);
  }

  /** After `clearWorld` every tracking list is empty, so a second call
      disposes nothing and leaves the lists as the first left them. */
  lemma ClearIdempotent(t: Tracking)
    ensures var (t1, gone1) := ClearWorld(t);
      && t1.terrain == [] && t1.house == [] && t1.trees == [] && t1.lights == []
      && |gone1| == |t.terrain| + |t.house| + |t.trees|
      && ClearWorld(t1).0 == t1 && ClearWorld(t1).1 == []
  {
  }

  /** The full generation sequence the page runs: terrain, house, then
      trees, from a cleared world. */
  function GenerateAll(o: WorldOptions, opts: Options, f: Field, erode: (int, int) -> Unit01,
                       sites: int -> Trees.Site, out: Option<seq<Obj>>): World
  {
    var w0 := World(Tracking([], [], [], []), out);
    GenerateTrees(GenerateHouse(GenerateTerrain(w0, o, opts, f, erode), opts), o, opts, f, sites)
  }

  /** The output array holds exactly what `clearWorld` would dispose. */
  predicate InSync(w: World)
  {
    w.out == Some(ClearWorld(w.tracked).1)
  }

  /** The generators run in list order: nothing is recorded yet in the
      lists after `part`. */
  predicate LaterEmpty(t: Tracking, part: Part)
  {
    match part
    case TerrainPart => t.house == [] && t.trees == []
    case HousePart => t.trees == []
    case TreesPart => true
  }

  /** Recording in list order keeps the output array equal to what
      `clearWorld` would dispose, and never touches the lights list. */
  lemma RecordKeepsSync(w: World, part: Part, objs: seq<Obj>)
    requires InSync(w) && LaterEmpty(w.tracked, part)
    ensures InSync(Record(w, part, objs))
    ensures Record(w, part, objs).tracked.lights == w.tracked.lights
  {
    var t := w.tracked;
    match part
    case TerrainPart =>
      assert t.terrain + objs + t.house + t.trees == t.terrain + t.house + t.trees + objs;
    case HousePart =>
      assert t.terrain + (t.house + objs) + t.trees == t.terrain + t.house + t.trees + objs;
    case TreesPart =>
      assert t.terrain + t.house + (t.trees + objs) == t.terrain + t.house + t.trees + objs;
  }

  /** A full generation into an empty output array emits exactly what a
      following `clearWorld` disposes, in the same order, and nothing ever
      lands in the lights list. */
  lemma OutputMatchesCleanup(o: WorldOptions, opts: Options, f: Field, erode: (int, int) -> Unit01,
                             sites: int -> Trees.Site)
    ensures var w := GenerateAll(o, opts, f, erode, sites, Some([]));
      && w.out == Some(ClearWorld(w.tracked).1)
      && w.tracked.lights == []
  {
    var w0 := World(Tracking([], [], [], []), Some([]));
    assert ClearWorld(w0.tracked).1 == [];
    RecordKeepsSync(w0, TerrainPart, Meshes(TerrainPass(o, opts, f, erode)));
    var w1 := GenerateTerrain(w0, o, opts, f, erode);
    if DefaultOn(opts.house) {
      RecordKeepsSync(w1, HousePart, House.HouseObjects(PeakOf(opts)));
    }
    var w2 := GenerateHouse(w1, opts);
    if DefaultOn(opts.trees) {
      RecordKeepsSync(w2, TreesPart, Trees.Forest(o, f, DefaultOn(opts.lights), sites));
    }
  }
}
