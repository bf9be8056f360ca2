/** The cabin stamped by `generateHouse`: a 5×5 plank floor, three wall
    layers with a door, three windows and one point light, a four-step stone
    roof with snow caps, and a two-stone chimney. The template is fixed; only
    the floor height moves it. */
module House {
  import opened JsMath
  import opened Sweep
  import opened Voxels

  /** Half-width of the footprint (`hw`). */
  const HalfWidth := 2

  /** The objects created for the cell (x, z) of body layer y (0 = floor,
      1 .. 3 = walls), in creation order. */
  function BodyObjs(floorY: int, y: int, x: int, z: int): seq<Obj>
  {
    var c := Cell(x, floorY + y, z);
    if y == 0 then [Voxel(c, Plank)]
    else if IntAbs(x) == HalfWidth || IntAbs(z) == HalfWidth then
      if z == HalfWidth && x == 0 && y < 3 then []
      else if y == 2 && ((IntAbs(x) == HalfWidth && z == 0) || (z == -HalfWidth && x == 0)) then
        [Voxel(c, Window)] + (if x == -HalfWidth && z == 0 then [PointLight(c)] else [])
      else [Voxel(c, Wood)]
    else []
  }

  function BodyCell(floorY: int, y: int): (int, int) -> seq<Obj>
  {
    (x, z) => BodyObjs(floorY, y, x, z)
  }

  /** Body layer y: the whole footprint. */
  function BodyLayer(floorY: int): int -> seq<Obj>
  {
    y => Grid(HalfWidth, BodyCell(floorY, y))
  }

  /** Floor and walls: layers y = 0 .. 3. */
  function Body(floorY: int): seq<Obj>
  {
    Concat(0, 3, BodyLayer(floorY))
  }

  /** A stone voxel followed by its snow cap. */
  function RoofCell(y: int): (int, int) -> seq<Obj>
  {
    (x, z) => [Voxel(Cell(x, y, z), Stone), SnowCap(Cell(x, y, z))]
  }

  /** Roof step i: a full square of half-width 3 - i at floorY + 4 + i. */
  function RoofLayer(floorY: int): int -> seq<Obj>
  {
    i => Grid(HalfWidth + 1 - i, RoofCell(floorY + 4 + i))
  }

  function Roof(floorY: int): seq<Obj>
  {
    Concat(0, HalfWidth + 1, RoofLayer(floorY))
  }

  function Chimney(floorY: int): seq<Obj>
  {
    [Voxel(Cell(1, floorY + 6, 1), Stone), Voxel(Cell(1, floorY + 7, 1), Stone)]
  }

  /** Everything `generateHouse` creates, in creation order. */
  function HouseObjects(floorY: int): seq<Obj>
  {
    Body(floorY) + Roof(floorY) + Chimney(floorY)
  }

  // ---------------------------------------------------------------------

  lemma BodyLayerIs(floorY: int, y: int)
    ensures BodyLayer(floorY)(y) == Grid(HalfWidth, BodyCell(floorY, y))
  {
  }

  lemma RoofLayerIs(floorY: int, i: int)
    ensures RoofLayer(floorY)(i) == Grid(HalfWidth + 1 - i, RoofCell(floorY + 4 + i))
  {
  }

  /** The number of objects in layer y of the body, as a sum over the 25
      cells. */
  lemma LayerLength(floorY: int, y: int)
    ensures |BodyLayer(floorY)(y)| ==
      |BodyObjs(floorY, y, -2, -2)| + |BodyObjs(floorY, y, -2, -1)| + |BodyObjs(floorY, y, -2, 0)| + |BodyObjs(floorY, y, -2, 1)| + |BodyObjs(floorY, y, -2, 2)| +
      |BodyObjs(floorY, y, -1, -2)| + |BodyObjs(floorY, y, -1, -1)| + |BodyObjs(floorY, y, -1, 0)| + |BodyObjs(floorY, y, -1, 1)| + |BodyObjs(floorY, y, -1, 2)| +
      |BodyObjs(floorY, y, 0, -2)| + |BodyObjs(floorY, y, 0, -1)| + |BodyObjs(floorY, y, 0, 0)| + |BodyObjs(floorY, y, 0, 1)| + |BodyObjs(floorY, y, 0, 2)| +
      |BodyObjs(floorY, y, 1, -2)| + |BodyObjs(floorY, y, 1, -1)| + |BodyObjs(floorY, y, 1, 0)| + |BodyObjs(floorY, y, 1, 1)| + |BodyObjs(floorY, y, 1, 2)| +
      |BodyObjs(floorY, y, 2, -2)| + |BodyObjs(floorY, y, 2, -1)| + |BodyObjs(floorY, y, 2, 0)| + |BodyObjs(floorY, y, 2, 1)| + |BodyObjs(floorY, y, 2, 2)|
  {
    var cell := BodyCell(floorY, y);
    BodyLayerIs(floorY, y);
    Unroll5(Rows(2, cell));
    Unroll5(Column(cell, -2));
    Unroll5(Column(cell, -1));
    Unroll5(Column(cell, 0));
    Unroll5(Column(cell, 1));
    Unroll5(Column(cell, 2));
  }

  lemma FloorLength(floorY: int)
    ensures |BodyLayer(floorY)(0)| == 25
  {
    BodyLayerIs(floorY, 0);
    GridLengthExactly(2, BodyCell(floorY, 0), 1);
  }

  lemma Wall1Length(floorY: int)
    ensures |BodyLayer(floorY)(1)| == 15
  {
    LayerLength(floorY, 1);
  }

  lemma Wall2Length(floorY: int)
    ensures |BodyLayer(floorY)(2)| == 16
  {
    LayerLength(floorY, 2);
  }

  lemma Wall3Length(floorY: int)
    ensures |BodyLayer(floorY)(3)| == 16
  {
    LayerLength(floorY, 3);
  }

  /** Roof step i is a square of (7 - 2i)² cells, each a stone and its
      cap. */
  lemma RoofStepLength(floorY: int, i: int)
    requires 0 <= i <= 3
    ensures |RoofLayer(floorY)(i)| == 2 * (7 - 2 * i) * (7 - 2 * i)
  {
    var r := 3 - i;
    RoofLayerIs(floorY, i);
    GridLengthExactly(r, RoofCell(floorY + 4 + i), 2);
    assert Span(-r, r) == 7 - 2 * i;
  }

  /** The four roof steps hold 2 · (49 + 25 + 9 + 1) objects. */
  lemma RoofLength(floorY: int)
    ensures |Roof(floorY)| == 168
  {
    RoofStepLength(floorY, 0);
    RoofStepLength(floorY, 1);
    RoofStepLength(floorY, 2);
    RoofStepLength(floorY, 3);
    var roof := RoofLayer(floorY);
    assert Roof(floorY) == roof(0) + (roof(1) + (roof(2) + (roof(3) + Concat(4, 3, roof))));
  }

  /** The cabin has 242 objects: 25 floor planks; 15, 16 and 16 wall objects
      on layers 1 to 3 (the door gap costs one cell on layers 1 and 2, and
      layer 2 adds the light); 2 · (49 + 25 + 9 + 1) stones and caps; and the
      two chimney stones. */
  lemma HouseCounts(floorY: int)
    ensures |Body(floorY)| == 72
    ensures |Roof(floorY)| == 168
    ensures |HouseObjects(floorY)| == 242
  {
    FloorLength(floorY);
    Wall1Length(floorY);
    Wall2Length(floorY);
    Wall3Length(floorY);
    RoofLength(floorY);
    Length4(Body(floorY), 0, 3, BodyLayer(floorY));
  }

  // ---------------------------------------------------------------------
  // Shape.

  /** The window cells of layer 2: (2, 0), (-2, 0) and (0, -2). */
  predicate WindowSpot(x: int, z: int)
  {
    ((x == 2 || x == -2) && z == 0) || (x == 0 && z == -2)
  }

  /** Whether (x, z) lies on the wall ring of the footprint. */
  predicate Perimeter(x: int, z: int)
  {
    ((x == 2 || x == -2) && -2 <= z <= 2) || ((z == 2 || z == -2) && -2 <= x <= 2)
  }

  /** What the body is, object by object: planks over the whole footprint on
      layer 0; on layers 1 .. 3 the perimeter only, less the doorway (0, 2)
      on layers 1 and 2, in window on the three window cells of layer 2 and
      in wood elsewhere; and one point light in the window cell (-2, 0). */
  predicate BodyShape(floorY: int, o: Obj)
  {
    && (o.Voxel? || o.PointLight?)
    && var x := o.at.x;
    && var y := o.at.y - floorY;
    && var z := o.at.z;
    && 0 <= y <= 3 && -2 <= x <= 2 && -2 <= z <= 2
    && if o.PointLight? then y == 2 && x == -2 && z == 0
       else if y == 0 then o.mat == Plank
       else
         && Perimeter(x, z)
         && !(x == 0 && z == 2 && y < 3)
         && o.mat == (if y == 2 && WindowSpot(x, z) then Window else Wood)
  }

  /** What the roof is, object by object: a stone and a snow cap on every
      cell of step i, a square of half-width 3 - i at floorY + 4 + i. */
  predicate RoofShape(floorY: int, o: Obj)
  {
    && ((o.Voxel? && o.mat == Stone) || o.SnowCap?)
    && RoofSite(floorY, if o.Voxel? then o.at else o.on)
  }

  /** The cells of the body create exactly the objects of the body shape,
      each at its own cell. */
  lemma BodyObjsShape(floorY: int, y: int, x: int, z: int, o: Obj)
    requires 0 <= y <= 3 && -2 <= x <= 2 && -2 <= z <= 2
    requires o in BodyObjs(floorY, y, x, z)
    ensures BodyShape(floorY, o) && o.at == Cell(x, floorY + y, z)
  {
  }

  lemma ShapeBodyObjs(floorY: int, o: Obj)
    requires BodyShape(floorY, o)
    ensures o in BodyObjs(floorY, o.at.y - floorY, o.at.x, o.at.z)
  {
  }

  lemma BodyOutLayer(floorY: int, y: int, o: Obj)
    requires 0 <= y <= 3 && o in Grid(HalfWidth, BodyCell(floorY, y))
    ensures BodyShape(floorY, o)
  {
    GridMember(HalfWidth, BodyCell(floorY, y), o);
    var x, z :| -2 <= x <= 2 && -2 <= z <= 2 && o in BodyCell(floorY, y)(x, z);
    assert BodyCell(floorY, y)(x, z) == BodyObjs(floorY, y, x, z);
    BodyObjsShape(floorY, y, x, z, o);
  }

  lemma BodyOut(floorY: int, o: Obj)
    requires o in Body(floorY)
    ensures BodyShape(floorY, o)
  {
    ConcatMember(0, 3, BodyLayer(floorY), o);
    var y :| 0 <= y <= 3 && o in BodyLayer(floorY)(y);
    BodyLayerIs(floorY, y);
    BodyOutLayer(floorY, y, o);
  }

  lemma BodyInCell(floorY: int, y: int, x: int, z: int, o: Obj)
    requires 0 <= y <= 3 && -2 <= x <= 2 && -2 <= z <= 2
    requires o in BodyObjs(floorY, y, x, z)
    ensures o in Body(floorY)
  {
    BodyLayerIs(floorY, y);
    assert o in BodyCell(floorY, y)(x, z);
    ConcatGridIn(0, 3, BodyLayer(floorY), HalfWidth, BodyCell(floorY, y), y, x, z, o);
  }

  lemma BodyIn(floorY: int, o: Obj)
    requires BodyShape(floorY, o)
    ensures o in Body(floorY)
  {
    ShapeBodyObjs(floorY, o);
    BodyInCell(floorY, o.at.y - floorY, o.at.x, o.at.z, o);
  }

  /** The body is exactly its shape. */
  lemma BodyMember(floorY: int, o: Obj)
    ensures o in Body(floorY) <==> BodyShape(floorY, o)
  {
    if o in Body(floorY) {
      BodyOut(floorY, o);
    }
    if BodyShape(floorY, o) {
      BodyIn(floorY, o);
    }
  }

  lemma RoofOutStep(floorY: int, i: int, r: int, o: Obj)
    requires 0 <= i <= 3 && r == 3 - i && o in Grid(r, RoofCell(floorY + 4 + i))
    ensures RoofShape(floorY, o)
  {
    GridMember(r, RoofCell(floorY + 4 + i), o);
    var x, z :| -r <= x <= r && -r <= z <= r && o in RoofCell(floorY + 4 + i)(x, z);
  }

  lemma RoofOut(floorY: int, o: Obj)
    requires o in Roof(floorY)
    ensures RoofShape(floorY, o)
  {
    ConcatMember(0, 3, RoofLayer(floorY), o);
    var i :| 0 <= i <= 3 && o in RoofLayer(floorY)(i);
    RoofLayerIs(floorY, i);
    RoofOutStep(floorY, i, 3 - i, o);
  }

  lemma RoofInStep(floorY: int, i: int, r: int, x: int, z: int, o: Obj)
    requires 0 <= i <= 3 && r == 3 - i && -r <= x <= r && -r <= z <= r
    requires o in RoofCell(floorY + 4 + i)(x, z)
    ensures o in Roof(floorY)
  {
    RoofLayerIs(floorY, i);
    ConcatGridIn(0, 3, RoofLayer(floorY), r, RoofCell(floorY + 4 + i), i, x, z, o);
  }

  lemma RoofIn(floorY: int, o: Obj)
    requires RoofShape(floorY, o)
    ensures o in Roof(floorY)
  {
    var c := if o.Voxel? then o.at else o.on;
    var i := c.y - floorY - 4;
    assert c == Cell(c.x, floorY + 4 + i, c.z);
    assert o in RoofCell(floorY + 4 + i)(c.x, c.z);
    RoofInStep(floorY, i, 3 - i, c.x, c.z, o);
  }

  /** The roof is exactly its shape. */
  lemma RoofMember(floorY: int, o: Obj)
    ensures o in Roof(floorY) <==> RoofShape(floorY, o)
  {
    if o in Roof(floorY) {
      RoofOut(floorY, o);
    }
    if RoofShape(floorY, o) {
      RoofIn(floorY, o);
    }
  }

  /** The chimney: two stones at (1, 1), on floorY + 6 and floorY + 7. */
  predicate ChimneyShape(floorY: int, o: Obj)
  {
    o.Voxel? && o.mat == Stone && o.at.x == 1 && o.at.z == 1 && floorY + 6 <= o.at.y <= floorY + 7
  }

  lemma ChimneyMember(floorY: int, o: Obj)
    ensures o in Chimney(floorY) <==> ChimneyShape(floorY, o)
  {
  }

  lemma HouseParts(floorY: int, o: Obj)
    ensures o in HouseObjects(floorY) <==> o in Body(floorY) || o in Roof(floorY) || o in Chimney(floorY)
  {
  }

  /** The house is its body, its roof and its chimney. */
  lemma HouseMember(floorY: int, o: Obj)
    ensures o in HouseObjects(floorY) <==>
      BodyShape(floorY, o) || RoofShape(floorY, o) || ChimneyShape(floorY, o)
  {
    HouseParts(floorY, o);
    BodyMember(floorY, o);
    RoofMember(floorY, o);
    ChimneyMember(floorY, o);
  }

  lemma FloorPlank(floorY: int, x: int, z: int)
    requires -2 <= x <= 2 && -2 <= z <= 2
    ensures Voxel(Cell(x, floorY, z), Plank) in HouseObjects(floorY)
  {
    var v := Voxel(Cell(x, floorY, z), Plank);
    assert BodyShape(floorY, v);
    BodyIn(floorY, v);
    HouseParts(floorY, v);
  }

  lemma FloorVoxel(floorY: int, o: Obj)
    requires o in HouseObjects(floorY) && o.Voxel? && o.at.y == floorY
    ensures o.mat == Plank && -2 <= o.at.x <= 2 && -2 <= o.at.z <= 2
  {
    HouseMember(floorY, o);
  }

  /** The floor is all 25 cells of the footprint in plank at floorY, and
      nothing else the house creates lies on that level. */
  lemma HouseFloor(floorY: int)
    ensures forall x, z :: -2 <= x <= 2 && -2 <= z <= 2 ==> Voxel(Cell(x, floorY, z), Plank) in HouseObjects(floorY)
    ensures forall o :: o in HouseObjects(floorY) && o.Voxel? && o.at.y == floorY ==>
              o.mat == Plank && -2 <= o.at.x <= 2 && -2 <= o.at.z <= 2
  {
    forall x, z | -2 <= x <= 2 && -2 <= z <= 2
      ensures Voxel(Cell(x, floorY, z), Plank) in HouseObjects(floorY)
    {
      FloorPlank(floorY, x, z);
    }
    forall o | o in HouseObjects(floorY) && o.Voxel? && o.at.y == floorY
      ensures o.mat == Plank && -2 <= o.at.x <= 2 && -2 <= o.at.z <= 2
    {
      FloorVoxel(floorY, o);
    }
  }

  lemma WallVoxel(floorY: int, o: Obj)
    requires o in HouseObjects(floorY) && o.Voxel? && floorY < o.at.y <= floorY + 3
    ensures Perimeter(o.at.x, o.at.z)
  {
    HouseMember(floorY, o);
  }

  lemma DoorwayOpen(floorY: int, o: Obj)
    requires o in HouseObjects(floorY) && o.Voxel? && o.at.x == 0 && o.at.z == 2
    ensures o.at.y != floorY + 1 && o.at.y != floorY + 2
  {
    HouseMember(floorY, o);
  }

  lemma DoorLintel(floorY: int)
    ensures Voxel(Cell(0, floorY + 3, 2), Wood) in HouseObjects(floorY)
  {
    var v := Voxel(Cell(0, floorY + 3, 2), Wood);
    assert BodyShape(floorY, v);
    BodyIn(floorY, v);
    HouseParts(floorY, v);
  }

  /** Wall layers 1 .. 3 hold only perimeter cells, and the door cell (0, 2)
      is open on layers 1 and 2 and walled in wood on layer 3. */
  lemma HouseWalls(floorY: int)
    ensures forall o :: o in HouseObjects(floorY) && o.Voxel? && floorY < o.at.y <= floorY + 3 ==>
              Perimeter(o.at.x, o.at.z)
    ensures forall o :: o in HouseObjects(floorY) && o.Voxel? && o.at.x == 0 && o.at.z == 2 ==>
              o.at.y != floorY + 1 && o.at.y != floorY + 2
    ensures Voxel(Cell(0, floorY + 3, 2), Wood) in HouseObjects(floorY)
  {
    forall o | o in HouseObjects(floorY) && o.Voxel? && floorY < o.at.y <= floorY + 3
      ensures Perimeter(o.at.x, o.at.z)
    {
      WallVoxel(floorY, o);
    }
    forall o | o in HouseObjects(floorY) && o.Voxel? && o.at.x == 0 && o.at.z == 2
      ensures o.at.y != floorY + 1 && o.at.y != floorY + 2
    {
      DoorwayOpen(floorY, o);
    }
    DoorLintel(floorY);
  }

  lemma WindowAt(floorY: int, x: int, z: int)
    requires WindowSpot(x, z)
    ensures Voxel(Cell(x, floorY + 2, z), Window) in HouseObjects(floorY)
  {
    var v := Voxel(Cell(x, floorY + 2, z), Window);
    assert BodyShape(floorY, v);
    BodyIn(floorY, v);
    HouseParts(floorY, v);
  }

  lemma WindowVoxel(floorY: int, o: Obj)
    requires o in HouseObjects(floorY) && o.Voxel? && o.mat == Window
    ensures o.at.y == floorY + 2 && WindowSpot(o.at.x, o.at.z)
  {
    HouseMember(floorY, o);
    ShapeWindow(floorY, o);
  }

  lemma ShapeWindow(floorY: int, o: Obj)
    requires o.Voxel? && o.mat == Window
    requires BodyShape(floorY, o) || RoofShape(floorY, o) || ChimneyShape(floorY, o)
    ensures o.at.y == floorY + 2 && WindowSpot(o.at.x, o.at.z)
  {
  }

  /** Layer 2 has windows at (2, 0), (-2, 0) and (0, -2), and the house has
      no other window. */
  lemma HouseWindows(floorY: int)
    ensures forall x, z :: WindowSpot(x, z) ==> Voxel(Cell(x, floorY + 2, z), Window) in HouseObjects(floorY)
    ensures forall o :: o in HouseObjects(floorY) && o.Voxel? && o.mat == Window ==>
              o.at.y == floorY + 2 && WindowSpot(o.at.x, o.at.z)
  {
    forall x, z | WindowSpot(x, z)
      ensures Voxel(Cell(x, floorY + 2, z), Window) in HouseObjects(floorY)
    {
      WindowAt(floorY, x, z);
    }
    forall o | o in HouseObjects(floorY) && o.Voxel? && o.mat == Window
      ensures o.at.y == floorY + 2 && WindowSpot(o.at.x, o.at.z)
    {
      WindowVoxel(floorY, o);
    }
  }

  lemma LightAt(floorY: int, o: Obj)
    requires o in HouseObjects(floorY) && o.PointLight?
    ensures o.at == Cell(-2, floorY + 2, 0)
  {
    HouseMember(floorY, o);
  }

  /** The house holds one kind of light: a point light in the window cell
      (-2, floorY + 2, 0). */
  lemma HouseLight(floorY: int)
    ensures PointLight(Cell(-2, floorY + 2, 0)) in HouseObjects(floorY)
    ensures forall o :: o in HouseObjects(floorY) && o.PointLight? ==> o.at == Cell(-2, floorY + 2, 0)
  {
    var l := PointLight(Cell(-2, floorY + 2, 0));
    assert BodyShape(floorY, l);
    BodyIn(floorY, l);
    HouseParts(floorY, l);
    forall o | o in HouseObjects(floorY) && o.PointLight?
      ensures o.at == Cell(-2, floorY + 2, 0)
    {
      LightAt(floorY, o);
    }
  }

  /** Whether c lies on roof step c.y - floorY - 4. */
  predicate RoofSite(floorY: int, c: Cell)
  {
    floorY + 4 <= c.y <= floorY + 7 && -(floorY + 7 - c.y) <= c.x <= floorY + 7 - c.y
    && -(floorY + 7 - c.y) <= c.z <= floorY + 7 - c.y
  }

  lemma RoofStone(floorY: int, c: Cell)
    requires RoofSite(floorY, c)
    ensures Voxel(c, Stone) in HouseObjects(floorY) && SnowCap(c) in HouseObjects(floorY)
  {
    assert RoofShape(floorY, Voxel(c, Stone)) && RoofShape(floorY, SnowCap(c));
    RoofIn(floorY, Voxel(c, Stone));
    RoofIn(floorY, SnowCap(c));
    HouseParts(floorY, Voxel(c, Stone));
    HouseParts(floorY, SnowCap(c));
  }

  lemma CapOnStone(floorY: int, o: Obj)
    requires o in HouseObjects(floorY) && o.SnowCap?
    ensures Voxel(o.on, Stone) in HouseObjects(floorY)
  {
    HouseMember(floorY, o);
    RoofStone(floorY, o.on);
  }

  /** Every roof step i is a full square of half-width 3 - i of stones at
      floorY + 4 + i, each with its snow cap, and every snow cap sits on a
      stone of the house. */
  lemma HouseRoof(floorY: int)
    ensures forall c: Cell :: RoofSite(floorY, c) ==>
              Voxel(c, Stone) in HouseObjects(floorY) && SnowCap(c) in HouseObjects(floorY)
    ensures forall o :: o in HouseObjects(floorY) && o.SnowCap? ==> Voxel(o.on, Stone) in HouseObjects(floorY)
  {
    forall c: Cell | RoofSite(floorY, c)
      ensures Voxel(c, Stone) in HouseObjects(floorY) && SnowCap(c) in HouseObjects(floorY)
    {
      RoofStone(floorY, c);
    }
    forall o | o in HouseObjects(floorY) && o.SnowCap?
      ensures Voxel(o.on, Stone) in HouseObjects(floorY)
    {
      CapOnStone(floorY, o);
    }
  }

  /** The lower chimney stone repeats the roof stone already at (1, floorY + 6,
      1); the upper one stands alone above the roof's single top stone. */
  lemma ChimneyOverlap(floorY: int)
    ensures Voxel(Cell(1, floorY + 6, 1), Stone) in Roof(floorY)
    ensures Voxel(Cell(1, floorY + 7, 1), Stone) !in Roof(floorY)
  {
    RoofMember(floorY, Voxel(Cell(1, floorY + 6, 1), Stone));
    RoofMember(floorY, Voxel(Cell(1, floorY + 7, 1), Stone));
  }
}
