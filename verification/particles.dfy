/** The particle arithmetic of js/particles.js: snowflakes that fall at a
    fixed speed and wrap from below y = -2 back to y = 30, and leaves that
    fall and sway and respawn high above the ground once below y = 0. Every
    `Math.random()` is an oracle, and the two trigonometric sways are
    oracle values in [-1, 1]. */
module Particles {
  import opened JsMath
  import opened Config

  /** `Math.PI` as a double. */
  const Pi: real := 3.141592653589793

  /** A value of `Math.sin` or `Math.cos`. */
  type Wave = r: real | -1.0 <= r <= 1.0

  datatype Vec = Vec(x: real, y: real, z: real)

  /** One snowflake: its three slots in the position buffer and its entry
      in `snowVelocities`. */
  datatype Flake = Flake(pos: Vec, velocity: real)

  /** One leaf's entry in `leafData`. */
  datatype LeafData = LeafData(speedY: real, swayFreq: real, swayAmp: real, phase: real)

  /** One leaf: its position slots, its palette index, and its data. */
  datatype Leaf = Leaf(pos: Vec, color: nat, data: LeafData)

  /** The `Math.random()` calls of one particle, in call order. */
  type Draws = nat -> Unit01

  // ---------------------------------------------------------------------
  // Random ranges.

  /** `lo + Math.random() * width`: a value in [lo, lo + width). */
  function Uniform(lo: real, width: real, u: Unit01): (v: real)
    requires width > 0.0
    ensures lo <= v < lo + width
  {
    Scale(u, width);
    lo + u * width
  }

  /** `(Math.random() - 0.5) * spread`: a value within half the spread of
      0, and in [-spread/2, spread/2) when the spread is positive. */
  function Centered(u: Unit01, spread: real): (v: real)
    ensures Abs(v) <= Abs(spread) / 2.0
    ensures spread > 0.0 ==> -spread / 2.0 <= v < spread / 2.0
  {
    var v := (u - 0.5) * spread;
    CenteredBounds(u, spread, v);
    v
  }

  lemma CenteredBounds(u: Unit01, spread: real, v: real)
    requires v == (u - 0.5) * spread
    ensures Abs(v) <= Abs(spread) / 2.0
    ensures spread > 0.0 ==> -spread / 2.0 <= v < spread / 2.0
  {
    var p := u * spread;
    ShiftProduct(u, spread);
    if spread >= 0.0 {
      Scale(u, spread);
    } else {
      Scale(u, -spread);
      NegateFactor(u, spread);
    }
    CenteredLinear(p, spread, v);
  }

  lemma ShiftProduct(u: real, n: real)
    ensures (u - 0.5) * n == u * n - n / 2.0
  {
  }

  lemma NegateFactor(u: real, n: real)
    ensures u * (-n) == -(u * n)
  {
  }

  /** The bounds of a centred draw, once the product p = u · spread is
      known to lie between 0 and the spread. */
  lemma CenteredLinear(p: real, spread: real, v: real)
    requires v == p - spread / 2.0
    requires spread >= 0.0 ==> 0.0 <= p <= spread && (spread > 0.0 ==> p < spread)
    requires spread < 0.0 ==> spread <= p <= 0.0
    ensures Abs(v) <= Abs(spread) / 2.0
    ensures spread > 0.0 ==> -spread / 2.0 <= v < spread / 2.0
  {
  }

  /** A sway of amplitude a moves a coordinate by at most a. */
  lemma Sway(w: Wave, a: real)
    requires a >= 0.0
    ensures -a <= w * a <= a
  {
    assert a - w * a == (1.0 - w) * a;
    assert a + w * a == (1.0 + w) * a;
  }

  // ---------------------------------------------------------------------
  // Snow.

  /** The snow spread `worldRadius * 2.5`. */
  function SnowSpread(o: WorldOptions): real
  {
    o.worldRadius as real * 2.5
  }

  /** The flake one pass of the `initSnow` loop makes. */
  function NewFlake(spread: real, d: Draws): Flake
  {
    var y := d(1) * 30.0;
    Flake(Vec(Centered(d(0), spread), y, Centered(d(2), spread)), Uniform(0.05, 0.1, d(3)))
  }

  /** A new flake is drawn from the ranges of `FreshFlake`. */
  lemma NewFlakeFresh(o: WorldOptions, d: Draws)
    ensures FreshFlake(o, NewFlake(SnowSpread(o), d))
  {
    Scale(d(1), 30.0);
    var r := o.worldRadius as real;
    assert SnowSpread(o) / 2.0 == r * 1.25;
    assert Abs(SnowSpread(o)) / 2.0 == Abs(r * 1.25);
  }

  /** `initSnow`: `snowCount` flakes; draw(i) holds the calls of pass i. */
  function InitSnow(o: WorldOptions, draw: nat -> Draws): (fs: seq<Flake>)
    ensures |fs| == o.snowCount
    ensures forall i :: 0 <= i < |fs| ==> FreshFlake(o, fs[i])
  {
    var fs := seq(o.snowCount, i requires 0 <= i => NewFlake(SnowSpread(o), draw(i)));
    assert forall i :: 0 <= i < |fs| ==> FreshFlake(o, fs[i]) by {
      forall i | 0 <= i < |fs|
        ensures FreshFlake(o, fs[i])
      {
        NewFlakeFresh(o, draw(i));
      }
    }
    fs
  }

  /** The ranges a new flake is drawn from. */
  predicate FreshFlake(o: WorldOptions, f: Flake)
  {
    var half := o.worldRadius as real * 1.25;
    && 0.05 <= f.velocity < 0.15
    && 0.0 <= f.pos.y < 30.0
    && Abs(f.pos.x) <= Abs(half) && Abs(f.pos.z) <= Abs(half)
    && (half > 0.0 ==> -half <= f.pos.x < half && -half <= f.pos.z < half)
  }

  /** One flake in `update`: fall by its velocity, drift by the sway, and
      wrap to the top once below -2. */
  function SnowStep(f: Flake, wave: Wave): Flake
  {
    var y := f.pos.y - f.velocity;
    var x := f.pos.x + wave * 0.01;
    Flake(Vec(x, if y < -2.0 then 30.0 else y, f.pos.z), f.velocity)
  }

  /** The snow half of `update`; wave(i) is `Math.sin(now * 0.001 + i)`. */
  function UpdateSnow(fs: seq<Flake>, wave: nat -> Wave): (fs': seq<Flake>)
    ensures |fs'| == |fs|
    ensures forall i :: 0 <= i < |fs| ==> fs'[i] == SnowStep(fs[i], wave(i))
  {
    seq(|fs|, i requires 0 <= i < |fs| => SnowStep(fs[i], wave(i)))
  }

  /** What holds of a flake at all times. */
  predicate FlakeOk(f: Flake)
  {
    0.05 <= f.velocity < 0.15 && -2.0 <= f.pos.y <= 30.0
  }

  /** A step keeps the velocity and z, drifts x by at most 0.01, and either
      lowers y by exactly the velocity or, once that would pass -2, puts the
      flake back at 30; so a flake that was in range stays in range. */
  lemma SnowStepLaws(f: Flake, wave: Wave)
    ensures var g := SnowStep(f, wave);
      && g.velocity == f.velocity && g.pos.z == f.pos.z
      && Abs(g.pos.x - f.pos.x) <= 0.01
      && (f.pos.y - f.velocity >= -2.0 ==> g.pos.y == f.pos.y - f.velocity)
      && (f.pos.y - f.velocity < -2.0 ==> g.pos.y == 30.0)
    ensures FlakeOk(f) ==> FlakeOk(SnowStep(f, wave))
  {
    Sway(wave, 0.01);
  }

  /** New flakes are in range, and `update` keeps every flake in range. */
  lemma SnowStaysInRange(o: WorldOptions, draw: nat -> Draws, fs: seq<Flake>, wave: nat -> Wave)
    ensures forall i :: 0 <= i < o.snowCount ==> FlakeOk(InitSnow(o, draw)[i])
    ensures (forall i :: 0 <= i < |fs| ==> FlakeOk(fs[i])) ==>
              forall i :: 0 <= i < |fs| ==> FlakeOk(UpdateSnow(fs, wave)[i])
  {
    forall i | 0 <= i < |fs|
      ensures FlakeOk(fs[i]) ==> FlakeOk(UpdateSnow(fs, wave)[i])
    {
      SnowStepLaws(fs[i], wave(i));
    }
  }

  // ---------------------------------------------------------------------
  // Leaves.

  /** The leaf spread `worldRadius * 2.2`. */
  function LeafSpread(o: WorldOptions): real
  {
    o.worldRadius as real * 2.2
  }

  /** The leaf one pass of the `initLeaves` loop makes: position, palette
      colour, then the four sway parameters. */
  function NewLeaf(spread: real, d: Draws): Leaf
  {
    var pos := Vec(Centered(d(0), spread), Uniform(5.0, 15.0, d(1)), Centered(d(2), spread));
    var data := LeafData(Uniform(0.01, 0.03, d(4)), Uniform(0.002, 0.002, d(5)),
                         Uniform(0.02, 0.03, d(6)), d(7) * Pi * 2.0);
    Leaf(pos, Pick(d(3), 4), data)
  }

  /** The ranges a leaf's parameters are drawn from. */
  predicate DataOk(l: Leaf)
  {
    && l.color < 4
    && 0.01 <= l.data.speedY < 0.04
    && 0.002 <= l.data.swayFreq < 0.004
    && 0.02 <= l.data.swayAmp < 0.05
    && 0.0 <= l.data.phase < 2.0 * Pi
  }

  /** A new leaf is drawn from the ranges of `DataOk`, at a height in
      [5, 20), within 1.1 world radii of the centre. */
  lemma NewLeafFresh(o: WorldOptions, d: Draws)
    ensures var l := NewLeaf(LeafSpread(o), d);
      DataOk(l) && 5.0 <= l.pos.y < 20.0 && InBand(l.pos, o.worldRadius as real * 1.1)
  {
    PhaseRange(d(7));
    var r := o.worldRadius as real;
    assert LeafSpread(o) / 2.0 == r * 1.1;
    assert Abs(LeafSpread(o)) / 2.0 == Abs(r * 1.1);
  }

  /** `initLeaves`: `leafCount` leaves; draw(i) holds the calls of pass i. */
  function InitLeaves(o: WorldOptions, draw: nat -> Draws): (ls: seq<Leaf>)
    ensures |ls| == o.leafCount
    ensures forall i :: 0 <= i < |ls| ==> DataOk(ls[i]) && 5.0 <= ls[i].pos.y < 20.0
    ensures forall i :: 0 <= i < |ls| ==> InBand(ls[i].pos, o.worldRadius as real * 1.1)
  {
    var ls := seq(o.leafCount, i requires 0 <= i => NewLeaf(LeafSpread(o), draw(i)));
    assert forall i :: 0 <= i < |ls| ==>
        DataOk(ls[i]) && 5.0 <= ls[i].pos.y < 20.0 && InBand(ls[i].pos, o.worldRadius as real * 1.1) by {
      forall i | 0 <= i < |ls|
        ensures DataOk(ls[i]) && 5.0 <= ls[i].pos.y < 20.0 && InBand(ls[i].pos, o.worldRadius as real * 1.1)
      {
        NewLeafFresh(o, draw(i));
      }
    }
    ls
  }

  /** x and z within `half` of the centre, and in [-half, half) when `half`
      is positive. */
  predicate InBand(p: Vec, half: real)
  {
    && Abs(p.x) <= Abs(half) && Abs(p.z) <= Abs(half)
    && (half > 0.0 ==> -half <= p.x < half && -half <= p.z < half)
  }

  lemma PhaseRange(u: Unit01)
    ensures 0.0 <= u * Pi * 2.0 < 2.0 * Pi
  {
    Scale(u, Pi);
  }

  /** One leaf in `update`: fall by its speed, sway in x and z, and once
      below 0 respawn at a fresh height in [15, 20) and a fresh spot;
      respawn holds the three calls of the respawn, in call order. */
  function LeafStep(l: Leaf, sin: Wave, cos: Wave, spread: real, respawn: Draws): Leaf
  {
    var y := l.pos.y - l.data.speedY;
    var x := l.pos.x + sin * l.data.swayAmp;
    var z := l.pos.z + cos * l.data.swayAmp;
    if y < 0.0 then
      var y' := Uniform(15.0, 5.0, respawn(0));
      l.(pos := Vec(Centered(respawn(1), spread), y', Centered(respawn(2), spread)))
    else l.(pos := Vec(x, y, z))
  }

  /** The leaf half of `update`; sin(i) and cos(i) are the sway of leaf i at
      this frame and respawn(i) its respawn calls. */
  function UpdateLeaves(o: WorldOptions, ls: seq<Leaf>, sin: nat -> Wave, cos: nat -> Wave,
                        respawn: nat -> Draws): (ls': seq<Leaf>)
    ensures |ls'| == |ls|
    ensures forall i :: 0 <= i < |ls| ==> ls'[i] == LeafStep(ls[i], sin(i), cos(i), LeafSpread(o), respawn(i))
  {
    seq(|ls|, i requires 0 <= i < |ls| => LeafStep(ls[i], sin(i), cos(i), LeafSpread(o), respawn(i)))
  }

  /** What holds of a leaf at all times. */
  predicate LeafOk(l: Leaf)
  {
    DataOk(l) && 0.0 <= l.pos.y < 20.0
  }

  /** A step keeps the palette colour and the sway data; a leaf that stays
      up falls by exactly its speed and sways by at most its amplitude in x
      and z, and one that falls below 0 comes back in [15, 20) within 1.1
      world radii of the centre; so a leaf that was in range stays in
      range. */
  lemma LeafStepLaws(o: WorldOptions, l: Leaf, sin: Wave, cos: Wave, respawn: Draws)
    requires l.data.swayAmp >= 0.0
    ensures var m := LeafStep(l, sin, cos, LeafSpread(o), respawn);
      && m.color == l.color && m.data == l.data
      && (l.pos.y - l.data.speedY >= 0.0 ==>
            && m.pos.y == l.pos.y - l.data.speedY
            && Abs(m.pos.x - l.pos.x) <= l.data.swayAmp
            && Abs(m.pos.z - l.pos.z) <= l.data.swayAmp)
      && (l.pos.y - l.data.speedY < 0.0 ==>
            15.0 <= m.pos.y < 20.0 && InBand(m.pos, o.worldRadius as real * 1.1))
    ensures LeafOk(l) ==> LeafOk(LeafStep(l, sin, cos, LeafSpread(o), respawn))
  {
    if l.pos.y - l.data.speedY < 0.0 {
      LeafRespawns(o, l, sin, cos, respawn);
    } else {
      LeafFalls(l, sin, cos, LeafSpread(o), respawn);
    }
  }

  /** The stay-up case of `LeafStepLaws`. */
  lemma LeafFalls(l: Leaf, sin: Wave, cos: Wave, spread: real, respawn: Draws)
    requires l.data.swayAmp >= 0.0 && l.pos.y - l.data.speedY >= 0.0
    ensures var m := LeafStep(l, sin, cos, spread, respawn);
      && m.color == l.color && m.data == l.data
      && m.pos.y == l.pos.y - l.data.speedY
      && Abs(m.pos.x - l.pos.x) <= l.data.swayAmp
      && Abs(m.pos.z - l.pos.z) <= l.data.swayAmp
  {
    var a := l.data.swayAmp;
    var m := LeafStep(l, sin, cos, spread, respawn);
    assert m.pos.x == l.pos.x + sin * a && m.pos.z == l.pos.z + cos * a;
    SwayBound(l.pos.x, sin, a);
    SwayBound(l.pos.z, cos, a);
  }

  lemma SwayBound(p: real, w: Wave, a: real)
    requires a >= 0.0
    ensures Abs(p + w * a - p) <= a
  {
    Sway(w, a);
    var q := w * a;
    assert p + q - p == q;
  }

  /** The respawn case of `LeafStepLaws`. */
  lemma LeafRespawns(o: WorldOptions, l: Leaf, sin: Wave, cos: Wave, respawn: Draws)
    requires l.pos.y - l.data.speedY < 0.0
    ensures var m := LeafStep(l, sin, cos, LeafSpread(o), respawn);
      && m.color == l.color && m.data == l.data
      && 15.0 <= m.pos.y < 20.0 && InBand(m.pos, o.worldRadius as real * 1.1)
  {
    var r := o.worldRadius as real;
    assert LeafSpread(o) / 2.0 == r * 1.1;
    assert Abs(LeafSpread(o)) / 2.0 == Abs(r * 1.1);
  }

  /** New leaves are in range, and `update` keeps every leaf in range. */
  lemma LeavesStayInRange(o: WorldOptions, draw: nat -> Draws, ls: seq<Leaf>, sin: nat -> Wave,
                          cos: nat -> Wave, respawn: nat -> Draws)
    ensures forall i :: 0 <= i < o.leafCount ==> LeafOk(InitLeaves(o, draw)[i])
    ensures (forall i :: 0 <= i < |ls| ==> LeafOk(ls[i])) ==>
              forall i :: 0 <= i < |ls| ==> LeafOk(UpdateLeaves(o, ls, sin, cos, respawn)[i])
  {
    forall i | 0 <= i < |ls|
      ensures LeafOk(ls[i]) ==> LeafOk(UpdateLeaves(o, ls, sin, cos, respawn)[i])
    {
      if LeafOk(ls[i]) {
        LeafStepLaws(o, ls[i], sin(i), cos(i), respawn(i));
      }
    }
  }

  // ---------------------------------------------------------------------
  // The manager.

  /** The state `ParticleManager` keeps: the flakes and the leaves. */
  datatype Manager = Manager(snow: seq<Flake>, leaves: seq<Leaf>)

  /** The constructor: `initSnow`, then `initLeaves`. */
  function NewManager(o: WorldOptions, snowDraw: nat -> Draws, leafDraw: nat -> Draws): Manager
  {
    Manager(InitSnow(o, snowDraw), InitLeaves(o, leafDraw))
  }

  /** `update`: the snow pass, then the leaf pass. */
  function Update(o: WorldOptions, m: Manager, wave: nat -> Wave, sin: nat -> Wave, cos: nat -> Wave,
                  respawn: nat -> Draws): Manager
  {
    Manager(UpdateSnow(m.snow, wave), UpdateLeaves(o, m.leaves, sin, cos, respawn))
  }

  /** The manager's invariant: as many flakes and leaves as the options ask
      for, each in range. */
  predicate ManagerOk(o: WorldOptions, m: Manager)
  {
    && |m.snow| == o.snowCount && |m.leaves| == o.leafCount
    && (forall i :: 0 <= i < |m.snow| ==> FlakeOk(m.snow[i]))
    && (forall i :: 0 <= i < |m.leaves| ==> LeafOk(m.leaves[i]))
  }

  /** A new manager satisfies the invariant, and `update` keeps it while
      changing only positions: the buffers keep 3 slots per particle, and
      velocities, colours and leaf data stay as they were. */
  lemma UpdateKeepsInvariant(o: WorldOptions, snowDraw: nat -> Draws, leafDraw: nat -> Draws,
                             m: Manager, wave: nat -> Wave, sin: nat -> Wave, cos: nat -> Wave,
                             respawn: nat -> Draws)
    ensures ManagerOk(o, NewManager(o, snowDraw, leafDraw))
    ensures ManagerOk(o, m) ==> ManagerOk(o, Update(o, m, wave, sin, cos, respawn))
    ensures var m' := Update(o, m, wave, sin, cos, respawn);
      && |m'.snow| == |m.snow| && |m'.leaves| == |m.leaves|
      && (forall i :: 0 <= i < |m.snow| ==> m'.snow[i].velocity == m.snow[i].velocity)
      && (forall i :: 0 <= i < |m.leaves| ==>
            m'.leaves[i].color == m.leaves[i].color && m'.leaves[i].data == m.leaves[i].data)
  {
    SnowStaysInRange(o, snowDraw, m.snow, wave);
    LeavesStayInRange(o, leafDraw, m.leaves, sin, cos, respawn);
  }
}
