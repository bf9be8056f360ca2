/** The scene and game-world option sets and the two peak heights derived
    from them. */
module Config {
  import JsMath

  /** The numeric part of an option set (the background colour is left out). */
  datatype WorldOptions = WorldOptions(
    worldRadius: int,
    hillRadius: int,
    plateauRadius: int,
    treeCount: nat,
    snowCount: nat,
    leafCount: nat)

  const SceneOpts := WorldOptions(75, 14, 5, 140, 3000, 1200)

  const GameWorldOpts := WorldOptions(150, 28, 10, 400, 6000, 2400)

  /** `PEAK_HEIGHT`: the scene hill radius times 0.7, rounded. */
  function PeakHeight(): (h: int)
    ensures h == 10
  {
    JsMath.Round(SceneOpts.hillRadius as real * 0.7)
  }

  /** `GAME_PEAK_HEIGHT`: the game hill radius times 0.7, rounded. Like
      `PEAK_HEIGHT` it is fixed by the shipped option sets, not by the options
      a generator is later called with. */
  function GamePeakHeight(): (h: int)
    ensures h == 20
    ensures h == 2 * PeakHeight()
  {
    JsMath.Round(GameWorldOpts.hillRadius as real * 0.7)
  }

  /** The peak height a generator uses for its `useGameHeight` flag: 20
      for the game world, 10 for the scene. */
  function PeakFor(useGameHeight: bool): (h: int)
    ensures h > 0
    ensures h == (if useGameHeight then 20 else 10)
  {
    if useGameHeight then GamePeakHeight() else PeakHeight()
  }

  /** The radii nest (plateau inside the hill inside the world), and the ring
      that trees are scattered in, from hillRadius + 1 to worldRadius - 2, is
      not empty. */
  predicate Nested(o: WorldOptions)
  {
    && 0 < o.plateauRadius < o.hillRadius < o.worldRadius
    && o.hillRadius + 1 < o.worldRadius - 2
  }

  /** Both shipped option sets are nested, and every game-world radius is
      twice the scene radius. */
  lemma ShippedOptions()
    ensures Nested(SceneOpts) && Nested(GameWorldOpts)
    ensures GameWorldOpts.worldRadius == 2 * SceneOpts.worldRadius
    ensures GameWorldOpts.hillRadius == 2 * SceneOpts.hillRadius
    ensures GameWorldOpts.plateauRadius == 2 * SceneOpts.plateauRadius
  {
  }
}
