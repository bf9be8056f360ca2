# Voxel Christmas world: generator, registry, particles and settings in Dafny

This project models the logic of a small voxel Christmas scene: a WebGL page
hosted in a desktop shell. It covers:

- **The world generator** (`js/world-gen.js`, with the option sets of
  `js/config.js`):
  - a terrain of dirt columns capped by snow, in three radial zones:
    a flat plateau, a raised-cosine hill and a rolling noise field;
  - a fixed cabin on the plateau;
  - a forest of trees with random string lights;
  - the bookkeeping that lets `clearWorld` dispose of everything it made;
  - `getGroundHeight`, which collision uses.
- **The older Debug build of the generator**
  (`bin/Debug/net8.0-windows/js/world-gen.js`). It is proved to produce what
  the current generator produces with hills on, game height off and lights
  on.
- **The block registry** (`js/block-registry.js`): a `Map` keyed by the
  string `"x,y,z"`. The key is proved injective through a decimal parser
  round trip.
- **The particle systems** (`js/particles.js`): falling snow that wraps from
  below -2 back to 30, and swaying leaves that respawn at a random height in
  [15, 20) with a new horizontal position.
- **The settings rules of `js/ui.js`**:
  - how stored values are read back;
  - the audio routing of `applyAudioSettings`;
  - the video presets and switches;
  - the key-rebinding handler.
- **The loading-screen progress bar** (`js/loading-screen.js`).

Randomness, trigonometry and square roots never appear as numbers:

- Each call of `Math.random()` is a value of `Unit01` (a real in [0, 1)),
  taken from a draw function passed in as a parameter.
- The cosine ease of the hill slope is an oracle in [0, 1]; the rounding that
  follows it is modelled exactly.
- The noise field `sin·cos + 0.5·sin` is an oracle real. Its thresholds 0.6
  and 1.2 are modelled exactly.
- Each distance test `Math.sqrt(x*x + z*z) < r` is the equivalent test on the
  squared integer distance, which `JsMath.SquaredTestsExact` proves exact.

The Three.js scene graph becomes sequences of plain objects (voxels, snow caps,
lights, instanced meshes), in creation order.

Three behaviours of the code are worth stating outright:

- Only the cabin window at (-2, 0) carries a point light
  (`js/world-gen.js:130-135`, `House.HouseLight`).
- The door cell is open on wall layers 1 and 2 only; on layer 3 it holds a
  wood lintel (`js/world-gen.js:126` and `136-139`, `House.HouseWalls`).
- A stored setting of 0 reads as absent, like a malformed one (see Findings).

## Model

| member | source | states |
|---|---|---|
| Config.PeakHeight | js/config.js:22 | The scene peak height `round(14 · 0.7)` is 10 |
| Config.GamePeakHeight | js/config.js:23 | The game peak height `round(28 · 0.7)` is 20, twice the scene peak |
| Config.PeakFor | js/world-gen.js:40-41 | The peak a generator uses is positive: 20 (the game peak) when `useGameHeight` is set, 10 (the scene peak) otherwise |
| Config.ShippedOptions | js/config.js:1-20 | In both shipped option sets the plateau lies inside the hill and the hill inside the world. Every game-world radius is twice the scene radius |
| Voxels.CapHeight | js/world-gen.js:150-151 | A roof snow cap sits 0.6 above its stone, strictly between that cell and the next one up |
| Terrain.NoiseLevel | js/world-gen.js:74-79 | The rolling-zone height is 0, 1 or 2. It is 2 exactly when the noise exceeds 1.2, and at least 1 exactly when it exceeds 0.6 |
| Terrain.SlopeHeight | js/world-gen.js:69-71 | The rounded raised-cosine slope height never leaves [0, peak] |
| Terrain.ColumnHeight | js/world-gen.js:63-84 | A column is 0 high with hills off. With hills on it is the peak on the plateau, between 0 and the peak on the slope, and the noise level in the rolling zone |
| Terrain.GroundHeight | js/world-gen.js:313-341 | `getGroundHeight` is 0 outside the world disc and the peak on the plateau. In the rolling zone it is the noise level. It is never negative and never above the peak |
| Terrain.ColumnMatchesGround | js/world-gen.js:65-80 | A generated column with hills on is the collision height, or one lower. It is one lower only where the erosion draw fired: on the slope ring more than 2 past the plateau, at a positive height, with a draw above 0.7 |
| Terrain.DirtColumnMember | js/world-gen.js:86-91 | A column of height h holds dirt exactly at y = -1 .. h-1 of its own (x, z) |
| Terrain.SnowMember | js/world-gen.js:57-93 | A cell is a snow-mesh instance exactly when its column is inside the world disc and the cell is the column's top |
| Terrain.DirtMember | js/world-gen.js:57-93 | A cell is a dirt-mesh instance exactly when its column is inside the world disc and the cell lies from y = -1 up to just below the top |
| Terrain.ColumnCounts | js/world-gen.js:86-91 | Every included column has exactly one snow instance and height+1 dirt instances. Every excluded column has none |
| Terrain.SnowCount | js/world-gen.js:47-61 | The snow mesh holds one instance per included cell, at most (2r+1)² and so within the mesh's capacity |
| Terrain.DirtColumnBound | js/world-gen.js:63-91 | Outside the hill square a column has at most 3 dirt instances. Inside it, at most peak+1 |
| Terrain.DirtCountBound | js/world-gen.js:57-93 | The dirt mesh holds at most 3 instances per cell of the world square, plus peak-2 per cell of the hill square |
| Terrain.ShippedMeshesFit | js/world-gen.js:47-51 | For both shipped option sets and both peaks, neither instanced mesh exceeds its (2r+1)²·5 slots |
| WorldGen.PeakOf | js/world-gen.js:40-41 | `options.useGameHeight \|\| false` selects peak 20 only for an explicit true; otherwise the peak is 10 |
| WorldGen.OptionDefaults | js/world-gen.js:39-40 | `x !== false` is on for an absent or true option. `x \|\| false` is on only for an explicit true |
| WorldGen.RecordAppends | js/world-gen.js:100-105 | Recording appends the objects to the chosen tracking list only. It appends them to the output array exactly when one was passed |
| WorldGen.TerrainStep | js/world-gen.js:38-106 | Terrain appends exactly two meshes, dirt then snow, each with capacity 5·(2r+1)². A cell is in the dirt mesh iff its column is inside the world and -1 ≤ y < that column's height; it is in the snow mesh iff y equals that height. Heights use the options' hills flag and peak, and with hills off every snow cell is at y = 0. House, trees and lights are unchanged, and the output array grows by the same two meshes |
| WorldGen.HouseStep | js/world-gen.js:108-167 | With the house switched off the world is unchanged. Otherwise exactly 242 objects are appended, and an object is among them iff it is a body, roof or chimney piece of the cabin on the selected peak (20 or 10). Terrain, trees and lights are unchanged, and the output array grows by the same objects |
| WorldGen.TreesStep | js/world-gen.js:169-209 | With trees switched off nothing changes. Otherwise the forest is recorded, and it holds no string light when lights are switched off |
| WorldGen.ClearIdempotent | js/world-gen.js:265-310 | `clearWorld` disposes every tracked terrain, house and tree object and empties every list. A second call disposes nothing |
| WorldGen.RecordKeepsSync | js/world-gen.js:100-105 | Recording in generator order keeps the output array equal to what `clearWorld` would dispose |
| WorldGen.OutputMatchesCleanup | js/world-gen.js:99-105 | A full terrain, house and trees run into an empty output array emits exactly what `clearWorld` disposes, and tracks no separate lights |
| House.FloorLength | js/world-gen.js:118-124 | The floor layer creates 25 planks |
| House.Wall1Length | js/world-gen.js:125-139 | Wall layer 1 creates 15 voxels: the 16 perimeter cells less the doorway |
| House.Wall2Length | js/world-gen.js:125-139 | Wall layer 2 creates 16 objects: 15 voxels with 3 windows, plus one light |
| House.Wall3Length | js/world-gen.js:125-139 | Wall layer 3 creates 16 voxels, the lintel over the door included |
| House.RoofStepLength | js/world-gen.js:144-155 | Roof step i creates (7-2i)² stones, each followed by its snow cap |
| House.RoofLength | js/world-gen.js:144-155 | The four roof steps create 168 objects |
| House.HouseCounts | js/world-gen.js:118-158 | The cabin creates 242 objects: a 72-object body, a 168-object roof and a 2-stone chimney |
| House.BodyMember | js/world-gen.js:118-143 | The body holds exactly three kinds of object. There are planks on the whole floor and wall voxels on the perimeter, except the doorway on layers 1-2. Windows are at the three window cells of layer 2, and the one light is at (-2, 0) |
| House.RoofMember | js/world-gen.js:144-155 | The roof is exactly a stone and a snow cap on every cell of each stepped square |
| House.ChimneyMember | js/world-gen.js:156-158 | The chimney is exactly two stones at (1, 1), on roof levels 2 and 3 |
| House.HouseMember | js/world-gen.js:118-158 | The cabin is exactly its body, its roof and its chimney |
| House.HouseFloor | js/world-gen.js:122-124 | Every footprint cell at floor level is a plank, and nothing else sits at floor level |
| House.HouseWalls | js/world-gen.js:125-139 | Wall layers hold only perimeter cells. The door cell (0, 2) is open on layers 1-2 and has a wood lintel on layer 3 |
| House.HouseWindows | js/world-gen.js:127-129 | Layer 2 has windows at (2, 0), (-2, 0) and (0, -2), and there is no other window |
| House.HouseLight | js/world-gen.js:130-135 | The cabin's only point light is in the window at (-2, 0) of layer 2 |
| House.HouseRoof | js/world-gen.js:144-155 | Every roof-step cell has a stone and a snow cap, and every snow cap sits on a stone |
| House.ChimneyOverlap | js/world-gen.js:149-157 | The lower chimney stone repeats a roof stone that is already there; the upper one is new |
| Trees.TrunkHeightDraw | js/world-gen.js:213 | The trunk height `4 + floor(random · 2)` is 4 or 5 |
| Trees.LeafRadius | js/world-gen.js:223-227 | The foliage radius by level is 2, 2, 1, then 0 |
| Trees.LightPlacement | js/world-gen.js:251-262 | A string light is level with its leaf, in a palette colour. It sits 0.6 out from the leaf towards each nonzero offset, and on the leaf's axis where the offset is 0 |
| Trees.TrunkMember | js/world-gen.js:214-217 | The trunk is exactly the wood voxels on the tree's axis from the base to base+height-1 |
| Trees.LeafMember | js/world-gen.js:222-246 | A tree has a leaf exactly on each level's square. Radius-2 and radius-1 squares lose their corners, and the axis loses its cell below the trunk top |
| Trees.LeavesClearTrunk | js/world-gen.js:214-232 | No cell of a tree holds both wood and a leaf |
| Trees.LightOnLeaf | js/world-gen.js:239-243 | Every string light of a tree hangs on one of its leaves. It appears only with lights on and a draw below 0.04 |
| Trees.LightsOff | js/world-gen.js:240 | With lights off a tree has no string light |
| Trees.WideLevelSpots | js/world-gen.js:229-232 | A radius-2 level beside the trunk keeps 20 of its 25 offsets |
| Trees.NarrowLevelSpots | js/world-gen.js:229-232 | The radius-1 level keeps 5 offsets and the radius-0 top level keeps 1 |
| Trees.FoliageLeafCount | js/world-gen.js:222-246 | The foliage of every tree holds 46 leaves |
| Trees.LeafCount | js/world-gen.js:211-249 | Every tree has 46 leaves, whatever its trunk height |
| Trees.TreeBase | js/world-gen.js:188-196 | A tree's base is 1 above the noise level of its site: 2 or more exactly when the noise exceeds 0.6, and 3 exactly when it exceeds 1.2. In the rolling zone the base is the ground height plus one |
| Trees.ForestMemberOut | js/world-gen.js:179-200 | Every forest object belongs to the tree of an accepted site |
| Trees.ForestMemberIn | js/world-gen.js:179-200 | Every object of an accepted site's tree is in the forest |
| Trees.ForestLightsOff | js/world-gen.js:171 | With lights off the forest holds no string light |
| Trees.ForestLights | js/world-gen.js:196-243 | Every string light of the forest has a palette colour and is level with a leaf of the forest |
| Trees.ForestLeafCount | js/world-gen.js:179-200 | The forest holds 46 leaves per accepted site |
| DebugWorldGen.DebugColumnIsSource | bin/Debug/net8.0-windows/js/world-gen.js:45-67 | The Debug column height is the current height with hills on and the scene peak |
| DebugWorldGen.DebugTerrainIsSource | bin/Debug/net8.0-windows/js/world-gen.js:30-81 | The Debug terrain adds the same two meshes as the current terrain with hills on and game height off |
| DebugWorldGen.DebugHouseIsTemplate | bin/Debug/net8.0-windows/js/world-gen.js:83-117 | The Debug `generateHouse`, transcribed loop by loop, builds the same 242 objects in the same order as the current cabin on the scene peak |
| DebugWorldGen.DebugHouseIsSource | bin/Debug/net8.0-windows/js/world-gen.js:83-117 | With the house on and game height off, the current house step records exactly the Debug cabin's objects |
| DebugWorldGen.DebugLevelIsSource | bin/Debug/net8.0-windows/js/world-gen.js:151-171 | A Debug foliage level is the current level with lights on |
| DebugWorldGen.DebugTrunkIsSource | bin/Debug/net8.0-windows/js/world-gen.js:145-146 | The Debug trunk is the current trunk |
| DebugWorldGen.DebugFoliageIsSource | bin/Debug/net8.0-windows/js/world-gen.js:148-171 | The Debug foliage is the current foliage with lights on |
| DebugWorldGen.DebugTreeIsSource | bin/Debug/net8.0-windows/js/world-gen.js:144-172 | The Debug `buildTree` creates the current tree with lights on |
| DebugWorldGen.DebugSiteIsSource | bin/Debug/net8.0-windows/js/world-gen.js:123-140 | One Debug placement pass plants what the current pass plants with lights on |
| DebugWorldGen.DebugForestIsSource | bin/Debug/net8.0-windows/js/world-gen.js:119-142 | The Debug forest is the current forest with lights on |
| DebugWorldGen.DebugTreesRecorded | bin/Debug/net8.0-windows/js/world-gen.js:119-142 | With trees and lights on, the current generator records exactly the Debug forest |
| KeyCodec.IntToString | js/block-registry.js:18 | A coordinate's decimal text is non-empty and holds no comma |
| KeyCodec.DigitsRoundTrip | js/block-registry.js:18 | Reading back the decimal digits of a natural number gives the number |
| KeyCodec.IntRoundTrip | js/block-registry.js:18 | Parsing a coordinate's text gives the coordinate back, sign included |
| KeyCodec.KeyRoundTrip | js/block-registry.js:18 | Splitting the key `x,y,z` at its commas and parsing the fields gives the position back |
| KeyCodec.KeyInjective | js/block-registry.js:18 | Two positions have the same key exactly when they are equal |
| BlockRegistry.AllBlocks | js/block-registry.js:66-68 | `getAllBlocks` lists every record once, in insertion order |
| BlockRegistry.PutLaws | js/block-registry.js:19-28 | `Map.set` keeps keys distinct and finds the new value under its key. Other keys are unchanged. The size grows by one exactly for a new key |
| BlockRegistry.DeleteLaws | js/block-registry.js:52 | `Map.delete` says true exactly when the key was present. Afterwards the key is absent and other keys are unchanged; the size drops by one exactly when it said true |
| BlockRegistry.GetIsAt | js/block-registry.js:38-41 | `getBlock` answers a record exactly for a registered position, and that record lies at the position asked for |
| BlockRegistry.RegisterGet | js/block-registry.js:17-29 | After `registerBlock` the record is found at its position and other positions are unchanged. The count grows by one exactly for a new position, and the registry stays valid |
| BlockRegistry.RegisterRecord | js/block-registry.js:17-29 | The stored record keeps the position, kind, mesh, instancing flag, instance index and container it was given |
| BlockRegistry.RemoveGet | js/block-registry.js:50-53 | `removeBlock` says true exactly when a block was there. Afterwards that position is empty and others are unchanged, the count drops by one exactly when it said true, and the registry stays valid |
| BlockRegistry.ClearEmpties | js/block-registry.js:58-76 | After `clearRegistry` the count is 0, the list is empty and no position holds a block |
| BlockRegistry.CountIsPositions | js/block-registry.js:66-76 | The count, the length of `getAllBlocks` and the number of registered positions are equal |
| Particles.Uniform | js/particles.js:28 | `lo + random · width` lies in [lo, lo + width) |
| Particles.Centered | js/particles.js:24-26 | `(random - 0.5) · spread` lies within half the spread of 0, in [-spread/2, spread/2) for a positive spread |
| Particles.Sway | js/particles.js:82 | A sine sway of amplitude a moves a coordinate by at most a |
| Particles.NewFlakeFresh | js/particles.js:22-29 | A new flake falls at [0.05, 0.15), starts at a height in [0, 30), and lies within 1.25 world radii horizontally |
| Particles.InitSnow | js/particles.js:16-36 | `initSnow` makes `snowCount` flakes, each drawn from those ranges |
| Particles.SnowStepLaws | js/particles.js:79-84 | A flake keeps its velocity and z and drifts x by at most 0.01. It falls by its velocity, or wraps to 30 when that takes it below -2; the in-range invariant is kept |
| Particles.SnowStaysInRange | js/particles.js:16-84 | Every flake stays at a height in [-2, 30] with its velocity in [0.05, 0.15), from creation through every update |
| Particles.PhaseRange | js/particles.js:62 | A leaf's phase `random · π · 2` lies in [0, 2π) |
| Particles.NewLeafFresh | js/particles.js:50-63 | A new leaf has a palette index below 4 and its speed, sway and phase in their drawn ranges. It starts at a height in [5, 20), within 1.1 world radii horizontally |
| Particles.InitLeaves | js/particles.js:38-72 | `initLeaves` makes `leafCount` leaves, each drawn from those ranges |
| Particles.LeafStepLaws | js/particles.js:91-103 | A leaf keeps its colour and data. It falls by its speed and sways by at most its amplitude in x and z, or, once below 0, respawns at a height in [15, 20) in the horizontal band; the in-range invariant is kept |
| Particles.LeavesStayInRange | js/particles.js:38-103 | Every leaf stays at a height in [0, 20) with its drawn parameters, from creation through every update |
| Particles.UpdateKeepsInvariant | js/particles.js:74-106 | A new manager has as many flakes and leaves as the options ask, all in range. `update` keeps that, and keeps every flake's velocity and every leaf's colour and data |
| StoredValues.FlagRoundTrip | js/ui.js:219-220 | A stored flag reads back as written, and an absent flag reads as on |
| StoredValues.NumberReadBack | js/ui.js:221-222 | As written, a stored number reads back unchanged unless it is 0, which reads as the default, like an absent one |
| StoredValues.StoredZeroReadsDefault | js/ui.js:221-222 | As written, a stored volume of 0 reads back as 1.0 and a stored bloom intensity of 0 as 0.7 |
| StoredValues.StoredNumberRoundTrip | js/ui.js:221-222 | As intended, every stored number reads back as stored, 0 included, and only an absent one reads as the default |
| StoredValues.ReadsDiffer | js/ui.js:221-222 | The two reads differ exactly on a stored 0 with a nonzero default |
| AudioSettings.ClampAsWritten | js/ui.js:978-979 | The clamped volume is in [0, 1] |
| AudioSettings.EffectiveMusicVolume | js/ui.js:973-1016 | As intended:<br>- master off mutes, pauses and stops the ambient sound;<br>- master and music on play at the product of the clamped volumes;<br>- music off mutes and pauses;<br>- the ambient sound follows the master volume;<br>- the music volume is in [0, 1], and a volume of 0 silences it |
| AudioSettings.ZeroMasterPlaysFull | js/ui.js:978-979 | As written, a master volume of 0 with both switches on plays the music at the music volume and the ambient sound at full |
| AudioSettings.AsWrittenAgreesOffZero | js/ui.js:978-979 | The written and intended clamps agree on every nonzero volume |
| AudioSettings.StartupVolumes | js/ui.js:219-222 | A fresh store starts the music at full volume. A stored master volume of 0 also starts it at full as written, where the intended reading keeps it silent |
| AudioSettings.SliderToZero | js/ui.js:397-431 | Dragging the master slider below 0 stores 0, yet the music plays at the stored music volume |
| VideoSettings.With | js/ui.js:679-752 | Setting one switch changes that switch and no other |
| VideoSettings.TogglesRoundTrip | js/ui.js:593-597 | Switches written to the store read back as written |
| VideoSettings.PresetSelected | js/ui.js:619-656 | As written, choosing low, mid or high sets, stores and applies that row's switches and intensity. A stored intensity of 0 reads back as 0.7, and the store and the select both end on 'custom' |
| VideoSettings.PresetRows | js/ui.js:551-576 | Low applies everything off at 0, mid everything on at 0.5, high everything on at 0.7. Low's stored intensity reads back as 0.7 |
| VideoSettings.PresetSelectedIntended | js/ui.js:619-656 | As intended, the same switches and intensity, with the chosen preset name kept in the store and the select |
| VideoSettings.CustomSelected | js/ui.js:657-674 | Choosing 'custom' restores the stored switches and intensity: the slider gets the clamped value, the renderer the unclamped one |
| VideoSettings.ToggleMarksCustom | js/ui.js:679-752 | A switch change stores and applies that switch only, and marks the preset 'custom' |
| VideoSettings.SliderSaveMarksCustom | js/ui.js:861-899 | The slider clamps to [0, 1]. A save stores the value and marks the preset 'custom', and an apply hands it to the renderer |
| VideoSettings.StartupMarksCustom | js/ui.js:592-615 | Every page load ends with 'custom' stored and selected, with the switches as stored |
| Keybinds.KeyDown | js/ui.js:473-530 | The outcome depends on the key pressed:<br>- Escape and F-keys cancel;<br>- a key held by another action is refused, naming the first such action and leaving the bindings and the listening state alone;<br>- any other key rebinds only the listening action and ends listening.<br>Actions stay distinct and keys stay one-to-one |
| Keybinds.SetBindingLaws | js/ui.js:515 | Assigning a binding finds it under its action, leaves other actions alone, keeps actions distinct, and keeps keys one-to-one when no other action held the key |
| Keybinds.OwnKeyIsNoConflict | js/ui.js:496-502 | Pressing the key an action already holds is not a clash, and rebinding to it changes nothing |
| LoadingScreen.UpdateProgress | js/loading-screen.js:116-137 | The target is the percentage clamped into [0, 100]. The status is replaced only by non-empty text and the animation restarts; nothing changes without the elements |
| LoadingScreen.Shown | js/loading-screen.js:172 | The shown percentage is the rounded current value, 0..100 |
| LoadingScreen.Show | js/loading-screen.js:75-78 | Showing the screen resets both values to 0 and starts with the initial status |
| LoadingScreen.Hide | js/loading-screen.js:94-102 | Hiding stops the animation and changes nothing else |
| LoadingScreen.ResetAfterHide | js/loading-screen.js:105-108 | The delayed reset sets both values to 0 |
| LoadingScreen.TickApproaches | js/loading-screen.js:160-178 | A tick never overshoots: the value moves towards the target, closing at least a tenth of the gap. When it stops, it is within 0.1 of the target |
| LoadingScreen.StaysInRange | js/loading-screen.js:127-178 | Updates, ticks, show and reset keep both values in [0, 100] |
| LoadingScreen.AnimationStops | js/loading-screen.js:150-179 | The interval clears itself within 100 times the gap plus one firings |

## Left out

- Rendering: Three.js geometry, materials, colours, `container.add` / `remove` and `dispose` calls, and the instanced-mesh matrices. Objects are plain values in creation order.
- Floating point: positions are reals. The float32 position buffers, NaN and infinite inputs, and JavaScript truthiness of non-boolean option values are not modelled.
- Terrain.SlopeHeight: `Math.cos` is an oracle in [0, 1]. Only the rounding and the [0, peak] bound are modelled, not the exact cosine profile.
- Terrain.NoiseLevel: the sine/cosine noise field is an oracle real. Its thresholds are modelled exactly, its values are not.
- Trees.ForestMemberOut: the tree sites come from `Math.cos`/`Math.sin` of random angles and radii. The model takes the integer site of each pass as a parameter and keeps the distance test exactly.
- Particles.Sway: `Math.sin` and `Math.cos` of the clock are waves in [-1, 1]. `Date.now()` is not modelled.
- StoredValues.ReadNumber: `parseFloat` is modelled as giving a real or NaN (None). Partial numeric prefixes are not modelled.
- AudioSettings.VolumeSlider: the apply throttle of `updateSliderValue` is not modelled; the model always applies. The save throttle is a boolean parameter.
- VideoSettings.BloomSlider: the save and apply throttles are boolean parameters, not timestamps.
- Audio playback, the ambient-sound module's promise, and the play/pause calls are outcomes in a datatype, not effects.
- Keybinds.KeyDown: the handler models one key press. Re-entrant listeners that pile up when a second item is clicked while listening are not modelled. `loadKeybinds` and `saveKeybinds` live in a module that is not part of this model; the bindings are a sequence in property order.
- The registry's block coordinates are integers. Non-integer coordinates would print with a decimal point and are not modelled.
- LoadingScreen.Tick: the 16 ms interval is one call per firing. Timer identity and the 500 ms reset timeout are separate functions, not a clock.
- DOM-only code is not modelled. This covers panel toggling, the title screen, the news reel, and the `style` writes of the loading screen.

## Findings

| source | as written | input that shows it | evidently intended | confidence | as-written member | corrected member |
|---|---|---|---|---|---|---|
| js/ui.js:978-979 | `Math.max(0, Math.min(1, masterVolume \|\| 1.0))` treats a volume of 0 as 1.0 | master and music on, master volume 0, music volume 0.5: the music plays at 0.5 and the ambient sound at full | a volume of 0 is silent | high (not executed) | AudioSettings.ZeroMasterPlaysFull | AudioSettings.EffectiveMusicVolume |
| js/ui.js:221-222 | `parseFloat(stored) \|\| 1.0` reads a stored 0 as the default (and `\|\| 0.7` at js/ui.js:598 for bloom) | store masterVolume "0" and reload: the volume reads back as 1.0; store bloomIntensity 0 and it reads back as 0.7 | a stored value reads back as stored; the default only for a missing value | high (not executed) | StoredValues.StoredZeroReadsDefault | StoredValues.StoredNumberRoundTrip |
| js/ui.js:634 | a preset choice calls `updateBloomSliderValue`, which saves and sets the preset to 'custom' (js/ui.js:883-886) | choose 'high': the select and the stored preset end on 'custom' | the chosen preset stays selected and stored | high (not executed) | VideoSettings.PresetSelected | VideoSettings.PresetSelectedIntended |
