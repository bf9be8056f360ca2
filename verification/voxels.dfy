/** The objects the world generators create: unit voxels of one material,
    the thin snow caps on the roof, the house's point light, the small
    coloured tree lights, and the two instanced terrain meshes. Rendering
    state (geometry, materials, matrices) is not modelled; an object is its
    kind, position and material. */
module Voxels {

  datatype Material = Dirt | SnowBlock | Wood | Leaves | Stone | Plank | Window

  /** An integer grid position. */
  datatype Cell = Cell(x: int, y: int, z: int)

  datatype Obj =
      /** A unit cube of one material centred on a grid cell. */
    | Voxel(at: Cell, mat: Material)
      /** A snow-block voxel 0.6 above the cell `on`, scaled to 0.2 in y. */
    | SnowCap(on: Cell)
      /** The window point light (colour 0xffaa00, intensity 1, range 8). */
    | PointLight(at: Cell)
      /** A 0.2-wide emissive cube in one of the palette colours. */
    | StringLight(x: real, y: real, z: real, color: int)
      /** One instanced mesh of `capacity` slots of which the first |cells|
          are drawn. */
    | Instanced(mat: Material, capacity: int, cells: seq<Cell>)

  /** The rendered height of a snow cap's centre. */
  function CapHeight(on: Cell): (y: real)
    ensures y > on.y as real && y < (on.y + 1) as real
  {
    on.y as real + 0.6
  }
}
