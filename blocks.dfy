/** The block registry that the world imports: the three block types the
    terrain uses, and the colour each one is drawn with. */
module Blocks {

  /** `Empty` is the sentinel for "no solid material here": it is never
      drawn and never hides a neighbour. */
  datatype BlockType = Empty | Dirt | Grass

  /** A colour as the registry stores it (a packed RGB number). The concrete
      colours are a parameter of the model (`colorOf`), not constants. */
  type Color = int
}
