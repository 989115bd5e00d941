/**
  The shape description the renderer reads: a closed set of four variants,
  each carrying the parameters of its own drawing routine.
 */
module Shapes {

  /** Where the cat's pupils point. */
  datatype Look = Left | Centre | Right

  /**
    The `props` of a shape. Counts (`points`, `rings`) are whole numbers;
    nothing else is constrained: the renderer draws whatever it is given.
   */
  datatype ShapeProps =
    | SquareProps(hue: real)
    | StarProps(hue: real, points: int, r1: real, r2: real)
    | BullseyeProps(hue: real, hue2: real, radius: real, rings: int)
    | CatProps(hue: real, look: Look)
}
