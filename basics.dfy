/** Small value types shared by the viewer model: an optional value, a point
    on the screen and a width/height pair. */
module Basics {

  /** A value that may be absent (Python's `None`). */
  datatype Option<T> = None | Some(value: T)

  /** A point or a displacement in screen coordinates. */
  datatype Point = Point(x: real, y: real)

  /** The pan offset the viewer starts from and resets to. */
  const Origin: Point := Point(0.0, 0.0)

  /** Pixel dimensions, of a decoded image or of the primary monitor. */
  datatype Size = Size(width: int, height: int)
}
