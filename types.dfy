/** Values shared by every stage of the rover pipeline. */
module RoverTypes {

  /** One constructor per `ValueError` raised in rover.py, in pipeline order. */
  datatype Error =
    | InvalidGridSize        // first line is not two digits 1-9
    | InvalidStartPosition   // second line is not two digits 1-9, a space, N/E/S/W
    | StartOutOfGrid         // start coordinate beyond the grid
    | NoInstructions         // third line empty after stripping
    | InvalidInstruction     // third line holds a character other than L, R, M
    | HorizontalOutOfRange   // some E/W segment leaves [1, width]
    | VerticalOutOfRange     // some N/S segment leaves [1, height]

  /** A value, or the error that ended the pipeline. */
  datatype Result<T> = Ok(value: T) | Err(error: Error)

  /** Grid extent; the valid coordinates are [1, width] x [1, height]. */
  datatype Grid = Grid(width: int, height: int)

  /** Rover state: a coordinate and a heading index into `Directions`. */
  datatype Position = Position(x: int, y: int, direction: int)

  /** `count` consecutive forward moves while facing `direction`. */
  datatype Segment = Segment(direction: int, count: int)

  /** Headings in clockwise order; a heading is its index in this string. */
  const Directions: string := "NESW"
  const North: int := 0
  const East: int := 1
  const South: int := 2
  const West: int := 3
}
