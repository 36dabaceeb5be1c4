// Shared vocabulary of the SLAM model: grid positions, the five Pacman
// directions, and Option/Result wrappers for the source's implicit
// `None` returns and raised exceptions.
module Types {

  /** A grid cell `(x, y)`; x grows to the east, y grows to the north. */
  datatype Pos = Pos(x: int, y: int)

  /** The symbolic actions of the game: four moves and STOP. */
  datatype Direction = North | South | East | West | Stop

  datatype Option<T> = None | Some(value: T)

  datatype Result<T, E> = Ok(value: T) | Err(error: E)

  /** The four range readings (north, east, south, west), in grid cells. */
  datatype Ranges = Ranges(n: int, e: int, s: int, w: int)

  /** A cell lies on the outer ring of a `width` x `height` grid. */
  predicate OnEdge(width: int, height: int, p: Pos)
  {
    p.x == 0 || p.x == width - 1 || p.y == 0 || p.y == height - 1
  }

  predicate InGrid(width: int, height: int, p: Pos)
  {
    0 <= p.x < width && 0 <= p.y < height
  }

  /** Component-wise sum of a direction vector and a position. */
  function VectorSum(v: (int, int), p: Pos): Pos
  {
    Pos(v.0 + p.x, v.1 + p.y)
  }

  function Abs(n: int): nat
  {
    if n < 0 then -n else n
  }

  function ManhattanDistance(a: Pos, b: Pos): nat
  {
    Abs(a.x - b.x) + Abs(a.y - b.y)
  }
}
