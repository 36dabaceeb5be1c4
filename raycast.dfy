// The ray-caster of inference.py: from a position on a hypothesised binary
// map, count the unit steps north, east, south and west to the first wall.
module RayCast {
  import opened Types

  /** A hypothesised binary map indexed `[x][y]`, a list of columns. */
  type Grid = seq<seq<bool>>

  /** The four cardinal rays the ray-caster walks along. */
  datatype Heading = N | E | S | W

  predicate WellFormed(g: Grid, width: int, height: int)
  {
    |g| == width && forall x :: 0 <= x < width ==> |g[x]| == height
  }

  /** Every cell of the outer ring is a wall, so every walk stops inside. */
  predicate BoundaryWalls(g: Grid, width: int, height: int)
  {
    && WellFormed(g, width, height)
    && forall x, y :: 0 <= x < width && 0 <= y < height && OnEdge(width, height, Pos(x, y)) ==> g[x][y]
  }

  predicate WallAt(g: Grid, width: int, height: int, c: Pos)
    requires WellFormed(g, width, height)
  {
    InGrid(width, height, c) && g[c.x][c.y]
  }

  predicate FreeAt(g: Grid, width: int, height: int, c: Pos)
    requires WellFormed(g, width, height)
  {
    InGrid(width, height, c) && !g[c.x][c.y]
  }

  /** The cell `k` unit steps from `p` towards `hd`. */
  function Cell(p: Pos, hd: Heading, k: int): Pos
  {
    match hd
    case N => Pos(p.x, p.y + k)
    case E => Pos(p.x + k, p.y)
    case S => Pos(p.x, p.y - k)
    case W => Pos(p.x - k, p.y)
  }

  /** How many steps separate `p` from the border row or column ahead of it. */
  function Room(width: int, height: int, p: Pos, hd: Heading): int
  {
    match hd
    case N => height - 1 - p.y
    case E => width - 1 - p.x
    case S => p.y
    case W => p.x
  }

  /** The number of steps from `p` to the first wall towards `hd`. */
  function Walk(g: Grid, width: int, height: int, p: Pos, hd: Heading): (d: nat)
    requires BoundaryWalls(g, width, height) && InGrid(width, height, p)
    ensures d <= Room(width, height, p, hd)
    decreases Room(width, height, p, hd)
  {
    if g[p.x][p.y] then 0
    else 1 + Walk(g, width, height, Cell(p, hd, 1), hd)
  }

  /** `d` steps lead to a wall and every cell passed before it is free. */
  predicate FirstWall(g: Grid, width: int, height: int, p: Pos, hd: Heading, d: int)
    requires WellFormed(g, width, height)
  {
    && 0 <= d
    && WallAt(g, width, height, Cell(p, hd, d))
    && forall k :: 0 <= k < d ==> FreeAt(g, width, height, Cell(p, hd, k))
  }

  /** The readings a perfect sensor would return at `p` on map `g`. */
  function TrueRanges(g: Grid, width: int, height: int, p: Pos): (r: Ranges)
    requires BoundaryWalls(g, width, height) && InGrid(width, height, p)
    ensures g[p.x][p.y] ==> r == Ranges(0, 0, 0, 0)
  {
    Ranges(Walk(g, width, height, p, N), Walk(g, width, height, p, E),
           Walk(g, width, height, p, S), Walk(g, width, height, p, W))
  }

  /** Past a free start cell, the first wall is one step further than the
      first wall seen from the next cell. */
  lemma FirstWallShift(g: Grid, width: int, height: int, p: Pos, hd: Heading, d: int)
    requires WellFormed(g, width, height) && FreeAt(g, width, height, p)
    ensures FirstWall(g, width, height, p, hd, d) <==> FirstWall(g, width, height, Cell(p, hd, 1), hd, d - 1)
  {
    var c := Cell(p, hd, 1);
    assert Cell(p, hd, 0) == p;
    assert Cell(c, hd, d - 1) == Cell(p, hd, d);
    if FirstWall(g, width, height, p, hd, d) {
      forall k | 0 <= k < d - 1
        ensures FreeAt(g, width, height, Cell(c, hd, k))
      {
        assert Cell(c, hd, k) == Cell(p, hd, k + 1);
      }
    }
    if FirstWall(g, width, height, c, hd, d - 1) {
      forall k | 0 <= k < d
        ensures FreeAt(g, width, height, Cell(p, hd, k))
      {
        if k > 0 {
          assert Cell(p, hd, k) == Cell(c, hd, k - 1);
        }
      }
    }
  }

  /** A walk returns exactly the distance of the first wall on its ray. */
  lemma {:induction false} WalkIsFirstWall(g: Grid, width: int, height: int, p: Pos, hd: Heading, d: int)
    requires BoundaryWalls(g, width, height) && InGrid(width, height, p)
    ensures Walk(g, width, height, p, hd) == d <==> FirstWall(g, width, height, p, hd, d)
    decreases Room(width, height, p, hd)
  {
    if g[p.x][p.y] {
      assert Cell(p, hd, 0) == p;
    } else {
      WalkIsFirstWall(g, width, height, Cell(p, hd, 1), hd, d - 1);
      FirstWallShift(g, width, height, p, hd, d);
    }
  }

  /** The map the filter sees when nothing but the border is a wall. */
  predicate OnlyBoundaryWalls(g: Grid, width: int, height: int)
  {
    && WellFormed(g, width, height)
    && forall x, y :: 0 <= x < width && 0 <= y < height ==> g[x][y] == OnEdge(width, height, Pos(x, y))
  }

  /** With only border walls, every walk from an inner cell reaches the border. */
  lemma {:induction false} WalkReachesBorder(g: Grid, width: int, height: int, p: Pos, hd: Heading)
    requires OnlyBoundaryWalls(g, width, height)
    requires InGrid(width, height, p) && !OnEdge(width, height, p)
    ensures BoundaryWalls(g, width, height)
    ensures Walk(g, width, height, p, hd) == Room(width, height, p, hd)
    decreases Room(width, height, p, hd)
  {
    var c := Cell(p, hd, 1);
    if !OnEdge(width, height, c) {
      WalkReachesBorder(g, width, height, c, hd);
    }
  }

  /** From an inner cell (x, y) of a border-only map the readings are
      (height - 1 - y, width - 1 - x, y, x). */
  lemma BorderOnlyRanges(g: Grid, width: int, height: int, p: Pos)
    requires OnlyBoundaryWalls(g, width, height)
    requires InGrid(width, height, p) && !OnEdge(width, height, p)
    ensures BoundaryWalls(g, width, height)
    ensures TrueRanges(g, width, height, p) == Ranges(height - 1 - p.y, width - 1 - p.x, p.y, p.x)
  {
    WalkReachesBorder(g, width, height, p, N);
    WalkReachesBorder(g, width, height, p, E);
    WalkReachesBorder(g, width, height, p, S);
    WalkReachesBorder(g, width, height, p, W);
  }

  /** getTrueRangeMeasurement: four walks, each stepping one cell at a time
      until it stands on a wall, measured as a Manhattan distance. */
  method GetTrueRangeMeasurement(position: Pos, hypothesizedMap: Grid, ghost width: int, ghost height: int)
    returns (r: Ranges)
    requires BoundaryWalls(hypothesizedMap, width, height) && InGrid(width, height, position)
    ensures r == TrueRanges(hypothesizedMap, width, height, position)
  {
    var x, y := position.x, position.y;
    var currentX, currentY := x, y;
    while !hypothesizedMap[currentX][currentY]
      invariant currentX == x && y <= currentY < height
      invariant Walk(hypothesizedMap, width, height, position, N)
             == (currentY - y) + Walk(hypothesizedMap, width, height, Pos(x, currentY), N)
      decreases height - currentY
    {
      currentY := currentY + 1;
    }
    var n := ManhattanDistance(Pos(x, y), Pos(currentX, currentY));
    currentX, currentY := x, y;
    while !hypothesizedMap[currentX][currentY]
      invariant currentY == y && x <= currentX < width
      invariant Walk(hypothesizedMap, width, height, position, E)
             == (currentX - x) + Walk(hypothesizedMap, width, height, Pos(currentX, y), E)
      decreases width - currentX
    {
      currentX := currentX + 1;
    }
    var e := ManhattanDistance(Pos(x, y), Pos(currentX, currentY));
    currentX, currentY := x, y;
    while !hypothesizedMap[currentX][currentY]
      invariant currentX == x && 0 <= currentY <= y
      invariant Walk(hypothesizedMap, width, height, position, S)
             == (y - currentY) + Walk(hypothesizedMap, width, height, Pos(x, currentY), S)
      decreases currentY
    {
      currentY := currentY - 1;
    }
    var s := ManhattanDistance(Pos(x, y), Pos(currentX, currentY));
    currentX, currentY := x, y;
    while !hypothesizedMap[currentX][currentY]
      invariant currentY == y && 0 <= currentX <= x
      invariant Walk(hypothesizedMap, width, height, position, W)
             == (x - currentX) + Walk(hypothesizedMap, width, height, Pos(currentX, y), W)
      decreases currentX
    {
      currentX := currentX - 1;
    }
    var w := ManhattanDistance(Pos(x, y), Pos(currentX, currentY));
    r := Ranges(n, e, s, w);
  }
}
