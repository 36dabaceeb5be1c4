// The inverse sensor model of SLAMParticleFilter.emissionModel: from one
// set of range readings taken at the agent's position, what each single
// cell of the map is likely to be.
module SensorModel {
  import opened Types
  import opened RayCast

  /** The three outcomes of the emission model: `prob_ONE`, `prob_ZERO`, or
      the implicit `None` that means "do not update this cell". */
  datatype Evidence = Wall | Free | Uninformative

  predicate NonNegative(r: Ranges)
  {
    r.n >= 0 && r.e >= 0 && r.s >= 0 && r.w >= 0
  }

  function RangeToward(r: Ranges, hd: Heading): int
  {
    match hd
    case N => r.n
    case E => r.e
    case S => r.s
    case W => r.w
  }

  /** Which of the four rays from `p` the cell `c` lies on, and how far out. */
  function Bearing(p: Pos, c: Pos): (b: Option<(Heading, int)>)
    ensures b.Some? ==> b.value.1 > 0 && c == Cell(p, b.value.0, b.value.1)
    ensures b.None? <==> c == p || (c.x != p.x && c.y != p.y)
  {
    if c.x == p.x && c.y > p.y then Some((N, c.y - p.y))
    else if c.x > p.x && c.y == p.y then Some((E, c.x - p.x))
    else if c.x == p.x && c.y < p.y then Some((S, p.y - c.y))
    else if c.x < p.x && c.y == p.y then Some((W, p.x - c.x))
    else None
  }

  /** What a single range reading says about the cell `k` steps along its ray:
      nearer than the reading is free, at the reading is a wall, beyond is
      unknown. */
  function ReadingVerdict(k: int, reading: int): Evidence
  {
    if k < reading then Free
    else if k == reading then Wall
    else Uninformative
  }

  /** The inverse sensor model stated ray by ray, independently of the
      coordinate tests the filter uses. */
  function ReferenceEvidence(width: int, height: int, p: Pos, r: Ranges, c: Pos): Evidence
  {
    if OnEdge(width, height, c) then Wall
    else if c == p then Free
    else match Bearing(p, c)
      case None => Uninformative
      case Some((hd, k)) => ReadingVerdict(k, RangeToward(r, hd))
  }

  /** emissionModel: border cells are walls before anything else is asked, the
      agent's own cell is free, and along the agent's row and column each
      reading frees the nearer cells and marks the cell at its distance. */
  function EmissionModel(width: int, height: int, pacmanPosition: Pos, rangeMeasurements: Ranges, wallPosition: Pos)
    : Evidence
  {
    var x, y := pacmanPosition.x, pacmanPosition.y;
    var wallPosition0, wallPosition1 := wallPosition.x, wallPosition.y;
    var distN, distE, distS, distW := rangeMeasurements.n, rangeMeasurements.e, rangeMeasurements.s, rangeMeasurements.w;
    if OnEdge(width, height, wallPosition) then Wall
    else if pacmanPosition == wallPosition then Free
    else if wallPosition0 == x then
      if (wallPosition1 - y < distN && wallPosition1 > y) || (y - wallPosition1 < distS && y - wallPosition1 > 0) then Free
      else if wallPosition1 - y == distN || y - wallPosition1 == distS then Wall
      else Uninformative
    else if wallPosition1 == y then
      if (wallPosition0 - x < distE && wallPosition0 - x > 0) || (x - wallPosition0 < distW && x - wallPosition0 > 0) then Free
      else if wallPosition0 - x == distE || x - wallPosition0 == distW then Wall
      else Uninformative
    else Uninformative
  }

  /** Border cells are walls before anything else is asked, the agent's own
      inner cell is free, and for non-negative readings the coordinate tests
      agree with the ray-by-ray reference. */
  lemma EmissionModelCases(width: int, height: int, p: Pos, r: Ranges, c: Pos)
    ensures OnEdge(width, height, c) ==> EmissionModel(width, height, p, r, c) == Wall
    ensures !OnEdge(width, height, c) && c == p ==> EmissionModel(width, height, p, r, c) == Free
    ensures NonNegative(r) ==> EmissionModel(width, height, p, r, c) == ReferenceEvidence(width, height, p, r, c)
  {
    if !OnEdge(width, height, c) && c != p && Bearing(p, c).Some? {
      var (hd, k) := Bearing(p, c).value;
      assert c == Cell(p, hd, k);
    }
  }

  /** A cell off both of the agent's axes is never updated, whatever the
      readings are. */
  lemma OffAxisIsUninformative(width: int, height: int, p: Pos, r: Ranges, c: Pos)
    requires !OnEdge(width, height, c) && c.x != p.x && c.y != p.y
    ensures EmissionModel(width, height, p, r, c) == Uninformative
  {
  }

  /** With readings a perfect sensor would give on map `g`, the emission model
      never contradicts `g`: what it calls a wall is a wall of `g`, what it
      calls free is free in `g`, and every cell up to the first wall on each
      ray is informative. */
  lemma ExactReadingsAgreeWithMap(g: Grid, width: int, height: int, p: Pos, c: Pos)
    requires BoundaryWalls(g, width, height) && InGrid(width, height, p) && !g[p.x][p.y]
    requires InGrid(width, height, c)
    ensures EmissionModel(width, height, p, TrueRanges(g, width, height, p), c) == Wall ==> g[c.x][c.y]
    ensures EmissionModel(width, height, p, TrueRanges(g, width, height, p), c) == Free ==> !g[c.x][c.y]
    ensures Bearing(p, c).Some? && !OnEdge(width, height, c) ==>
              (EmissionModel(width, height, p, TrueRanges(g, width, height, p), c) == Uninformative <==>
               Bearing(p, c).value.1 > Walk(g, width, height, p, Bearing(p, c).value.0))
  {
    var r := TrueRanges(g, width, height, p);
    EmissionModelCases(width, height, p, r, c);
    if !OnEdge(width, height, c) && c != p {
      match Bearing(p, c)
      case None =>
      case Some((hd, k)) =>
        var d := Walk(g, width, height, p, hd);
        WalkIsFirstWall(g, width, height, p, hd, d);
        assert RangeToward(r, hd) == d;
    }
  }
}
