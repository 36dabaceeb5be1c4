// Occupancy maps of SLAMParticleFilter: per-cell wall odds, the prior map,
// the binarised grid the ray-caster reads, and the per-cell odds update
// driven by the emission model.
module Occupancy {
  import opened Types
  import opened RayCast
  import opened SensorModel

  /** Wall odds `p / (1 - p)` per legal position (a util.Counter). */
  type OddsMap = map<Pos, real>

  const ProbOne: real := 0.9999
  const ProbZero: real := 0.0001
  /** Odds above this bound are cut back to it after an update. */
  const OddsCap: real := 9999.0
  /** The wall probability the prior gives to every border cell. */
  const EdgeWallProb: real := 0.999

  /** `inverse`: probability to odds. */
  function Inverse(num: real): (o: real)
    requires num != 1.0
    ensures 0.0 < num < 1.0 ==> o > 0.0
  {
    num / (1.0 - num)
  }

  /** Odds back to a probability, `o / (o + 1)` as the filter computes it. */
  function Prob(o: real): (p: real)
    requires o != -1.0
    ensures o >= 0.0 ==> 0.0 <= p < 1.0
  {
    o / (o + 1.0)
  }

  /** `isWall` */
  predicate IsWall(prob: real)
  {
    prob > 0.5
  }

  /** Probability and odds are two encodings of the same belief. */
  lemma OddsRoundTrip(num: real, o: real)
    requires num != 1.0 && o != -1.0
    ensures Inverse(num) != -1.0 && Prob(Inverse(num)) == num
    ensures Prob(o) != 1.0 && Inverse(Prob(o)) == o
  {
    var q := Inverse(num);
    assert q * (1.0 - num) == num;
    assert q + 1.0 == 1.0 / (1.0 - num);
    var p := Prob(o);
    assert p * (o + 1.0) == o;
    assert 1.0 - p == 1.0 / (o + 1.0);
  }

  /** A cell counts as a wall exactly when its odds exceed one. */
  lemma WallIffOddsAboveOne(o: real)
    requires o >= 0.0
    ensures IsWall(Prob(o)) <==> o > 1.0
  {
    var d := o + 1.0;
    var p := Prob(o);
    assert p * d == o;
    var a := 2.0 * p - 1.0;
    assert a * d == o - 1.0;
    PositiveFactor(a, d);
    assert a > 0.0 <==> o > 1.0;
  }

  /** Multiplying by a positive number keeps the sign. */
  lemma PositiveFactor(a: real, d: real)
    requires d > 0.0
    ensures a * d > 0.0 <==> a > 0.0
  {
    if a > 0.0 {
      assert a * d > 0.0 * d;
    } else {
      assert a * d <= 0.0 * d;
    }
  }

  /** The prior odds of one cell: probability 0.999 on the border, the
      configured wall prior inside. */
  function PriorOdds(width: int, height: int, wallPrior: real, p: Pos): (o: real)
    requires wallPrior != 1.0
    ensures o != -1.0 && Prob(o) == if OnEdge(width, height, p) then EdgeWallProb else wallPrior
    ensures 0.0 < wallPrior < 1.0 ==> o > 0.0
  {
    OddsRoundTrip(EdgeWallProb, 0.0);
    OddsRoundTrip(wallPrior, 0.0);
    if OnEdge(width, height, p) then Inverse(EdgeWallProb) else Inverse(wallPrior)
  }

  /** With a wall prior of at most 0.9999, no prior odds exceed the cap. */
  lemma PriorOddsCapped(width: int, height: int, wallPrior: real, p: Pos)
    requires 0.0 < wallPrior <= ProbOne
    ensures PriorOdds(width, height, wallPrior, p) <= OddsCap
  {
    var q := Inverse(wallPrior);
    var d := 1.0 - wallPrior;
    assert q * d == wallPrior;
    assert (q - OddsCap) * d == 10000.0 * wallPrior - OddsCap;
    PositiveFactor(q - OddsCap, d);
  }

  function LegalSet(legalPositions: seq<Pos>): set<Pos>
  {
    set p | p in legalPositions
  }

  /** generatePriorMap: one prior odds entry per legal position. */
  method GeneratePriorMap(width: int, height: int, wallPrior: real, legalPositions: seq<Pos>)
    returns (wallBeliefDistribution: OddsMap)
    requires wallPrior != 1.0
    ensures wallBeliefDistribution.Keys == LegalSet(legalPositions)
    ensures forall p :: p in wallBeliefDistribution ==>
              wallBeliefDistribution[p] == PriorOdds(width, height, wallPrior, p)
  {
    wallBeliefDistribution := map[];
    for i := 0 to |legalPositions|
      invariant wallBeliefDistribution.Keys == LegalSet(legalPositions[..i])
      invariant forall p :: p in wallBeliefDistribution ==>
                  wallBeliefDistribution[p] == PriorOdds(width, height, wallPrior, p)
    {
      var pos := legalPositions[i];
      wallBeliefDistribution := wallBeliefDistribution[pos :=
        if OnEdge(width, height, pos) then Inverse(EdgeWallProb) else Inverse(wallPrior)];
    }
    assert legalPositions[..|legalPositions|] == legalPositions;
  }

  /** Every border cell of the map holds at least the border prior's odds. */
  predicate BorderCertain(width: int, height: int, m: OddsMap)
  {
    forall p :: p in m && OnEdge(width, height, p) ==> m[p] >= Inverse(EdgeWallProb)
  }

  /** Odds at or above the border prior's mean a wall probability of at least
      0.999. */
  lemma BorderBelief(o: real)
    requires o >= Inverse(EdgeWallProb)
    ensures Prob(o) >= EdgeWallProb
  {
    var d := o + 1.0;
    var p := Prob(o);
    assert p * d == o;
    var a := p - EdgeWallProb;
    assert a * d == 0.001 * o - EdgeWallProb;
    assert a * d >= 0.0;
    PositiveFactor(-a, d);
  }

  predicate NonNegativeOdds(m: OddsMap)
  {
    forall p :: p in m ==> m[p] >= 0.0
  }

  /** Every border cell of the grid has an entry in the map. */
  predicate EdgesCovered(width: int, height: int, m: OddsMap)
  {
    forall x, y :: 0 <= x < width && 0 <= y < height && OnEdge(width, height, Pos(x, y)) ==> Pos(x, y) in m
  }

  /** The binarisation rule for one cell: a wall when the map knows the cell
      and it is on the border or more likely a wall than not. */
  predicate IsWallCell(width: int, height: int, m: OddsMap, p: Pos)
    requires NonNegativeOdds(m)
  {
    p in m && (OnEdge(width, height, p) || IsWall(Prob(m[p])))
  }

  /** The binary grid `reweightParticles` builds from one particle's map. */
  function BinaryGrid(width: int, height: int, m: OddsMap): (g: Grid)
    requires width >= 0 && height >= 0 && NonNegativeOdds(m)
    ensures WellFormed(g, width, height)
    ensures EdgesCovered(width, height, m) ==> BoundaryWalls(g, width, height)
  {
    seq(width, x => seq(height, y => IsWallCell(width, height, m, Pos(x, y))))
  }

  /** In the binarised grid a border cell of the map is a wall, an inner cell
      of the map is a wall exactly when its odds exceed one, and a cell the
      map does not know stays free. */
  lemma BinarisedCells(width: int, height: int, m: OddsMap, x: int, y: int)
    requires width >= 0 && height >= 0 && NonNegativeOdds(m)
    requires 0 <= x < width && 0 <= y < height
    ensures var g := BinaryGrid(width, height, m);
      g[x][y] <==> Pos(x, y) in m && (OnEdge(width, height, Pos(x, y)) || m[Pos(x, y)] > 1.0)
  {
    if Pos(x, y) in m {
      WallIffOddsAboveOne(m[Pos(x, y)]);
    }
  }

  /** The grid-filling loop of reweightParticles: start from an all-free
      grid and mark, key by key, the cells the rule calls walls. */
  method Binarise(width: int, height: int, m: OddsMap) returns (gridMap: Grid)
    requires width >= 0 && height >= 0 && NonNegativeOdds(m)
    requires forall p :: p in m ==> InGrid(width, height, p)
    ensures gridMap == BinaryGrid(width, height, m)
  {
    gridMap := seq(width, _ => seq(height, _ => false));
    var todo := m.Keys;
    while todo != {}
      invariant todo <= m.Keys
      invariant WellFormed(gridMap, width, height)
      invariant forall x, y :: 0 <= x < width && 0 <= y < height ==>
                  gridMap[x][y] == (Pos(x, y) !in todo && IsWallCell(width, height, m, Pos(x, y)))
      decreases todo
    {
      var position :| position in todo;
      var prob := m[position] / (m[position] + 1.0);
      if OnEdge(width, height, position) || IsWall(prob) {
        gridMap := gridMap[position.x := gridMap[position.x][position.y := true]];
      }
      todo := todo - {position};
    }
    var target := BinaryGrid(width, height, m);
    assert forall x :: 0 <= x < width ==> gridMap[x] == target[x];
  }

  /** The odds ratio `L / (1 - L)` of an informative emission. */
  function LikelihoodRatio(ev: Evidence): (ratio: real)
    requires ev != Uninformative
    ensures ev == Wall ==> ratio == OddsCap
    ensures ev == Free ==> ratio * OddsCap == 1.0
  {
    var newProb := if ev == Wall then ProbOne else ProbZero;
    newProb / (1.0 - newProb)
  }

  /** One cell of the map update in `observe`: keep the old odds when the
      emission model is uninformative, else multiply by the likelihood ratio
      over the prior, cap at 9999 and replace an exact zero by 0.0001. */
  function UpdatedOdds(oldOdds: real, ev: Evidence, prior: real): (o: real)
    requires prior != 0.0
    ensures ev == Uninformative ==> o == oldOdds
    ensures ev != Uninformative ==> o <= OddsCap && o != 0.0
    ensures ev != Uninformative && oldOdds >= 0.0 && prior > 0.0 ==> o > 0.0
  {
    if ev == Uninformative then oldOdds
    else
      var prob := oldOdds * (LikelihoodRatio(ev) / prior);
      if prob > OddsCap then OddsCap else if prob == 0.0 then ProbZero else prob
  }

  /** A border cell is always reported as a wall; from odds at or above the
      border prior this drives it to the cap, so it never drops below that
      prior. */
  lemma BorderUpdate(o: real)
    requires o >= Inverse(EdgeWallProb)
    ensures UpdatedOdds(o, Wall, Inverse(EdgeWallProb)) == OddsCap
  {
    var q := Inverse(EdgeWallProb);
    assert q == 999.0;
    var r := LikelihoodRatio(Wall) / q;
    assert r * q == OddsCap;
    assert (o - q) * r >= 0.0;
  }

  /** Starting from the prior, one informative reading sets the odds to the
      reading's own likelihood ratio: the prior is divided out, not counted
      twice. */
  lemma FirstUpdateFromPrior(ev: Evidence, prior: real)
    requires ev != Uninformative && prior > 0.0
    ensures UpdatedOdds(prior, ev, prior) == LikelihoodRatio(ev)
  {
    var ratio := LikelihoodRatio(ev);
    assert prior * (ratio / prior) == ratio;
  }

  /** `particleMap[pos]` on a util.Counter: a missing key reads as 0. */
  function Lookup(m: OddsMap, p: Pos): real
  {
    if p in m then m[p] else 0.0
  }

  /** The map a particle at `particlePosition` holds after one update. */
  function UpdatedMap(width: int, height: int, prior: OddsMap, legalPositions: seq<Pos>,
                      particlePosition: Pos, ranges: Ranges, particleMap: OddsMap): (m: OddsMap)
    requires forall p :: p in legalPositions ==> p in prior && prior[p] > 0.0
  {
    map p | p in legalPositions ::
      UpdatedOdds(Lookup(particleMap, p), EmissionModel(width, height, particlePosition, ranges, p), prior[p])
  }

  /** An updated map covers exactly the legal positions; uninformative cells
      keep their old odds, informative ones are non-zero and capped, and
      positive odds stay positive. */
  lemma UpdatedMapFacts(width: int, height: int, prior: OddsMap, legalPositions: seq<Pos>,
                        particlePosition: Pos, ranges: Ranges, particleMap: OddsMap)
    requires forall p :: p in legalPositions ==> p in prior && prior[p] > 0.0
    ensures var m := UpdatedMap(width, height, prior, legalPositions, particlePosition, ranges, particleMap);
      && m.Keys == LegalSet(legalPositions)
      && (forall p :: p in m && EmissionModel(width, height, particlePosition, ranges, p) == Uninformative ==>
            m[p] == Lookup(particleMap, p))
      && (forall p :: p in m && EmissionModel(width, height, particlePosition, ranges, p) != Uninformative ==>
            0.0 != m[p] <= OddsCap)
      && forall p :: p in m && Lookup(particleMap, p) > 0.0 ==> m[p] > 0.0
  {
  }

  /** The map update keeps every border cell at or above the border prior's
      odds, when the prior gives the border exactly those odds. */
  lemma UpdatedMapKeepsBorder(width: int, height: int, prior: OddsMap, legalPositions: seq<Pos>,
                              particlePosition: Pos, ranges: Ranges, particleMap: OddsMap)
    requires forall p :: p in legalPositions ==> p in prior && prior[p] > 0.0
    requires forall p :: p in prior && OnEdge(width, height, p) ==> prior[p] == Inverse(EdgeWallProb)
    requires forall p :: p in legalPositions && OnEdge(width, height, p) ==> p in particleMap
    requires BorderCertain(width, height, particleMap)
    ensures BorderCertain(width, height,
              UpdatedMap(width, height, prior, legalPositions, particlePosition, ranges, particleMap))
  {
    var m := UpdatedMap(width, height, prior, legalPositions, particlePosition, ranges, particleMap);
    forall p | p in m && OnEdge(width, height, p)
      ensures m[p] >= Inverse(EdgeWallProb)
    {
      EmissionModelCases(width, height, particlePosition, ranges, p);
      BorderUpdate(particleMap[p]);
    }
  }

  /** No cell of the map is above the odds cap. */
  predicate Capped(m: OddsMap)
  {
    forall p :: p in m ==> m[p] <= OddsCap
  }

  /** The map update keeps every cell at or below the cap: informative cells
      are capped, and uninformative ones keep their old odds. */
  lemma UpdatedMapCapped(width: int, height: int, prior: OddsMap, legalPositions: seq<Pos>,
                         particlePosition: Pos, ranges: Ranges, particleMap: OddsMap)
    requires forall p :: p in legalPositions ==> p in prior && prior[p] > 0.0
    requires Capped(particleMap)
    ensures Capped(UpdatedMap(width, height, prior, legalPositions, particlePosition, ranges, particleMap))
  {
  }

  /** The inner loop of `observe`: rebuild one particle's map over the legal
      positions, cell by cell. */
  method UpdateParticleMap(width: int, height: int, prior: OddsMap, legalPositions: seq<Pos>,
                           particlePosition: Pos, ranges: Ranges, particleMap: OddsMap)
    returns (newParticleMap: OddsMap)
    requires forall p :: p in legalPositions ==> p in prior && prior[p] > 0.0
    ensures newParticleMap == UpdatedMap(width, height, prior, legalPositions, particlePosition, ranges, particleMap)
  {
    newParticleMap := map[];
    for i := 0 to |legalPositions|
      invariant newParticleMap.Keys == LegalSet(legalPositions[..i])
      invariant forall p :: p in newParticleMap ==>
                  newParticleMap[p] == UpdatedOdds(Lookup(particleMap, p),
                                         EmissionModel(width, height, particlePosition, ranges, p), prior[p])
    {
      var pos := legalPositions[i];
      var newProb := EmissionModel(width, height, particlePosition, ranges, pos);
      var odds := UpdateCell(Lookup(particleMap, pos), newProb, prior[pos]);
      assert LegalSet(legalPositions[..i + 1]) == LegalSet(legalPositions[..i]) + {pos} by {
        assert legalPositions[..i + 1] == legalPositions[..i] + [pos];
      }
      newParticleMap := newParticleMap[pos := odds];
    }
    assert legalPositions[..|legalPositions|] == legalPositions;
  }

  /** The body of the cell loop: multiply informative odds by the
      likelihood ratio over the prior, then cap and replace an exact zero.
      It is the code of UpdatedOdds as statements, kept as its own method so
      that the loop's proof only meets its contract. */
  method UpdateCell(odds: real, newProb: Evidence, prior: real) returns (newOdds: real)
    requires prior != 0.0
    ensures newOdds == UpdatedOdds(odds, newProb, prior)
  {
    newOdds := odds;
    if newProb != Uninformative {
      var prob := odds * (LikelihoodRatio(newProb) / prior);
      newOdds := if prob > OddsCap then OddsCap else if prob == 0.0 then ProbZero else prob;
    }
  }
}
