// SLAMParticleFilter: a fixed-size population of (position, occupancy map)
// particles, moved, re-mapped, weighted by ray-casting and resampled once
// per observation.
module ParticleFilter {
  import opened Types
  import opened RayCast
  import opened SensorModel
  import opened Occupancy

  /** One hypothesis: where the agent is and what the map looks like. */
  datatype Particle = Particle(pos: Pos, odds: OddsMap)

  /** The filter's configuration: a wall prior strictly between 0 and 1, legal
      positions inside the grid, and every border cell a legal position (so
      the binarised map of every particle is walled all round). */
  predicate Configured(width: int, height: int, wallPrior: real, legalPositions: seq<Pos>)
  {
    0.0 < wallPrior < 1.0 && LegalLayout(width, height, legalPositions)
  }

  /** Legal positions lie inside the grid and include the whole border. */
  predicate LegalLayout(width: int, height: int, legalPositions: seq<Pos>)
  {
    && (forall p :: p in legalPositions ==> InGrid(width, height, p))
    && forall x, y :: 0 <= x < width && 0 <= y < height && OnEdge(width, height, Pos(x, y)) ==>
         Pos(x, y) in legalPositions
  }

  /** A particle the ray-caster can run on: inside the grid, with positive
      odds on grid cells only, and every border cell known. */
  predicate Fits(width: int, height: int, part: Particle)
  {
    && InGrid(width, height, part.pos)
    && (forall p :: p in part.odds ==> InGrid(width, height, p) && part.odds[p] > 0.0)
    && EdgesCovered(width, height, part.odds)
  }

  function Positions(ps: seq<Particle>): (s: seq<Pos>)
    ensures |s| == |ps| && forall i :: 0 <= i < |ps| ==> s[i] == ps[i].pos
  {
    seq(|ps|, i requires 0 <= i < |ps| => ps[i].pos)
  }

  function PositionSet(ps: seq<Particle>): set<Pos>
  {
    set i | 0 <= i < |ps| :: ps[i].pos
  }

  predicate HasParticleAt(ps: seq<Particle>, p: Pos)
  {
    exists i :: 0 <= i < |ps| && ps[i].pos == p
  }

  /** The index of the first particle standing at `p`. */
  function FirstIndexAt(ps: seq<Particle>, p: Pos): (i: nat)
    requires HasParticleAt(ps, p)
    ensures i < |ps| && ps[i].pos == p
    ensures forall j :: 0 <= j < i ==> ps[j].pos != p
  {
    if ps[0].pos == p then 0
    else
      var j :| 0 <= j < |ps| && ps[j].pos == p;
      assert ps[1..][j - 1].pos == p;
      1 + FirstIndexAt(ps[1..], p)
  }

  /** `mapAtPos`: the map of the first particle at `p`. */
  function MapAtPos(ps: seq<Particle>, p: Pos): OddsMap
    requires HasParticleAt(ps, p)
  {
    ps[FirstIndexAt(ps, p)].odds
  }

  /** The motion step: each particle moves to the successor of its sampled
      direction and keeps its map. */
  function Moved(ps: seq<Particle>, directionToVector: Direction -> (int, int), moves: seq<Direction>)
    : (r: seq<Particle>)
    requires |moves| == |ps|
    ensures |r| == |ps|
    ensures forall i :: 0 <= i < |ps| ==> r[i].odds == ps[i].odds
  {
    seq(|ps|, i requires 0 <= i < |ps| =>
      Particle(VectorSum(directionToVector(moves[i]), ps[i].pos), ps[i].odds))
  }

  predicate PriorReady(prior: OddsMap, legalPositions: seq<Pos>)
  {
    forall p :: p in legalPositions ==> p in prior && prior[p] > 0.0
  }

  /** The map step: every particle keeps its position and gets its updated map. */
  function WithUpdatedMaps(width: int, height: int, prior: OddsMap, legalPositions: seq<Pos>,
                           ps: seq<Particle>, ranges: Ranges): (r: seq<Particle>)
    requires PriorReady(prior, legalPositions)
    ensures |r| == |ps|
    ensures forall i :: 0 <= i < |ps| ==> r[i].pos == ps[i].pos
  {
    seq(|ps|, i requires 0 <= i < |ps| =>
      Particle(ps[i].pos, UpdatedMap(width, height, prior, legalPositions, ps[i].pos, ranges, ps[i].odds)))
  }

  /** Every particle is usable, its map covers exactly the legal positions,
      and it believes every border cell a wall at least as firmly as the prior. */
  predicate Population(width: int, height: int, legalPositions: seq<Pos>, ps: seq<Particle>)
  {
    forall i :: 0 <= i < |ps| ==>
      ps[i].odds.Keys == LegalSet(legalPositions) && Fits(width, height, ps[i]) &&
      BorderCertain(width, height, ps[i].odds)
  }

  /** Every particle's map stays at or below the odds cap. */
  predicate AllCapped(ps: seq<Particle>)
  {
    forall i :: 0 <= i < |ps| ==> Capped(ps[i].odds)
  }

  /** The map step keeps every map at or below the odds cap. */
  lemma UpdatedCapped(width: int, height: int, prior: OddsMap, legalPositions: seq<Pos>,
                      ps: seq<Particle>, ranges: Ranges)
    requires PriorReady(prior, legalPositions)
    ensures AllCapped(ps) ==> AllCapped(WithUpdatedMaps(width, height, prior, legalPositions, ps, ranges))
  {
    if AllCapped(ps) {
      var r := WithUpdatedMaps(width, height, prior, legalPositions, ps, ranges);
      forall i | 0 <= i < |ps|
        ensures Capped(r[i].odds)
      {
        UpdatedMapCapped(width, height, prior, legalPositions, ps[i].pos, ranges, ps[i].odds);
      }
    }
  }

  /** The prior gives every border cell exactly the odds of probability 0.999. */
  predicate EdgePrior(width: int, height: int, prior: OddsMap)
  {
    forall p :: p in prior && OnEdge(width, height, p) ==> prior[p] == Inverse(EdgeWallProb)
  }

  /** Whatever the observations, every particle holds every border cell a
      wall with probability at least 0.999. */
  lemma BorderStaysWall(width: int, height: int, legalPositions: seq<Pos>, ps: seq<Particle>, i: int, p: Pos)
    requires Population(width, height, legalPositions, ps)
    requires 0 <= i < |ps| && p in ps[i].odds && OnEdge(width, height, p)
    ensures Prob(ps[i].odds[p]) >= EdgeWallProb
  {
    BorderBelief(ps[i].odds[p]);
  }

  /** A map update keeps a particle usable: the updated map covers exactly
      the legal positions, with positive odds everywhere. */
  lemma UpdateKeepsFit(width: int, height: int, prior: OddsMap, legalPositions: seq<Pos>,
                       part: Particle, ranges: Ranges)
    requires LegalLayout(width, height, legalPositions) && PriorReady(prior, legalPositions)
    requires EdgePrior(width, height, prior)
    requires Fits(width, height, part) && part.odds.Keys == LegalSet(legalPositions)
    requires BorderCertain(width, height, part.odds)
    ensures var m := UpdatedMap(width, height, prior, legalPositions, part.pos, ranges, part.odds);
            m.Keys == LegalSet(legalPositions) && Fits(width, height, Particle(part.pos, m)) &&
            BorderCertain(width, height, m)
  {
    var m := UpdatedMap(width, height, prior, legalPositions, part.pos, ranges, part.odds);
    UpdatedMapFacts(width, height, prior, legalPositions, part.pos, ranges, part.odds);
    UpdatedMapKeepsBorder(width, height, prior, legalPositions, part.pos, ranges, part.odds);
    assert forall p :: p in m ==> p in legalPositions && Lookup(part.odds, p) > 0.0;
  }

  /** The map step keeps the population usable. */
  lemma UpdatedPopulation(width: int, height: int, prior: OddsMap, legalPositions: seq<Pos>,
                          ps: seq<Particle>, ranges: Ranges)
    requires LegalLayout(width, height, legalPositions) && PriorReady(prior, legalPositions)
    requires EdgePrior(width, height, prior)
    requires Population(width, height, legalPositions, ps)
    ensures Population(width, height, legalPositions, WithUpdatedMaps(width, height, prior, legalPositions, ps, ranges))
  {
    var r := WithUpdatedMaps(width, height, prior, legalPositions, ps, ranges);
    forall i | 0 <= i < |ps|
      ensures r[i].odds.Keys == LegalSet(legalPositions) && Fits(width, height, r[i]) &&
              BorderCertain(width, height, r[i].odds)
    {
      UpdateKeepsFit(width, height, prior, legalPositions, ps[i], ranges);
    }
  }

  /** The particle loop of the map step of `observe`. */
  method UpdateAllMaps(width: int, height: int, prior: OddsMap, legalPositions: seq<Pos>,
                       ps: seq<Particle>, ranges: Ranges)
    returns (newParticles: seq<Particle>)
    requires PriorReady(prior, legalPositions)
    ensures newParticles == WithUpdatedMaps(width, height, prior, legalPositions, ps, ranges)
  {
    newParticles := [];
    for i := 0 to |ps|
      invariant |newParticles| == i
      invariant forall j :: 0 <= j < i ==>
                  newParticles[j] == Particle(ps[j].pos, UpdatedMap(width, height, prior, legalPositions, ps[j].pos, ranges, ps[j].odds))
    {
      var particlePosition, particleMap := ps[i].pos, ps[i].odds;
      var newParticleMap := UpdateParticleMap(width, height, prior, legalPositions,
                                              particlePosition, ranges, particleMap);
      newParticles := newParticles + [Particle(particlePosition, newParticleMap)];
    }
  }

  function Readings(r: Ranges): seq<int>
  {
    [r.n, r.e, r.s, r.w]
  }

  /** The sensor table's probability of a reading, or 0.0001 where the table
      has no mass. */
  function SensorFactor(q: real): real
  {
    if q != 0.0 then q else ProbZero
  }

  /** A sensor table that never returns a negative number. */
  ghost predicate ProbabilityTable(obsProb: (int, int) -> real)
  {
    forall r, e :: obsProb(r, e) >= 0.0
  }

  /** The product of the per-direction factors for measured against expected
      readings. */
  function Likelihood(obsProb: (int, int) -> real, measured: seq<int>, expected: seq<int>): (l: real)
    requires |measured| == |expected|
    ensures ProbabilityTable(obsProb) ==> l > 0.0
    decreases |measured|
  {
    if |measured| == 0 then 1.0
    else
      var k := |measured| - 1;
      var rest := Likelihood(obsProb, measured[..k], expected[..k]);
      var f := SensorFactor(obsProb(measured[k], expected[k]));
      SensorFactorPositive(obsProb, measured[k], expected[k]);
      ProductOfPositives(rest, f);
      rest * f
  }

  lemma SensorFactorPositive(obsProb: (int, int) -> real, reading: int, expected: int)
    ensures ProbabilityTable(obsProb) ==> SensorFactor(obsProb(reading, expected)) > 0.0
  {
  }

  lemma ProductOfPositives(a: real, b: real)
    ensures a > 0.0 && b > 0.0 ==> a * b > 0.0
  {
    if a > 0.0 && b > 0.0 {
      PositiveFactor(a, b);
    }
  }

  /** The weight loop of reweightParticles for one particle. */
  method ObservationWeight(obsProb: (int, int) -> real, ranges: Ranges, trueRanges: Ranges)
    returns (newWeight: real)
    ensures newWeight == Likelihood(obsProb, Readings(ranges), Readings(trueRanges))
  {
    var measured, expected := Readings(ranges), Readings(trueRanges);
    newWeight := 1.0;
    for i := 0 to 4
      invariant newWeight == Likelihood(obsProb, measured[..i], expected[..i])
    {
      var q := obsProb(measured[i], expected[i]);
      assert measured[..i + 1][..i] == measured[..i] && expected[..i + 1][..i] == expected[..i];
      newWeight := newWeight * (if q != 0.0 then q else ProbZero);
    }
    assert measured[..4] == measured && expected[..4] == expected;
  }

  /** The weight of one particle: ray-cast on its binarised map, then compare
      with the readings. */
  function ParticleWeight(width: int, height: int, ranges: Ranges, obsProb: (int, int) -> real, part: Particle)
    : (w: real)
    requires Fits(width, height, part)
    ensures ProbabilityTable(obsProb) ==> w > 0.0
  {
    var g := BinaryGrid(width, height, part.odds);
    Likelihood(obsProb, Readings(ranges), Readings(TrueRanges(g, width, height, part.pos)))
  }

  /** Each particle's position paired with its weight, in particle order. */
  function Weighted(width: int, height: int, ranges: Ranges, obsProb: (int, int) -> real, ps: seq<Particle>)
    : (pw: seq<(Pos, real)>)
    requires forall i :: 0 <= i < |ps| ==> Fits(width, height, ps[i])
    ensures |pw| == |ps|
    ensures forall i :: 0 <= i < |ps| ==> pw[i] == (ps[i].pos, ParticleWeight(width, height, ranges, obsProb, ps[i]))
  {
    seq(|ps|, i requires 0 <= i < |ps| => (ps[i].pos, ParticleWeight(width, height, ranges, obsProb, ps[i])))
  }

  function Places(pw: seq<(Pos, real)>): set<Pos>
  {
    set i | 0 <= i < |pw| :: pw[i].0
  }

  /** `weights[pos] += w` over a util.Counter, for each pair in turn. */
  function Accumulate(pw: seq<(Pos, real)>): (t: map<Pos, real>)
    ensures t.Keys == Places(pw)
    ensures (forall i :: 0 <= i < |pw| ==> pw[i].1 > 0.0) ==> forall p :: p in t ==> t[p] > 0.0
    decreases |pw|
  {
    if |pw| == 0 then map[]
    else
      var k := |pw| - 1;
      assert Places(pw) == Places(pw[..k]) + {pw[k].0} by {
        assert forall i :: 0 <= i < k ==> pw[..k][i] == pw[i];
      }
      var t := Accumulate(pw[..k]);
      t[pw[k].0 := Lookup(t, pw[k].0) + pw[k].1]
  }

  /** The total weight of the pairs at `p`, summed front to back. */
  function WeightAt(pw: seq<(Pos, real)>, p: Pos): real
  {
    if |pw| == 0 then 0.0
    else (if pw[0].0 == p then pw[0].1 else 0.0) + WeightAt(pw[1..], p)
  }

  lemma {:induction false} WeightAtSnoc(pw: seq<(Pos, real)>, p: Pos)
    requires |pw| > 0
    ensures WeightAt(pw, p) == WeightAt(pw[..|pw| - 1], p) + (if pw[|pw| - 1].0 == p then pw[|pw| - 1].1 else 0.0)
    decreases |pw|
  {
    if |pw| > 1 {
      WeightAtSnoc(pw[1..], p);
      assert pw[1..][..|pw| - 2] == pw[..|pw| - 1][1..];
    }
  }

  /** Every position's entry in the accumulated table is the sum of the
      weights of the particles standing there; every other position reads 0. */
  lemma {:induction false} AccumulateSumsWeights(pw: seq<(Pos, real)>, p: Pos)
    ensures Lookup(Accumulate(pw), p) == WeightAt(pw, p)
    decreases |pw|
  {
    if |pw| > 0 {
      AccumulateSumsWeights(pw[..|pw| - 1], p);
      WeightAtSnoc(pw, p);
    }
  }

  lemma AccumulateStep(pw: seq<(Pos, real)>, i: int, t: map<Pos, real>, p: Pos, w: real)
    requires 0 <= i < |pw| && t == Accumulate(pw[..i]) && pw[i] == (p, w)
    ensures Accumulate(pw[..i + 1]) == t[p := Lookup(t, p) + w]
  {
    assert pw[..i + 1][..i] == pw[..i];
  }

  /** The weight table: particle weights summed per position. */
  function WeightTable(width: int, height: int, ranges: Ranges, obsProb: (int, int) -> real, ps: seq<Particle>)
    : (t: map<Pos, real>)
    requires forall i :: 0 <= i < |ps| ==> Fits(width, height, ps[i])
    ensures t.Keys == PositionSet(ps)
    ensures ProbabilityTable(obsProb) ==> forall p :: p in t ==> t[p] > 0.0
  {
    var pw := Weighted(width, height, ranges, obsProb, ps);
    assert Places(pw) == PositionSet(ps);
    Accumulate(pw)
  }

  /** The particle loop of reweightParticles: binarise each particle's map,
      ray-cast from its position and add its weight to its position. */
  method ComputeWeights(width: int, height: int, ranges: Ranges, obsProb: (int, int) -> real, ps: seq<Particle>)
    returns (weights: map<Pos, real>)
    requires forall i :: 0 <= i < |ps| ==> Fits(width, height, ps[i])
    ensures weights == WeightTable(width, height, ranges, obsProb, ps)
  {
    weights := SumWeights(width, height, ranges, obsProb, ps, Weighted(width, height, ranges, obsProb, ps));
  }

  /** The loop of ComputeWeights, against the particle weights `pw` it adds up. */
  method SumWeights(width: int, height: int, ranges: Ranges, obsProb: (int, int) -> real, ps: seq<Particle>,
                    ghost pw: seq<(Pos, real)>)
    returns (weights: map<Pos, real>)
    requires forall i :: 0 <= i < |ps| ==> Fits(width, height, ps[i])
    requires |pw| == |ps|
    requires forall i :: 0 <= i < |ps| ==> pw[i] == (ps[i].pos, ParticleWeight(width, height, ranges, obsProb, ps[i]))
    ensures weights == Accumulate(pw)
  {
    weights := map[];
    for i := 0 to |ps|
      invariant weights == Accumulate(pw[..i])
    {
      weights := AddWeight(width, height, ranges, obsProb, ps[i], weights, pw, i);
    }
    assert pw[..|ps|] == pw;
  }

  /** One pass of the particle loop: `weights[pos] += newWeight`, which
      extends the table of the first `i` pairs of `pw` by the next one. */
  method AddWeight(width: int, height: int, ranges: Ranges, obsProb: (int, int) -> real, part: Particle,
                   weights: map<Pos, real>, ghost pw: seq<(Pos, real)>, ghost i: int)
    returns (newWeights: map<Pos, real>)
    requires Fits(width, height, part)
    requires 0 <= i < |pw| && weights == Accumulate(pw[..i])
    requires pw[i] == (part.pos, ParticleWeight(width, height, ranges, obsProb, part))
    ensures newWeights == Accumulate(pw[..i + 1])
  {
    var newWeight := WeighParticle(width, height, ranges, obsProb, part);
    AccumulateStep(pw, i, weights, part.pos, newWeight);
    newWeights := weights[part.pos := Lookup(weights, part.pos) + newWeight];
  }

  /** The body of the particle loop of reweightParticles for one particle. */
  method WeighParticle(width: int, height: int, ranges: Ranges, obsProb: (int, int) -> real, part: Particle)
    returns (newWeight: real)
    requires Fits(width, height, part)
    ensures newWeight == ParticleWeight(width, height, ranges, obsProb, part)
  {
    var gridMap := Binarise(width, height, part.odds);
    var trueRanges := GetTrueRangeMeasurement(part.pos, gridMap, width, height);
    newWeight := ObservationWeight(obsProb, ranges, trueRanges);
  }

  /** The position-belief loop at the end of `observe`: 1.0 on every
      position some particle occupies. */
  method MarkPositions(ps: seq<Particle>) returns (beliefs: map<Pos, real>)
    ensures forall p :: p in beliefs <==> p in Positions(ps)
    ensures forall p :: p in beliefs ==> beliefs[p] == 1.0
  {
    var positions := Positions(ps);
    beliefs := map[];
    for i := 0 to |positions|
      invariant forall p :: p in beliefs <==> p in positions[..i]
      invariant forall p :: p in beliefs ==> beliefs[p] == 1.0
    {
      assert positions[..i + 1] == positions[..i] + [positions[i]];
      beliefs := beliefs[positions[i] := 1.0];
    }
    assert positions[..|positions|] == positions;
  }

  /** The motion step keeps the population usable when every particle
      lands inside the grid. */
  lemma MovedPopulation(width: int, height: int, legalPositions: seq<Pos>, ps: seq<Particle>,
                        directionToVector: Direction -> (int, int), moves: seq<Direction>)
    requires Population(width, height, legalPositions, ps)
    requires |moves| == |ps|
    requires forall i :: 0 <= i < |ps| ==> InGrid(width, height, VectorSum(directionToVector(moves[i]), ps[i].pos))
    ensures Population(width, height, legalPositions, Moved(ps, directionToVector, moves))
  {
    var r := Moved(ps, directionToVector, moves);
    forall i | 0 <= i < |ps|
      ensures r[i].odds.Keys == LegalSet(legalPositions) && Fits(width, height, r[i]) &&
              BorderCertain(width, height, r[i].odds)
    {
      assert r[i] == Particle(VectorSum(directionToVector(moves[i]), ps[i].pos), ps[i].odds);
    }
  }

  /** The resampling loop of `observe`: draw `numParticles` positions from
      the weight table and pair each with the map of the first particle at
      that position. */
  method DrawParticles(ps: seq<Particle>, weights: map<Pos, real>, numParticles: nat)
    returns (newParticles: seq<Particle>)
    requires weights.Keys == PositionSet(ps)
    requires numParticles > 0 ==> |ps| > 0
    ensures |newParticles| == numParticles
    ensures forall i :: 0 <= i < numParticles ==>
              newParticles[i].pos in weights && HasParticleAt(ps, newParticles[i].pos) &&
              newParticles[i] == ps[FirstIndexAt(ps, newParticles[i].pos)]
  {
    newParticles := [];
    for i := 0 to numParticles
      invariant |newParticles| == i
      invariant forall j :: 0 <= j < i ==>
                  newParticles[j].pos in weights && HasParticleAt(ps, newParticles[j].pos) &&
                  newParticles[j] == ps[FirstIndexAt(ps, newParticles[j].pos)]
    {
      assert ps[0].pos in weights;
      var part :| part in weights;
      assert HasParticleAt(ps, part);
      newParticles := newParticles + [Particle(part, MapAtPos(ps, part))];
    }
  }

  /** Resampled particles are copies of old ones, so the population stays usable. */
  lemma DrawnPopulation(width: int, height: int, legalPositions: seq<Pos>, ps: seq<Particle>, drawn: seq<Particle>)
    requires Population(width, height, legalPositions, ps)
    requires forall i :: 0 <= i < |drawn| ==>
               HasParticleAt(ps, drawn[i].pos) && drawn[i] == ps[FirstIndexAt(ps, drawn[i].pos)]
    ensures Population(width, height, legalPositions, drawn)
  {
    forall i | 0 <= i < |drawn|
      ensures drawn[i].odds.Keys == LegalSet(legalPositions) && Fits(width, height, drawn[i]) &&
              BorderCertain(width, height, drawn[i].odds)
    {
      var k := FirstIndexAt(ps, drawn[i].pos);
      assert drawn[i] == ps[k];
    }
  }

  /** Resampled particles are copies of old ones, so they stay at or below
      the odds cap. */
  lemma DrawnCapped(ps: seq<Particle>, drawn: seq<Particle>)
    requires forall i :: 0 <= i < |drawn| ==>
               HasParticleAt(ps, drawn[i].pos) && drawn[i] == ps[FirstIndexAt(ps, drawn[i].pos)]
    ensures AllCapped(ps) ==> AllCapped(drawn)
  {
    if AllCapped(ps) {
      forall i | 0 <= i < |drawn|
        ensures Capped(drawn[i].odds)
      {
        assert drawn[i] == ps[FirstIndexAt(ps, drawn[i].pos)];
      }
    }
  }

  /** The first half of `observe`: move every particle when an action was
      attempted, then update every particle's map. */
  method MoveAndUpdate(width: int, height: int, prior: OddsMap, legalPositions: seq<Pos>, ps: seq<Particle>,
                       prevAction: Option<Direction>, ranges: Ranges,
                       directionToVector: Direction -> (int, int), sampledMoves: seq<Direction>)
    returns (updated: seq<Particle>)
    requires LegalLayout(width, height, legalPositions) && PriorReady(prior, legalPositions)
    requires EdgePrior(width, height, prior)
    requires Population(width, height, legalPositions, ps)
    requires prevAction.Some? ==>
               |sampledMoves| == |ps| &&
               forall i :: 0 <= i < |ps| ==> InGrid(width, height, VectorSum(directionToVector(sampledMoves[i]), ps[i].pos))
    ensures updated == WithUpdatedMaps(width, height, prior, legalPositions,
                         if prevAction.Some? then Moved(ps, directionToVector, sampledMoves) else ps, ranges)
    ensures Population(width, height, legalPositions, updated)
    ensures AllCapped(ps) ==> AllCapped(updated)
  {
    var moved := ps;
    if prevAction.Some? {
      MovedPopulation(width, height, legalPositions, ps, directionToVector, sampledMoves);
      moved := Moved(ps, directionToVector, sampledMoves);
    }
    UpdatedPopulation(width, height, prior, legalPositions, moved, ranges);
    UpdatedCapped(width, height, prior, legalPositions, moved, ranges);
    updated := UpdateAllMaps(width, height, prior, legalPositions, moved, ranges);
  }

  /** The resampling half of `observe`: draw the new particles, which keep
      the population's invariants. */
  method Resample(width: int, height: int, legalPositions: seq<Pos>, ps: seq<Particle>,
                  weights: map<Pos, real>, numParticles: nat)
    returns (newParticles: seq<Particle>)
    requires Population(width, height, legalPositions, ps)
    requires weights.Keys == PositionSet(ps)
    requires numParticles > 0 ==> |ps| > 0
    ensures |newParticles| == numParticles
    ensures forall i :: 0 <= i < numParticles ==>
              newParticles[i].pos in weights && HasParticleAt(ps, newParticles[i].pos) &&
              newParticles[i] == ps[FirstIndexAt(ps, newParticles[i].pos)]
    ensures Population(width, height, legalPositions, newParticles)
    ensures AllCapped(ps) ==> AllCapped(newParticles)
  {
    newParticles := DrawParticles(ps, weights, numParticles);
    DrawnPopulation(width, height, legalPositions, ps, newParticles);
    DrawnCapped(ps, newParticles);
  }

  class SLAMParticleFilter {
    const startPos: Pos
    const legalPositions: seq<Pos>
    const numParticles: nat
    const width: int
    const height: int
    const wallPrior: real
    const priorWallBeliefDistribution: OddsMap
    var particles: seq<Particle>
    var weights: map<Pos, real>
    var posBelieves: Option<map<Pos, real>>

    ghost predicate Valid()
      reads this
    {
      && Configured(width, height, wallPrior, legalPositions)
      && InGrid(width, height, startPos)
      && priorWallBeliefDistribution.Keys == LegalSet(legalPositions)
      && PriorReady(priorWallBeliefDistribution, legalPositions)
      && (forall p :: p in priorWallBeliefDistribution ==>
            priorWallBeliefDistribution[p] == PriorOdds(width, height, wallPrior, p))
      && EdgePrior(width, height, priorWallBeliefDistribution)
      && |particles| == numParticles
      && Population(width, height, legalPositions, particles)
    }

    constructor (startPos: Pos, layoutWidth: int, layoutHeight: int, wallPrior: real,
                 legalPositions: seq<Pos>, numParticles: nat := 1000)
      requires Configured(layoutWidth, layoutHeight, wallPrior, legalPositions)
      requires InGrid(layoutWidth, layoutHeight, startPos)
      ensures Valid()
      ensures this.startPos == startPos && this.legalPositions == legalPositions
      ensures this.numParticles == numParticles && this.wallPrior == wallPrior
      ensures width == layoutWidth && height == layoutHeight
      ensures forall i :: 0 <= i < |particles| ==> particles[i] == Particle(startPos, priorWallBeliefDistribution)
      ensures weights == map[] && posBelieves == None
      ensures wallPrior <= ProbOne ==> AllCapped(particles)
    {
      this.startPos := startPos;
      this.legalPositions := legalPositions;
      this.numParticles := numParticles;
      width := layoutWidth;
      height := layoutHeight;
      this.wallPrior := wallPrior;
      var prior := GeneratePriorMap(layoutWidth, layoutHeight, wallPrior, legalPositions);
      priorWallBeliefDistribution := prior;
      if wallPrior <= ProbOne {
        forall p | p in prior
          ensures prior[p] <= OddsCap
        {
          PriorOddsCapped(layoutWidth, layoutHeight, wallPrior, p);
        }
      }
      particles := seq(numParticles, _ => Particle(startPos, prior));
      weights := map[];
      posBelieves := None;
    }

    /** `initialize`: all belief on the start position. */
    method Initialize()
      requires Valid()
      modifies this
      ensures Valid()
      ensures weights == old(weights)[startPos := 1.0]
      ensures particles == old(particles) && posBelieves == old(posBelieves)
    {
      weights := weights[startPos := 1.0];
    }

    /** `reweightParticles` up to `normalize`: binarise each particle's map,
        ray-cast from its position and add its weight to its position. */
    method ReweightParticles(ranges: Ranges, obsProb: (int, int) -> real)
      requires Valid()
      modifies this
      ensures Valid()
      ensures weights == WeightTable(width, height, ranges, obsProb, particles)
      ensures particles == old(particles) && posBelieves == old(posBelieves)
    {
      weights := ComputeWeights(width, height, ranges, obsProb, particles);
    }

    /** `observe`: motion (when an action was attempted), map update,
        reweighting, resampling, then the set of occupied positions. */
    method Observe(prevAction: Option<Direction>, ranges: Ranges, obsProb: (int, int) -> real,
                   directionToVector: Direction -> (int, int), sampledMoves: seq<Direction>)
      requires Valid()
      requires prevAction.Some? ==>
                 |sampledMoves| == |particles| &&
                 forall i :: 0 <= i < |particles| ==>
                   InGrid(width, height, VectorSum(directionToVector(sampledMoves[i]), particles[i].pos))
      modifies this
      ensures Valid()
      ensures var moved := if prevAction.Some? then Moved(old(particles), directionToVector, sampledMoves)
                           else old(particles);
              var updated := WithUpdatedMaps(width, height, priorWallBeliefDistribution, legalPositions, moved, ranges);
              && Population(width, height, legalPositions, updated)
              && weights == WeightTable(width, height, ranges, obsProb, updated)
              && forall i :: 0 <= i < |particles| ==>
                   particles[i].pos in weights && HasParticleAt(updated, particles[i].pos) &&
                   particles[i] == updated[FirstIndexAt(updated, particles[i].pos)]
      ensures AllCapped(old(particles)) ==> AllCapped(particles)
      ensures posBelieves.Some?
      ensures forall p :: p in posBelieves.value <==> p in Positions(particles)
      ensures forall p :: p in posBelieves.value ==> posBelieves.value[p] == 1.0
    {
      var ps := MoveAndUpdate(width, height, priorWallBeliefDistribution, legalPositions, particles,
                              prevAction, ranges, directionToVector, sampledMoves);
      particles := ps;
      ReweightParticles(ranges, obsProb);
      var newParticles := Resample(width, height, legalPositions, ps, weights, numParticles);
      particles := newParticles;
      var beliefs := MarkPositions(newParticles);
      posBelieves := Some(beliefs);
    }

    /** getPositionBeliefDistribution up to `normalize`: how many particles
        stand on each position. */
    method GetPositionBeliefDistribution() returns (beliefs: map<Pos, real>)
      ensures forall p :: p in beliefs <==> p in Positions(particles)
      ensures forall p :: p in beliefs ==> beliefs[p] == multiset(Positions(particles))[p] as real
    {
      var positions := Positions(particles);
      beliefs := map[];
      for i := 0 to |positions|
        invariant forall p :: p in beliefs <==> p in positions[..i]
        invariant forall p :: p in beliefs ==> beliefs[p] == multiset(positions[..i])[p] as real
      {
        var pos := positions[i];
        assert positions[..i + 1] == positions[..i] + [pos];
        beliefs := beliefs[pos := Lookup(beliefs, pos) + 1.0];
      }
      assert positions[..|positions|] == positions;
    }
  }
}
