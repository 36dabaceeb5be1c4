# SLAM particle filter — a Dafny model

This project models the core of a Pacman SLAM (simultaneous localisation and
mapping) agent. `SLAMParticleFilter` keeps a fixed number of particles. Each
particle pairs a guessed Pacman position with an occupancy map. The map holds
wall odds `p / (1 - p)` for every legal position. On each observation the
filter:

- when an action was attempted, moves every particle by a sampled direction;
- updates every map cell the inverse sensor model (`emissionModel`) is
  informed about, using the four range readings;
- binarises each map into a wall grid;
- ray-casts from the particle's position (`getTrueRangeMeasurement`) and
  weights the particle by how well those distances match the readings;
- resamples positions from the weight table, re-pairing each with the map of
  the first particle at that position.

The model also covers the two automatic agents' `chooseAction`. The patrol
agent keeps going straight, else takes the first legal move that does not
turn back, else turns back. The auto agent picks any legal non-STOP move.

Modules, one per file:

- `Types` (`types.dfy`): positions, the five directions, `Option`/`Result`,
  the four readings, `onEdge` and `vector_sum`.
- `RayCast` (`raycast.dfy`): the ray-caster as four loops. It is proved
  against a recursive `Walk` specification, and `Walk` is proved to be the
  distance to the first wall on each ray.
- `SensorModel` (`sensor_model.dfy`): `emissionModel` as a three-valued
  `Evidence` (`Wall` = `prob_ONE`, `Free` = `prob_ZERO`,
  `Uninformative` = the implicit `None`). For non-negative readings it is tied to
  an independent ray-by-ray reference. A lemma proves that, for an agent standing on a free
  cell, exact readings never make it contradict the map.
- `Occupancy` (`occupancy.dfy`): odds and probabilities, the prior map,
  binarisation and the per-cell odds update.
- `ParticleFilter` (`particle_filter.dfy`): particles, weights and the
  `SLAMParticleFilter` class. Its fields are updated in place by
  `Initialize`, `ReweightParticles` and `Observe`.
- `SlamAgents` (`slam_agents.dfy`): `list.remove`, the patrol rule as a
  specification function with its lemmas, and the two agent classes with a
  mutable `prevAction`.

Parameters stand in for what the model cannot see:

- `slam.getObservationDistribution(r)[e]` is `obsProb(r, e)`.
- `Actions.directionToVector` is `directionToVector`.
- `Directions.REVERSE` is a map `reverse`.
- The sampled motion directions are `sampledMoves`.
- `util.sampleFromCounter` in resampling and `random.choice` in the auto
  agent become nondeterministic choices (`:|`) from the support.

## Model

| member | source | states |
|---|---|---|
| RayCast.GetTrueRangeMeasurement | inference.py:70-92 | the four stepping loops return exactly the walk lengths north (+y), east (+x), south (−y) and west (−x), on a map whose border is all walls, from a position inside the grid |
| RayCast.WalkIsFirstWall | inference.py:74-91 | a walk returns d exactly when the cell d steps away is a wall and every cell before it is free (both directions) |
| RayCast.TrueRanges | inference.py:70-92 | from a start cell that is itself a wall, all four readings are 0 |
| RayCast.WalkReachesBorder | inference.py:74-91 | on a map whose only walls are the border, every walk from an inner cell goes all the way to the border row or column |
| RayCast.BorderOnlyRanges | inference.py:70-92 | on a border-only map, the readings from inner cell (x, y) are (height−1−y, width−1−x, y, x) |
| Types.OnEdge | inference.py:120-121 | a cell is on the border when it is in the first or last column or row; see EmissionModelCases, PriorOdds and BinarisedCells for what the border decides |
| Types.VectorSum | inference.py:133-134 | adds a direction vector to a position; see MovedPopulation for the motion step built on it |
| SensorModel.EmissionModel | inference.py:199-213 | the emission model, branch for branch; see EmissionModelCases, OffAxisIsUninformative and ExactReadingsAgreeWithMap for what it states |
| SensorModel.EmissionModelCases | inference.py:199-213 | a border cell is a wall before any other test; the agent's own inner cell is free; for non-negative readings the result equals the ray-by-ray reference: nearer than the reading is free, at the reading is a wall, and beyond it or off both axes is uninformative |
| SensorModel.Bearing | inference.py:203-213 | which of the four rays a cell lies on and at what positive distance; no ray exactly for the agent's own cell and for cells off both axes |
| SensorModel.OffAxisIsUninformative | inference.py:208-213 | an inner cell on neither the agent's row nor its column is never updated, whatever the readings |
| SensorModel.ExactReadingsAgreeWithMap | inference.py:199-213 | with the readings a perfect sensor gives on map g, a cell called a wall is a wall of g, a cell called free is free in g, and an inner cell on a ray is uninformative exactly when it lies beyond the first wall |
| Occupancy.Inverse | inference.py:123-124 | a probability strictly between 0 and 1 gives positive odds |
| Occupancy.Prob | inference.py:149 | non-negative odds give a probability in [0, 1) |
| Occupancy.IsWall | inference.py:140-141 | `prob > 0.5`; see WallIffOddsAboveOne for its meaning on odds |
| Occupancy.OddsRoundTrip | inference.py:123-124 | `inverse` and `o / (o + 1)` are mutual inverses, in both orders |
| Occupancy.WallIffOddsAboveOne | inference.py:140-141 | `isWall(o / (o + 1))` holds exactly when the odds exceed 1 |
| Occupancy.PriorOdds | inference.py:130 | the prior odds of a cell convert back to probability 0.999 on the border and to the wall prior inside, and are positive for a prior in (0, 1) |
| Occupancy.GeneratePriorMap | inference.py:127-131 | the prior map has exactly the legal positions as keys, each with its prior odds |
| Occupancy.BinaryGrid | inference.py:147-151 | the binarised grid is width × height, and it is walled all round when every border cell is in the map |
| Occupancy.BinarisedCells | inference.py:147-151 | a cell of the binarised grid is a wall exactly when the map has it and it is on the border or its odds exceed 1; cells missing from the map stay free |
| Occupancy.Binarise | inference.py:147-151 | the cell-marking loop over the map's keys produces exactly the binarised grid |
| Occupancy.LikelihoodRatio | inference.py:117-118 | the odds of `prob_ONE` are 9999 and the odds of `prob_ZERO` are its reciprocal |
| Occupancy.UpdatedOdds | inference.py:184-188 | an uninformative cell keeps its old odds; an informative one ends at most 9999 and never exactly 0, and positive when the old odds are non-negative |
| Occupancy.FirstUpdateFromPrior | inference.py:187 | from the prior, one informative reading sets the odds to that reading's own ratio: the prior is divided out, not counted twice |
| Occupancy.UpdatedMap | inference.py:180-189 | one particle's map after an observation; see UpdatedMapFacts and UpdatedMapKeepsBorder for what it states |
| Occupancy.UpdatedMapFacts | inference.py:181-188 | an updated map has exactly the legal positions as keys; uninformative cells keep their old odds (0 when absent); informative cells are non-zero and at most 9999; positive odds stay positive |
| Occupancy.BorderBelief | inference.py:130 | odds at or above `inverse(0.999)` mean a wall probability of at least 0.999 |
| Occupancy.BorderUpdate | inference.py:184-188 | a border cell, always reported as a wall, goes from odds at or above `inverse(0.999)` to the cap 9999 |
| Occupancy.PriorOddsCapped | inference.py:130 | with a wall prior of at most 0.9999, no prior odds exceed the cap 9999 |
| Occupancy.UpdatedMapCapped | inference.py:181-188 | the map update keeps every cell at or below 9999: informative cells are capped and uninformative ones keep their old odds |
| Occupancy.UpdatedMapKeepsBorder | inference.py:181-188 | with the border prior at `inverse(0.999)`, an update never lowers a border cell below those odds |
| Occupancy.UpdateParticleMap | inference.py:181-188 | the per-cell loop produces exactly the updated map |
| Occupancy.UpdateCell | inference.py:184-188 | the loop body computes exactly the updated odds of one cell (see UpdatedOdds and FirstUpdateFromPrior) |
| ParticleFilter.FirstIndexAt | inference.py:192 | the index found holds a particle at the position, and no earlier particle is at it |
| ParticleFilter.MapAtPos | inference.py:192 | the map of the first particle at a position; see FirstIndexAt and DrawParticles |
| ParticleFilter.Moved | inference.py:178 | the motion step keeps the particle count and every particle's map |
| ParticleFilter.WithUpdatedMaps | inference.py:179-190 | the map step keeps the particle count and every particle's position |
| ParticleFilter.UpdateAllMaps | inference.py:179-190 | the particle loop of the map step builds exactly the updated particle list |
| ParticleFilter.UpdatedPopulation | inference.py:179-190 | after the map step every particle's map again covers exactly the legal positions, with positive odds, the whole border known, and no border cell below the border prior's odds |
| ParticleFilter.BorderStaysWall | inference.py:179-190 | whatever the observations, every particle of a consistent population holds every border cell a wall with probability at least 0.999 |
| ParticleFilter.MovedPopulation | inference.py:178 | a motion step that keeps every particle inside the grid keeps every particle usable by the ray-caster |
| ParticleFilter.DrawParticles | inference.py:192-194 | numParticles particles are drawn, each at a key of the weight table where some particle stood, each a copy of the first particle at that position (the `mapAtPos` pairing) |
| ParticleFilter.UpdatedCapped | inference.py:179-190 | the map step keeps every particle's map at or below 9999 |
| ParticleFilter.DrawnCapped | inference.py:192-194 | resampled particles are copies of old ones, so they stay at or below 9999 |
| ParticleFilter.MoveAndUpdate | inference.py:177-190 | the motion step (only when an action was attempted) followed by the map step gives exactly the updated particles, keeping the population consistent and every map at or below 9999 |
| ParticleFilter.Resample | inference.py:192-194 | the drawn particles are copies of the first particle at each drawn position, and keep the population consistent and at or below 9999 |
| ParticleFilter.DrawnPopulation | inference.py:192-194 | resampled particles are copies of old ones, so every map still covers exactly the legal positions and keeps its border belief |
| ParticleFilter.Likelihood | inference.py:153-155 | with a sensor table that never returns a negative number, the product of the per-direction factors is positive (a zero entry is replaced by 0.0001) |
| ParticleFilter.ObservationWeight | inference.py:153-155 | the weight loop multiplies the four per-direction factors |
| ParticleFilter.ParticleWeight | inference.py:147-155 | a particle's weight is positive under a non-negative sensor table |
| ParticleFilter.Accumulate | inference.py:156 | the accumulated table has exactly the positions that occur as keys, and it is positive when every weight is |
| ParticleFilter.AccumulateSumsWeights | inference.py:156 | each position's entry is the sum of the weights of the particles standing there, summed front to back; other positions read 0 |
| ParticleFilter.WeightTable | inference.py:145-156 | the weight table's keys are exactly the particle positions, with positive entries under a non-negative sensor table |
| ParticleFilter.ComputeWeights | inference.py:145-156 | the reweighting loop builds exactly the weight table |
| ParticleFilter.SumWeights | inference.py:145-156 | the particle loop, run over the per-particle weights, builds exactly their accumulated table |
| ParticleFilter.AddWeight | inference.py:147-156 | one pass of the loop, `weights[pos] += newWeight`, extends the table of the particles before it by the next particle's weight |
| ParticleFilter.WeighParticle | inference.py:147-155 | binarise, ray-cast and multiply give exactly the particle's weight |
| ParticleFilter.MarkPositions | inference.py:196-197 | the position beliefs hold 1.0 exactly on the positions some particle occupies |
| ParticleFilter.SLAMParticleFilter.constructor | inference.py:101-118 | the filter stores its configuration; every particle starts at the start position with the prior map; weights are empty and there is no position belief; with a wall prior of at most 0.9999 every map value is at most 9999 |
| ParticleFilter.SLAMParticleFilter.Initialize | inference.py:136-138 | sets weight 1.0 on the start position and changes nothing else |
| ParticleFilter.SLAMParticleFilter.ReweightParticles | inference.py:143-156 | the weights become the weight table of the current particles; the particles are unchanged |
| ParticleFilter.SLAMParticleFilter.Observe | inference.py:159-197 | after one observation the filter is consistent: numParticles particles, every map over exactly the legal positions with every border cell at or above the border prior's odds. The weights are the table of the moved and map-updated particles. Each new particle stands at a key of that table and is a copy of the first updated particle there. The position beliefs mark exactly the occupied positions. If every map value was at most 9999 before, it still is |
| ParticleFilter.SLAMParticleFilter.GetPositionBeliefDistribution | inference.py:226-230 | each occupied position maps to the number of particles on it; no other position appears |
| SlamAgents.IndexOf | slamAgents.py:157 | the first index holding the element |
| SlamAgents.RemoveFirst | slamAgents.py:157 | `list.remove` fails with ValueError exactly when the element is missing; otherwise it drops the first occurrence and keeps the other elements in their order, so the list is one shorter and holds one copy fewer |
| SlamAgents.FirstForward | slamAgents.py:160-163 | the scan finds the first action that is not the reverse of the previous move, or reports that every action is |
| SlamAgents.PatrolChoice | slamAgents.py:155-165 | the patrol rule's decision; see PatrolKeepsHeading, PatrolTakesFirstForward, PatrolReversesOnlyAtDeadEnd, PatrolPicksLegalMove and PatrolErrors for what it states |
| SlamAgents.RemoveSingleStop | slamAgents.py:157 | removing the only STOP leaves every other action and no STOP |
| SlamAgents.PatrolKeepsHeading | slamAgents.py:158-159 | a previous move that is still legal is repeated |
| SlamAgents.PatrolTakesFirstForward | slamAgents.py:160-163 | otherwise the first legal move, in list order, that does not reverse the previous move is taken |
| SlamAgents.PatrolReversesOnlyAtDeadEnd | slamAgents.py:160-165 | the agent turns back only when every legal move is the turn-back move |
| SlamAgents.PatrolPicksLegalMove | slamAgents.py:155-165 | with STOP listed once and another legal move, the rule succeeds, and its move is legal and not STOP |
| SlamAgents.PatrolErrors | slamAgents.py:157-164 | ValueError exactly when STOP is missing; KeyError exactly when no move is left and the previous move has no reverse |
| SlamAgents.PatrolSLAMAgent.ChooseAction | slamAgents.py:155-165 | the scanning method returns the patrol rule's choice; `prevAction` becomes the chosen move, and is unchanged when an exception is raised |
| SlamAgents.AutoSLAMAgent.ChooseAction | slamAgents.py:140-145 | ValueError without STOP; IndexError when no other move is legal; otherwise some legal non-STOP move, which becomes `prevAction` |

## Left out

- The motion weights of `nextPacamPosDistribution` (inference.py:162-175) are not modelled. They are floating-point weights, then `normalize` and a random draw. The model takes the drawn direction of each particle as the `sampledMoves` parameter. Those weights also read a stale `successorPosition` for every unintended move. Because `allDirections` ends with STOP (inference.py:114), that is always the STOP successor, i.e. the particle's own cell.
- ParticleFilter.SLAMParticleFilter.Observe: requires that each moved particle stays inside the grid. The source does not check this. A particle on the border can be sampled past it (an unknown cell reads as odds 0, wall probability 0). A later ray-cast from there would index past the grid or wrap round on a negative index.
- ParticleFilter.SLAMParticleFilter.constructor: requires a wall prior strictly between 0 and 1, a start position inside the grid, legal positions inside the grid, and every border cell legal. The source assumes but never checks these. The start position must be inside the grid for the ray-caster to index the grid from it. The last two are what keep every binarised map walled all round, so the ray-caster stops inside the grid. A wall prior of 1 would divide by zero in `inverse`.
- `util.Counter.normalize` (inference.py:157, 174, 231) is not shown. It only rescales values, so the weight table and the position histogram are modelled before it.
- ParticleFilter.DrawParticles: picks any key of the weight table. `util.sampleFromCounter` never draws a key of weight 0, but with a non-negative sensor table every key has positive weight anyway (`WeightTable`).
- ParticleFilter.Likelihood: positivity is proved only for a sensor table that never returns a negative number. `slam.getObservationDistribution` is not part of this model.
- `getWallBeliefDistribution` (inference.py:216-224) is not modelled. It is floating-point averaging for display.
- Floats are exact reals. The tests `prob > 9999`, `prob == 0` and `prob > 0.5` are therefore exact, and rounding is not modelled.
- The 9999 cap on every map value holds only for a wall prior of at most 0.9999 (ProbOne). A higher prior, say 0.99999, gives inner cells prior odds of 99999, and a cell that no reading ever informs keeps them. The constructor therefore promises the cap only for such a prior; Observe keeps it whenever it held before.
- Odds are not clamped to a floor. Only an exact 0 is replaced by 0.0001 (inference.py:188); small positive odds are kept as they are.
- `game.Grid` is a value `seq<seq<bool>>` indexed `[x][y]`. `Actions.directionToVector` and `Directions.REVERSE` are parameters, since `game.py` is not part of this model. `vector_sum`'s `int(...)` casts do nothing on integer vectors.
- `util.Counter` reads of missing keys return 0, modelled by `Lookup`. Such a read also inserts the key with value 0. In the map update that only touches the old maps, which are discarded; it is not modelled.
- Other members are not modelled:
  - the abstract `InferenceModule` stubs (inference.py:24-67);
  - `KeyboardInference`, built on the external observation table;
  - `SLAMAgent.getAction`, `observationFunction`, `registerInitialState` and `tellGameInfo`, which handle display and game plumbing;
  - `SLAMKeyboardAgent` (keyboard input);
  - `NullGraphics`;
  - the `Distancer` set up by the agents.
