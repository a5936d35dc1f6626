# sps-p swarm engine in Dafny

This project models the simulation engine of sps-p. sps-p is a two-dimensional swarm of particles with non-reciprocal pairwise interactions on a periodic square of side 10.

The particles are split by id into contiguous blocks, one per type. A coefficient matrix gives the interaction strength between blocks. Each tick does four things:

- every particle sums the forces of all other particles, each taken at that particle's nearest periodic image;
- each sum goes through a fixed-slope Runge-Kutta increment;
- all new positions are buffered and then committed together;
- the step counter advances, and the parameter manager's change counter is reset every 1000 steps.

The ABPM parameter scheme writes the two-type matrix with four scalars A, B, P and M. It also computes two order parameters of the swarm: X, the reciprocal of the mean distance to the centre of gravity, and V, the mean relative speed.

Java `double` is modelled as `real`. `Math.sqrt` and `d -> Math.pow(d, -0.8)` are uninterpreted functions carried in `JavaMath.MathLib`. The only facts assumed about `sqrt` are the ones in `JavaMath.IsSqrt`: it maps 0 to 0, it is non-negative, and it is monotone. These are lemma preconditions.

Java int `/` rounds toward zero, and `JavaMath.JavaDiv` models that. Where `getKParam` throws (an index outside the coefficient matrix, or a division by zero when `pPartition` is 0), the model returns `None`. The out-of-bounds read of `printSwarmParam` is different: the tick has already changed the state when it throws, so `Simulation.Swarm.Run` reports it in its `reportThrows` result. The constructor's division by zero when `pType` is 0 is excluded by the constructor's precondition (see "## Left out"). In the order parameters, where Java divides a double by zero and yields NaN or Infinity, the model also returns `None`. The tick is different. At a minimum-image distance of 0 Java's force law yields NaN or Infinity, and the model does not return `None` there: the tick requires that no two particles share a nearest image (`Simulation.Separated`), as listed under "## Left out".

The modules:

- `JavaMath`: Option, `Abs`, Java int division, and the stand-ins for `Math.sqrt` and `Math.pow`.
- `Geometry`: particles and vectors. It also holds the plain and the minimum-image differences and distances on the torus of side `L = 10`.
- `Integrator`: `calcRungeKutta`.
- `Parameters`: the coefficient-matrix manager as seen by its callers.
- `TypePartition`: `getKParam` and the arithmetic of the block index.
- `Simulation`: the force law, the tick as a specification function `Step`, and the `Swarm` class. The class's `Run` method does the tick with the loops and buffers of Swarm.java and is proved equal to `Step`.
- `Abpm`: the A/B/P/M matrix construction and the Update handler.
- `OrderParams`: `getGravity`, `getX` and `getV` as loops, proved equal to the functions `Gravity`, `OrderX` and `OrderV`.

Three facts about the code that the model makes explicit:

- **Nothing clamps the block index.** `(id - 1) / pPartition` can reach `pType` whenever `pType` does not divide `pNum` and `pType <= pNum` (`TypePartition.UnevenSplitReachesType`). With fewer particles than types, `pPartition` is 0 and every lookup divides by zero (`TypePartition.FewerParticlesThanTypesThrows`). With a matrix of exactly `pType` rows, such as the 2x2 ABPM matrix, the lookup then throws (`TypePartition.KParamUnevenSplitThrows`, 5 particles of 2 types). With a larger matrix it does not throw but reads a row meant for no type (`TypePartition.KParamUnevenSplitReadsExtraRow`, the same swarm with a 3x3 matrix).
- **Tie order.** The running best of the per-axis minimum starts at the unshifted difference, and only a strictly shorter candidate replaces it. So the unshifted difference wins every tie, and -1 wins over +1 (`Geometry.ClosestDiffChoice`).
- **Joint and per-axis minima agree.** Over the reals, with a monotone `sqrt`, the jointly minimised distance equals the length of the two per-axis closest differences (`Geometry.ClosestDistanceMatchesAxes`). Any difference comes only from floating-point rounding.

## Model

| member | source | states |
|---|---|---|
| JavaMath.JavaDiv | src/Swarm.java:84-86 | Java's int `/`: the quotient agrees with floor division on non-negative operands; the remainder is smaller than the divisor in magnitude and is zero or has the sign of the dividend |
| TypePartition.GetKParam | src/Swarm.java:84-86 | the coefficient is defined exactly when pPartition is non-zero and both block indices address an entry of the matrix; it is then that entry |
| TypePartition.TypeIndexMonotone | src/Swarm.java:84-86 | for ids from 1 and pPartition at least 1, the block index is non-negative and does not decrease with the id |
| TypePartition.TypeIndexZeroIff | src/Swarm.java:84-86 | the block index is 0 exactly when id <= pPartition |
| TypePartition.TypeIndexBelowTypes | src/Swarm.java:49 | when pType divides pNum, every id in 1..pNum gets a block index below pType |
| TypePartition.TypeIndexTwoTypes | src/Swarm.java:32 | with two types the block index never exceeds 2, even on an odd particle count |
| TypePartition.UnevenSplitOverflows | src/Swarm.java:84-86 | with 5 particles of 2 types, id 5 lands in block 2: nothing clamps the index |
| TypePartition.UnevenSplitReachesType | src/Swarm.java:84-86 | whenever pType does not divide pNum and pType <= pNum, the last id lands in block pType or beyond |
| TypePartition.FewerParticlesThanTypesThrows | src/Swarm.java:84-86 | with fewer particles than types pPartition = pNum / pType is 0, so every getKParam divides by zero |
| TypePartition.NineParticlesThreeTypes | src/Swarm.java:84-86 | with 9 particles of 3 types, ids 1, 4, 7 and 9 land in blocks 0, 1, 2 and 2 |
| TypePartition.KParamDefinedOnEvenSplit | src/Swarm.java:84-86 | on an even split with a pType-by-pType matrix every lookup of two valid ids succeeds |
| TypePartition.KParamUnevenSplitThrows | src/Swarm.java:84-86 | the 2x2 matrix cannot serve 5 particles: getKParam(5, 5) throws |
| TypePartition.KParamUnevenSplitReadsExtraRow | src/Swarm.java:84-86 | a 3x3 matrix serves 5 particles of 2 types without throwing, but reads id 5's coefficients from the third row |
| Geometry.DiffX | src/Swarm.java:88-90 | adding the difference to pi.x gives pj.x |
| Geometry.DiffY | src/Swarm.java:126-128 | adding the difference to pi.y gives pj.y |
| Geometry.Distance | src/Swarm.java:130-132 | the distance is non-negative and is 0 when the two points coincide |
| Geometry.DistanceSymmetric | src/Swarm.java:130-132 | the distance does not depend on the order of its two points |
| Geometry.ParticleDistance | src/Swarm.java:134-140 | the particle distance is non-negative and is 0 when the two positions coincide |
| Geometry.DiffXClosest | src/Swarm.java:92-107 | the loop returns the minimum-image x difference of the scan over the offsets -1, 0, 1 |
| Geometry.DiffYClosest | src/Swarm.java:109-124 | the loop returns the minimum-image y difference of the scan over the offsets -1, 0, 1 |
| Geometry.ClosestDiffChoice | src/Swarm.java:92-107 | the closest difference is no larger in magnitude than any of the three shifted differences; on a tie the unshifted one wins, and -1 wins over +1 |
| Geometry.ClosestDiffBelow | src/Swarm.java:109-124 | the closest difference along an axis is no longer than any shifted difference along that axis |
| Geometry.DistanceClosest | src/Swarm.java:142-159 | the nested loops return the result of the scan over the 3x3 image grid, in the loops' order, starting from the plain distance |
| Geometry.ScanImagesMin | src/Swarm.java:148-157 | the image scan returns a value no greater than its start and than every image it visits, and equal to the start or to one of those images |
| Geometry.ClosestDistanceIsMin | src/Swarm.java:142-159 | the minimum-image distance is at most the plain distance and each of the nine image distances, and equals one of the nine |
| Geometry.PlainIsCentreImage | src/Swarm.java:146-152 | the plain distance is the distance to the unshifted image |
| Geometry.ClosestDistanceToSelf | src/Swarm.java:142-159 | a particle is at minimum-image distance 0 from itself |
| Geometry.ClosestDistanceNonNegative | src/Swarm.java:142-159 | the minimum-image distance is non-negative |
| Geometry.ImageDistanceSwap | src/Swarm.java:152 | the distance from pi to pj's image shifted by (a, b) equals the distance from pj to pi's image shifted by (-a, -b) |
| Geometry.ClosestDistanceSymmetric | src/Swarm.java:142-159 | the minimum-image distance is symmetric in its two particles |
| Geometry.NormNegate | src/Swarm.java:130-132 | reversing a displacement keeps its length |
| Geometry.NormMonotone | src/Swarm.java:130-132 | a displacement that is longer on each axis has at least the same length |
| Geometry.ImageDistanceAsNorm | src/Swarm.java:152 | the distance to an image is the length of the two shifted axis differences |
| Geometry.AxisNormBelowImage | src/Swarm.java:92-124 | no image is closer than the point built from the two per-axis closest differences |
| Geometry.AxisNormIsImage | src/Swarm.java:92-124 | the point built from the two per-axis closest differences is one of the nine images |
| Geometry.ClosestDistanceMatchesAxes | src/Swarm.java:92-159 | the jointly minimised distance equals the length of the two per-axis minimum differences |
| Integrator.RungeKutta | src/Swarm.java:161-167 | calcRungeKutta(x) equals x * dt * (1 + dt/2 + dt^2/6 + dt^3/24) |
| Integrator.RungeKuttaLinear | src/Swarm.java:161-167 | the increment is linear in the force |
| Integrator.RungeKuttaZero | src/Swarm.java:161-167 | a zero force gives a zero increment |
| Integrator.RungeKuttaSign | src/Swarm.java:161-167 | for a positive time step the increment has the sign of the force |
| Parameters.ParamManager.constructor | src/Swarm.java:34-35 | a new manager holds the given matrix and a zero change counter |
| Parameters.ParamManager.SetParams | src/sps_p/ParameterKabpm.java:162 | the whole matrix is replaced and the change counter grows by one |
| Parameters.ParamManager.SetParamChangedCount | src/Swarm.java:244 | the change counter is overwritten and the matrix is kept |
| Simulation.Push | src/Swarm.java:209-210 | the force law gives no force along a zero offset |
| Simulation.PairForce | src/Swarm.java:198-210 | the pair force is defined exactly when the coefficient lookup succeeds |
| Simulation.ComputePairForce | src/Swarm.java:198-210 | the body of the inner loop computes `PairForce`, or None where getKParam throws |
| Simulation.ForcesIsTable | src/Swarm.java:192-219 | a table holds, entry by entry, the forces of the other particles on particle i exactly when it is Forces |
| Simulation.SumSkippingDefinedIff | src/Swarm.java:192-219 | the running sum is defined exactly when every term other than the skipped self term is |
| Simulation.SumSkippingStep | src/Swarm.java:193-217 | one more pass skips the self term, adds a defined force, or fails on a missing one |
| Simulation.SumSkippingStaysNone | src/Swarm.java:192-219 | once a lookup fails, the sum stays failed |
| Simulation.ForceSumDefinedIff | src/Swarm.java:192-219 | the force on particle i is defined exactly when every other particle's coefficient lookup succeeds |
| Simulation.Advance | src/Swarm.java:221-225 | the moved particle keeps its id, and a zero force leaves it in place |
| Simulation.DefinedIffForceSums | src/Swarm.java:188-226 | the tick does not throw exactly when every particle's force sum is defined |
| Simulation.Moved | src/Swarm.java:221-225 | the new position keeps the particle's id |
| Simulation.Step | src/Swarm.java:188-231 | the synchronous tick keeps the particle count, order and ids |
| Simulation.Rebuilt | src/Swarm.java:228-231 | slot k gets the id of old slot k and the k-th buffered coordinates |
| Simulation.CommitSlots | src/Swarm.java:228-231 | after committing the indices of an order, a slot holds its new value exactly when the order names it |
| Simulation.CommitCovering | src/Swarm.java:228-231 | committing every index, in any order and whatever the buffered values, yields exactly the buffered values |
| Simulation.CommitAnyOrder | src/Swarm.java:188-231 | committing the buffered tick in any order that covers every index gives the same swarm, the tick itself |
| Simulation.RebuiltIsCommit | src/Swarm.java:228-231 | the commit loop's result, built from buffers that hold the tick's coordinates, is the commit of the tick in any order that covers every index |
| Simulation.SingleParticleStays | src/Swarm.java:193 | a particle never pushes itself: alone, it does not move |
| Simulation.DefinedOnEvenSplit | src/Swarm.java:49 | with ids 1..n split evenly into t types and a t-by-t matrix, the tick never throws |
| Simulation.Swarm.constructor | src/Swarm.java:44-59 | num particles with ids 1..num in order, pPartition = num / type in Java division, step counter 0, and the manager's current matrix |
| Simulation.Swarm.AddPairForce | src/Swarm.java:193-217 | one pass of the inner loop extends the running sum by `PairForce` |
| Simulation.Swarm.ForceOn | src/Swarm.java:189-219 | the inner loop returns the summed force of all other particles on particle i, or None where a lookup throws |
| Simulation.Swarm.Candidates | src/Swarm.java:188-226 | the outer loop succeeds exactly when no lookup throws, and then buffers exactly the coordinates of `Step` |
| Simulation.Swarm.CommitPositions | src/Swarm.java:228-231 | every particle takes its buffered coordinates and keeps its id; the counter and the matrix are untouched |
| Simulation.Swarm.PrintSwarmParam | src/Swarm.java:256-266 | the report reads in bounds exactly when the matrix has a 3x3 corner; otherwise Java throws |
| Simulation.Swarm.Run | src/Swarm.java:169-254 | a tick whose lookups succeed moves the particles to the synchronous tick of the old state, re-reads the matrix, raises the counter by one and zeroes the change counter exactly at multiples of 1000; it then throws from the report exactly when the new counter is a multiple of 5000 and the re-read matrix lacks a 3x3 corner, with all that state already changed; a tick whose lookup throws changes nothing; the ids stay 1..pNum |
| Abpm.Init2x2 | src/sps_p/ParameterKabpm.java:181-187 | with the built-in values the matrix is [[0.8, -0.2], [1.4, 0.4]] |
| Abpm.Init3x3 | src/sps_p/ParameterKabpm.java:189-192 | the scheme has no three-type matrix: zero rows |
| Abpm.UpdateMatrix | src/sps_p/ParameterKabpm.java:158-161 | a 2x2 matrix with A and B on the diagonal whose off-diagonal entries sum to 2P and differ by 2M |
| Abpm.DecomposeUpdate | src/sps_p/ParameterKabpm.java:158-161 | the four scalars are read back unchanged from the matrix built from them |
| Abpm.UpdateDecompose | src/sps_p/ParameterKabpm.java:158-161 | every 2x2 matrix is built by the scheme from exactly its own four scalars |
| Abpm.UpdateSymmetricIff | src/sps_p/ParameterKabpm.java:158-161 | the matrix is symmetric exactly when M is 0 |
| Abpm.Init2x2IsUpdateOfDefaults | src/sps_p/ParameterKabpm.java:181-187 | init2x2 is the Update handler's matrix for the built-in values |
| Abpm.OnUpdate | src/sps_p/ParameterKabpm.java:153-166 | the manager receives the scheme's matrix for the entered values and counts one change |
| OrderParams.GetGravity | src/sps_p/ParameterKabpm.java:53-61 | the loop returns the coordinate sums divided by pNum, or None when pNum is 0 |
| OrderParams.GravityIsMean | src/sps_p/ParameterKabpm.java:53-61 | with pNum particles, the gravity centre is defined exactly when there is a particle, and is the coordinate-wise mean |
| OrderParams.TotalTranslate | src/sps_p/ParameterKabpm.java:56-59 | moving every point by t moves the sum by n times t |
| OrderParams.TotalConstant | src/sps_p/ParameterKabpm.java:56-59 | n copies of one point sum to n times that point |
| OrderParams.GravityTranslate | src/sps_p/ParameterKabpm.java:53-61 | translating every particle translates the centre of gravity by the same amount |
| OrderParams.GravityOfCluster | src/sps_p/ParameterKabpm.java:53-61 | when every particle sits at one point, the centre of gravity is that point |
| OrderParams.GetX | src/sps_p/ParameterKabpm.java:72-79 | the loop returns `OrderX`, or None where Java divides by zero |
| OrderParams.OrderXIsReciprocalMean | src/sps_p/ParameterKabpm.java:72-79 | X is defined exactly when pNum and the summed distance to the centre are non-zero, and is then pNum over that sum, a positive value |
| OrderParams.OrderXOfCluster | src/sps_p/ParameterKabpm.java:72-79 | a swarm collapsed onto one point has no finite X |
| OrderParams.SumDistancesNonNegative | src/sps_p/ParameterKabpm.java:75-77 | summed distances are non-negative |
| OrderParams.SumDistancesAtCentre | src/sps_p/ParameterKabpm.java:75-77 | summed distances vanish when every point is the centre |
| OrderParams.GetV | src/sps_p/ParameterKabpm.java:90-97 | the loop returns `OrderV`, measured against nextG - curG, or None when pNum is 0 |
| OrderParams.OrderVNonNegative | src/sps_p/ParameterKabpm.java:90-97 | V is defined exactly when pNum is non-zero and is then non-negative |
| OrderParams.OrderVAtRest | src/sps_p/ParameterKabpm.java:90-97 | V is 0 when every supplied velocity equals the velocity of the centre of gravity |

## Left out

- The Swing user interface of both files: `showParams`, the button listeners, `paintComponent`, `repaint`, the text fields, the ABPM layout with its `Double.parseDouble` calls, and the log plot. `Abpm.OnUpdate` takes the four entered values as parameters.
- src/utils/LogPlot.java and `addPoint`'s `log10(1000 * x + 1)` display transform: plotting only.
- The console output at multiples of 1000 and 5000 steps, including what `printSwarmParam` prints, and `System.exit(0)` at step 50000: I/O and process control. Only whether `printSwarmParam` throws is kept (`Simulation.Swarm.PrintSwarmParam`).
- Simulation.Swarm.Run: the exception from `printSwarmParam` on a matrix without a 3x3 corner is reported as `reportThrows == true`, with the state change of the tick kept, rather than as an exception. The second `printSwarmParam` call and the exit at step 50000, both reached only when the first call does not throw, are not modelled.
- `reset()` on the swarm and on the plot: driver and UI calls. The rest of the Update handler, after `setParams`, is left out for the same reason.
- Parameter.java is not part of this model. `Parameters.ParamManager` keeps only the matrix, replaced as a whole, and the change counter. Random parameters and the text renderings are left out.
- Parameters.ParamManager.SetParams: the body of `setParams` is not part of this model. That it also adds one to the change counter is an assumption, drawn from the counter's reset in `run()`. `Abpm.OnUpdate`'s "counts one change" rests on it.
- The Particle class is not part of this model. A particle is a value (id, x, y). The in-place field writes of the commit loop are updates of the `particles` sequence, so aliasing between Particle objects is not captured. The self-pair test `p1 == p2` is reference equality in Java; the model compares list positions.
- Simulation.Swarm.constructor: Java builds its own manager (`new Parameter(3)`) and lets `new Particle(i)` choose the starting positions. The model takes the manager and the positions as parameters. It requires `num >= 0` and `type != 0`, where Java would throw on a negative list capacity or divide by zero.
- Floating-point rounding, NaN and Infinity. Doubles are reals, `Math.sqrt` and `Math.pow(d, -0.8)` are uninterpreted, and the value of the force kernel `k * d^-0.8 - 1/d` is stated but no fact about it is proved.
- Simulation.Swarm.Run: requires that no two distinct particles have a coincident nearest image (`Simulation.Separated`). At distance 0 Java divides by zero and the tick produces NaN or Infinity, which the reals do not have.
- Simulation.Swarm.Candidates: requires `Simulation.Separated`, for the same reason as `Run`.
- Simulation.Swarm.ForceOn: requires `Simulation.Separated`, for the same reason as `Run`.
- Simulation.Swarm.AddPairForce: requires `Simulation.Separated`, for the same reason as `Run`.
- Simulation.ComputePairForce: requires a non-zero minimum-image distance between its two particles, where Java's force law would yield NaN or Infinity.
- Simulation.PairForce: requires a non-zero minimum-image distance between its two particles, for the same reason as `Simulation.ComputePairForce`.
- Simulation.Swarm.Run: the step counter is an unbounded natural. Java's int `count` would wrap after 2^31 - 1 ticks, which the model does not capture.
- The side of the torus is the constant `Geometry.L = 10`, because the field `l` is never reassigned. Other sides are not modelled.
- The `kSums` matrix of `run()`, allocated but never read, and the commented-out alternatives inside `run()`, such as its write and the Heider balance calls.
