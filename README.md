# Particle filter for Monte Carlo localization — Dafny model

This project models the discrete logic of a particle filter that localizes a
vehicle in 2D against a known landmark map (`src/particle_filter.cpp`). The
filter object keeps a population of weighted pose hypotheses ("particles") and
runs four steps: `init` seeds the population, `prediction` moves every particle
with the motion model, `updateWeights` scores every particle against the
observations, and `resample` draws a new population by weight. Two diagnostic
helpers set and print a particle's association lists.

The floating-point numerics are abstract. `sin`, `cos`, `sqrt`, `exp`, the
value of `M_PI` and the IEEE result of a division by zero are fields of the
`Numerics` value. `calculateDist`, `transformObservation`,
`calculateProbability` and the motion formulas keep their own formulas,
written over those abstract functions. Random
draws are inputs:

- the sampled x, y, theta of each new particle for `init`;
- the noise values for `prediction`;
- the drawn indices for `resample`.

So every property below holds whatever values the numerics and the random
sources produce. Numbers are Dafny `real`.

Modules:

- `Particles`: the values (`Particle`, `LandmarkObs`, `MapLandmark`, `Numerics`, `Option`).
- `Association`: `dataAssociation`, nearest-neighbour search with the 99999 sentinel.
- `Scoring`: the per-particle body of `updateWeights`. This covers the range filter, the transform, association and the product of likelihoods.
- `Motion`: the two branches of `prediction`.
- `Resampling`: selection by drawn indices.
- `Diagnostics`: `SetAssociations` and `getAssociations`, with a reader that parses the output back.
- `Filter`: class `ParticleFilter`, whose fields `numParticles`, `isInitialized` and `particles` are updated in place by `Init`, `Prediction`, `UpdateWeights` and `Resample`.

## Model

| member | source | states |
|---|---|---|
| Filter.Seeded | src/particle_filter.cpp:34-40 | the i-th new particle has id i, weight 1, empty lists and x, y, theta from the i-th triple of draws |
| Filter.ParticleFilter.Init | src/particle_filter.cpp:27-43 | appends exactly 10 particles after the existing ones. They carry ids 0..9 in order, weight 1, the given draws and empty lists. Sets `numParticles` to 10 and the initialized flag. |
| Filter.ParticleFilter.Prediction | src/particle_filter.cpp:55-65 | keeps the particle count. Each particle becomes its straight-line move when `yaw_rate == 0` (no draw consumed) and its arc move with three draws (x, y, theta) otherwise. Only `particles` changes. |
| Motion.MoveStraight | src/particle_filter.cpp:56-59 | only x and y change. Heading, id, weight and diagnostic lists are kept. |
| Motion.MoveTurning | src/particle_filter.cpp:60-64 | only x, y and theta change. The heading advances by `yaw_rate * dt` plus the theta draw. |
| Motion.StraightFromOrigin | src/particle_filter.cpp:57-58 | with cos 0 = 1 and sin 0 = 0, a particle at the origin facing 0 ends at (v·dt, 0) with heading 0 |
| Association.CalculateDist | src/particle_filter.cpp:195-199 | two coincident points are at distance `sqrt(0)` |
| Association.DistSymmetric | src/particle_filter.cpp:195-199 | the distance does not depend on which point comes first |
| Association.NearestScan | src/particle_filter.cpp:74-82 | the inner loop ends below the sentinel iff some distance is below it. The index it then holds is the first position of the minimal distance. Otherwise the previous id is kept. |
| Association.TieBreakFavoursLowerIndex | src/particle_filter.cpp:78-81 | of two equally near minimal landmarks, the later one is never chosen (strict `<`) |
| Association.AssociateOne | src/particle_filter.cpp:73-83 | coordinates are kept. The id becomes the first nearest index when some distance is below 99999, and is otherwise unchanged. |
| Association.Associate | src/particle_filter.cpp:73-83 | same count and coordinates. Each id follows the association rule above. |
| Association.AssociateNothingPredicted | src/particle_filter.cpp:75-82 | with no predicted landmarks every observation is left as it was |
| Association.AssociateAt | src/particle_filter.cpp:74-82 | the array changes only at index k, and that observation becomes its associated form |
| Association.DataAssociation | src/particle_filter.cpp:68-84 | overwrites, in place, the array of observations with their associated forms |
| Scoring.TransformObservation | src/particle_filter.cpp:201-207 | the transformed observation has id 0 |
| Scoring.Transformed | src/particle_filter.cpp:111-115 | exactly one transformed entry per observation, in order, each with id 0 |
| Scoring.InRangeIndices | src/particle_filter.cpp:100-109 | strictly increasing positions. A position is listed iff its landmark is strictly closer than `sensor_range`. |
| Scoring.PredictedLandmarks | src/particle_filter.cpp:100-109 | at most one entry per map landmark, and every entry is the prediction form of some landmark in range |
| Scoring.PredictedLandmarksSelect | src/particle_filter.cpp:100-109 | `predicted` is exactly the in-range landmarks in map order, each with its own id and coordinates |
| Scoring.BuildPredicted | src/particle_filter.cpp:99-109 | the loop builds exactly that `predicted` list |
| Scoring.BuildTransformed | src/particle_filter.cpp:111-115 | the loop builds a fresh array holding the transformed observations |
| Scoring.Likelihood | src/particle_filter.cpp:209-215 | with positive deviations, a positive pi and a non-negative `exp`, the Gaussian density is never negative |
| Scoring.ExponentEven | src/particle_filter.cpp:211-212 | an exponent term depends on the offset only through its square: negating the offset keeps it |
| Scoring.LikelihoodSymmetric | src/particle_filter.cpp:209-215 | exchanging the positions of the observation and the landmark leaves the density unchanged |
| Scoring.Product | src/particle_filter.cpp:119-123 | with a density that is never negative, the product of likelihoods is never negative |
| Scoring.WeightOf | src/particle_filter.cpp:117-124 | a weight exists iff every associated id indexes `predicted`. With no associated observations it is 1. |
| Scoring.ParticleWeight | src/particle_filter.cpp:99-124 | when the new weight exists and the density is never negative, the weight is never negative |
| Scoring.MultiplyLikelihoods | src/particle_filter.cpp:119-123 | the running product from 1 over the associated observations of the likelihood against `predicted[obs.id]`. It gives `None` when a lookup is out of range. |
| Scoring.NoObservationsWeightOne | src/particle_filter.cpp:119-124 | with no observations the weight is 1 |
| Scoring.LookupFailsIffNothingInRange | src/particle_filter.cpp:117-122 | a lookup `predicted[obs.id]` goes out of range iff there are observations and no landmark is in range |
| Scoring.ScoreParticle | src/particle_filter.cpp:99-124 | the per-particle body computes exactly `ParticleWeight` |
| Filter.ParticleFilter.UpdateWeights | src/particle_filter.cpp:98-125 | count kept and only weights change. `ok` holds iff every particle's lookups are in range, and then each weight is that particle's `ParticleWeight`. |
| Resampling.Resampled | src/particle_filter.cpp:141-145 | one particle per draw, each a copy of some old particle |
| Resampling.ResampleConcentrates | src/particle_filter.cpp:132-145 | if draws pick only positive-weight particles and only one has positive weight, the new population is all copies of it |
| Filter.ParticleFilter.Resample | src/particle_filter.cpp:128-146 | the population becomes the k-th drawn particle for each k. The size is kept. |
| Diagnostics.SetAssociations | src/particle_filter.cpp:148-165 | the three lists are replaced and id, pose and weight are kept. The argument is a value and is not changed. |
| Diagnostics.SetAssociationsOverwrites | src/particle_filter.cpp:155-162 | setting twice keeps only the second lists |
| Diagnostics.GetAssociations | src/particle_filter.cpp:167-175 | empty iff there are no associations. Otherwise it neither starts nor ends with a space. |
| Diagnostics.DecimalString | src/particle_filter.cpp:171 | an id is written as at least one character and never as a space |
| Diagnostics.Streamed | src/particle_filter.cpp:171-172 | the stream text is empty iff there are no ids. Otherwise it ends with a space. |
| Diagnostics.DropLast | src/particle_filter.cpp:173 | removes exactly the last character. The empty string stays empty. |
| Diagnostics.JoinMatchesStream | src/particle_filter.cpp:170-172 | the stream holds the space-joined ids plus one trailing space |
| Diagnostics.GetAssociationsIsJoin | src/particle_filter.cpp:167-175 | the result is the ids' decimal forms joined by single spaces, with no trailing separator |
| Diagnostics.DecimalRoundTrip | src/particle_filter.cpp:171 | reading back an int as the stream writes it gives that int |
| Diagnostics.AssociationsRoundTrip | src/particle_filter.cpp:167-175 | splitting the result on spaces and reading each field gives back the association list |

## Left out

- Floating point: `sqrt`, `sin`, `cos`, `exp` and `M_PI` have no values here, and IEEE rounding, underflow and NaN are not modelled. Closed-form facts are out of reach: the transform round trip, the quarter-turn arc and the Gaussian peak value.
- Random sources: `normal_distribution` and `discrete_distribution` are replaced by supplied draws. The pose and standard deviations passed to `init`, and `std_pos` of `prediction`, only configure those distributions, so they are not parameters of the model. Which values get drawn is not modelled.
- Filter.ParticleFilter.Resample: the `weights` vector only feeds the distribution and is not built. The only thing assumed of the draws is that each index is in range.
- Filter.ParticleFilter.UpdateWeights: when `predicted[obs.id]` would be out of range, the C++ code has undefined behaviour. The model returns `ok == false` and stops at that particle. Earlier particles keep their new weights.
- `getSenseX` and `getSenseY` (src/particle_filter.cpp:176-193): they format doubles as `float` text through the library, which is not modelled.
- `particle_filter.h` is not part of this model. The constructor assumes an empty, uninitialized filter. Only the map fields `id_i`, `x_f` and `y_f` are modelled, as `MapLandmark`.
- Integer widths: ids and associations are unbounded `int`, so 32-bit overflow is not modelled. No reachable count comes near it.

## Behaviour of the code worth knowing

The model keeps these behaviours of `src/particle_filter.cpp`:

- `init` does not reject negative standard deviations.
- `init` appends rather than resets, so a second call leaves 20 particles while `numParticles` is 10.
- The straight-line branch of `prediction` adds no noise.
- Observations with no landmark in range lead to an out-of-range lookup. The code has no defined fallback for this.
- `resample` copies particles together with their ids, so ids may repeat after resampling.
