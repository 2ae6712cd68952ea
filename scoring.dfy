/** Per-particle scoring of `updateWeights`: range filter, transform, association, product. */
module Scoring {
  import opened Particles
  import opened Association

  /**
   * `transformObservation`: rotates a vehicle-frame observation by the
   * particle's heading and translates it by the particle's position.
   */
  function TransformObservation(num: Numerics, obs: LandmarkObs, p: Particle): (r: LandmarkObs)
    ensures r.id == 0
  {
    LandmarkObs(0,
      p.x + num.cos(p.theta) * obs.x - num.sin(p.theta) * obs.y,
      p.y + num.sin(p.theta) * obs.x + num.cos(p.theta) * obs.y)
  }

  /** The observations in map frame, one per observation, in order. */
  function Transformed(num: Numerics, p: Particle, observations: seq<LandmarkObs>): (r: seq<LandmarkObs>)
    ensures |r| == |observations|
    ensures forall k :: 0 <= k < |r| ==> r[k].id == 0
  {
    seq(|observations|, k requires 0 <= k < |observations| => TransformObservation(num, observations[k], p))
  }

  /** Landmark `l` lies strictly within `sensorRange` of the particle. */
  predicate InRange(num: Numerics, p: Particle, l: MapLandmark, sensorRange: real)
  {
    CalculateDist(num, p.x, p.y, l.x, l.y) < sensorRange
  }

  /** A map landmark as a predicted sighting. */
  function AsPrediction(l: MapLandmark): LandmarkObs
  {
    LandmarkObs(l.id, l.x, l.y)
  }

  /** The positions, in map order, of the landmarks within range. */
  function InRangeIndices(num: Numerics, p: Particle, landmarks: seq<MapLandmark>, sensorRange: real)
    : (r: seq<nat>)
    ensures forall k :: 0 <= k < |r| ==> r[k] < |landmarks| && InRange(num, p, landmarks[r[k]], sensorRange)
    ensures forall k, k' :: 0 <= k < k' < |r| ==> r[k] < r[k']
    ensures forall i :: 0 <= i < |landmarks| && InRange(num, p, landmarks[i], sensorRange) ==> i in r
    decreases |landmarks|
  {
    if |landmarks| == 0 then []
    else
      var n := |landmarks| - 1;
      InRangeIndices(num, p, landmarks[..n], sensorRange) +
        (if InRange(num, p, landmarks[n], sensorRange) then [n] else [])
  }

  /** The `predicted` list that `updateWeights` builds for particle `p`. */
  function PredictedLandmarks(num: Numerics, p: Particle, landmarks: seq<MapLandmark>, sensorRange: real)
    : (r: seq<LandmarkObs>)
    ensures |r| <= |landmarks|
    ensures forall q :: q in r ==>
              exists l :: l in landmarks && InRange(num, p, l, sensorRange) && q == AsPrediction(l)
    decreases |landmarks|
  {
    if |landmarks| == 0 then []
    else
      var n := |landmarks| - 1;
      PredictedLandmarks(num, p, landmarks[..n], sensorRange) +
        (if InRange(num, p, landmarks[n], sensorRange) then [AsPrediction(landmarks[n])] else [])
  }

  /**
   * The predicted list holds exactly the in-range landmarks, in map order,
   * each with its own id and coordinates.
   */
  lemma {:induction false} PredictedLandmarksSelect(num: Numerics, p: Particle, landmarks: seq<MapLandmark>,
                                                     sensorRange: real)
    ensures |PredictedLandmarks(num, p, landmarks, sensorRange)| == |InRangeIndices(num, p, landmarks, sensorRange)|
    ensures forall k :: 0 <= k < |InRangeIndices(num, p, landmarks, sensorRange)| ==>
      PredictedLandmarks(num, p, landmarks, sensorRange)[k] ==
        AsPrediction(landmarks[InRangeIndices(num, p, landmarks, sensorRange)[k]])
    decreases |landmarks|
  {
    if |landmarks| > 0 {
      var n := |landmarks| - 1;
      var front := landmarks[..n];
      PredictedLandmarksSelect(num, p, front, sensorRange);
      var ifront := InRangeIndices(num, p, front, sensorRange);
      forall k | 0 <= k < |ifront| ensures landmarks[ifront[k]] == front[ifront[k]] {
      }
    }
  }

  /** Floating-point division: `a / b`, and the IEEE infinity or NaN when `b` is zero. */
  function Divide(num: Numerics, a: real, b: real): real
  {
    if b != 0.0 then a / b else num.divByZero(a)
  }

  /** One term of the Gaussian exponent: `d * d / (2 std * std)`, for offset `d`. */
  function Exponent(num: Numerics, d: real, std: real): real
  {
    Divide(num, d * d, 2.0 * std * std)
  }

  /** A sensor configuration for which the density is never negative. */
  ghost predicate PositiveConfig(num: Numerics, stdX: real, stdY: real)
  {
    (forall t :: 0.0 <= num.exp(t)) && 0.0 < num.pi && 0.0 < stdX && 0.0 < stdY
  }

  /**
   * `calculateProbability`: the bivariate Gaussian density of observation `o`
   * about landmark `l`, over abstract `exp` and pi. With positive deviations
   * and a non-negative `exp` it is never negative.
   */
  function Likelihood(num: Numerics, o: LandmarkObs, l: LandmarkObs, stdX: real, stdY: real): (r: real)
    ensures PositiveConfig(num, stdX, stdY) ==> 0.0 <= r
  {
    var denominator := 2.0 * num.pi * stdX * stdY;
    assert PositiveConfig(num, stdX, stdY) ==> 0.0 < denominator by {
      if PositiveConfig(num, stdX, stdY) {
        assert 0.0 < 2.0 * num.pi;
        assert 0.0 < 2.0 * num.pi * stdX;
      }
    }
    Divide(num, num.exp(-Exponent(num, o.x - l.x, stdX) - Exponent(num, o.y - l.y, stdY)), denominator)
  }

  /** The exponent depends on the offset only through its square. */
  lemma ExponentEven(num: Numerics, d: real, std: real)
    ensures Exponent(num, -d, std) == Exponent(num, d, std)
  {
    assert (-d) * (-d) == d * d;
  }

  /**
   * The density is symmetric: exchanging the positions of the observation and
   * the landmark leaves it unchanged.
   */
  lemma LikelihoodSymmetric(num: Numerics, o: LandmarkObs, l: LandmarkObs, stdX: real, stdY: real)
    ensures Likelihood(num, o, l, stdX, stdY) ==
            Likelihood(num, o.(x := l.x, y := l.y), l.(x := o.x, y := o.y), stdX, stdY)
  {
    ExponentEven(num, o.x - l.x, stdX);
    ExponentEven(num, o.y - l.y, stdY);
  }

  /** Every associated id indexes `predicted`, so each lookup `predicted[obs.id]` is defined. */
  predicate LookupsInRange(predicted: seq<LandmarkObs>, associated: seq<LandmarkObs>)
  {
    forall k :: 0 <= k < |associated| ==> 0 <= associated[k].id < |predicted|
  }

  /** The running product of likelihoods of `updateWeights`, in observation order. */
  function Product(num: Numerics, stdX: real, stdY: real, predicted: seq<LandmarkObs>,
                   associated: seq<LandmarkObs>): (r: real)
    requires LookupsInRange(predicted, associated)
    ensures PositiveConfig(num, stdX, stdY) ==> 0.0 <= r
    decreases |associated|
  {
    if |associated| == 0 then 1.0
    else
      var n := |associated| - 1;
      var o := associated[n];
      var front := Product(num, stdX, stdY, predicted, associated[..n]);
      var q := Likelihood(num, o, predicted[o.id], stdX, stdY);
      front * q
  }

  /**
   * The weight the product gives, or `None` when some lookup `predicted[obs.id]`
   * (which the C++ code performs unchecked) would be out of range.
   */
  function WeightOf(num: Numerics, stdX: real, stdY: real, predicted: seq<LandmarkObs>,
                    associated: seq<LandmarkObs>): (r: Option<real>)
    ensures r.Some? <==> forall k :: 0 <= k < |associated| ==> 0 <= associated[k].id < |predicted|
    ensures associated == [] ==> r == Some(1.0)
  {
    if LookupsInRange(predicted, associated) then Some(Product(num, stdX, stdY, predicted, associated))
    else None
  }

  /** The new weight of particle `p`, or `None` where the C++ code would index out of range. */
  function ParticleWeight(num: Numerics, sensorRange: real, stdX: real, stdY: real,
                          observations: seq<LandmarkObs>, landmarks: seq<MapLandmark>, p: Particle)
    : (r: Option<real>)
    ensures r.Some? && PositiveConfig(num, stdX, stdY) ==> 0.0 <= r.value
  {
    var predicted := PredictedLandmarks(num, p, landmarks, sensorRange);
    WeightOf(num, stdX, stdY, predicted, Associate(num, predicted, Transformed(num, p, observations)))
  }

  /** With no observations the weight is the empty product, 1. */
  lemma NoObservationsWeightOne(num: Numerics, sensorRange: real, stdX: real, stdY: real,
                               landmarks: seq<MapLandmark>, p: Particle)
    ensures ParticleWeight(num, sensorRange, stdX, stdY, [], landmarks, p) == Some(1.0)
  {
  }

  /**
   * The lookup `predicted[obs.id]` goes out of range exactly when there are
   * observations and no landmark is within range.
   */
  lemma LookupFailsIffNothingInRange(num: Numerics, sensorRange: real, stdX: real, stdY: real,
                                     observations: seq<LandmarkObs>, landmarks: seq<MapLandmark>, p: Particle)
    ensures ParticleWeight(num, sensorRange, stdX, stdY, observations, landmarks, p).None? <==>
      |observations| > 0 && |PredictedLandmarks(num, p, landmarks, sensorRange)| == 0
  {
    var predicted := PredictedLandmarks(num, p, landmarks, sensorRange);
    var transformed := Transformed(num, p, observations);
    var associated := Associate(num, predicted, transformed);
    if |predicted| == 0 {
      AssociateNothingPredicted(num, transformed);
      if |observations| > 0 {
        assert associated[0].id == 0;
      }
    } else {
      forall k | 0 <= k < |associated| ensures 0 <= associated[k].id < |predicted| {
        assert AssociatedId(Distances(num, predicted, transformed[k]), 0, associated[k].id);
      }
    }
  }

  /** The range filter of `updateWeights`: the landmarks within range, as predicted sightings. */
  method BuildPredicted(num: Numerics, p: Particle, landmarks: seq<MapLandmark>, sensorRange: real)
    returns (predicted: seq<LandmarkObs>)
    ensures predicted == PredictedLandmarks(num, p, landmarks, sensorRange)
  {
    predicted := [];
    var j := 0;
    while j < |landmarks|
      invariant 0 <= j <= |landmarks|
      invariant predicted == PredictedLandmarks(num, p, landmarks[..j], sensorRange)
    {
      var landmark := landmarks[j];
      var dist := CalculateDist(num, p.x, p.y, landmark.x, landmark.y);
      assert landmarks[..j + 1][..j] == landmarks[..j];
      if dist < sensorRange {
        predicted := predicted + [LandmarkObs(landmark.id, landmark.x, landmark.y)];
      }
      j := j + 1;
    }
    assert landmarks[..j] == landmarks;
  }

  /** The transform step of `updateWeights`: every observation moved into the map frame. */
  method BuildTransformed(num: Numerics, p: Particle, observations: seq<LandmarkObs>)
    returns (transformed: array<LandmarkObs>)
    ensures fresh(transformed)
    ensures transformed[..] == Transformed(num, p, observations)
  {
    transformed := new LandmarkObs[|observations|];
    var j := 0;
    while j < |observations|
      invariant 0 <= j <= |observations|
      invariant transformed[..j] == Transformed(num, p, observations)[..j]
    {
      transformed[j] := TransformObservation(num, observations[j], p);
      j := j + 1;
    }
  }

  /**
   * The weight step of `updateWeights`: the running product of likelihoods,
   * stopping with `None` where `predicted[obs.id]` would be out of range.
   */
  method MultiplyLikelihoods(num: Numerics, stdX: real, stdY: real, predicted: seq<LandmarkObs>,
                             associated: seq<LandmarkObs>) returns (w: Option<real>)
    ensures w == WeightOf(num, stdX, stdY, predicted, associated)
  {
    var weight := 1.0;
    var j := 0;
    while j < |associated|
      invariant 0 <= j <= |associated|
      invariant LookupsInRange(predicted, associated[..j])
      invariant Product(num, stdX, stdY, predicted, associated[..j]) == weight
    {
      var obs := associated[j];
      if !(0 <= obs.id < |predicted|) {
        return None;
      }
      assert associated[..j + 1][..j] == associated[..j];
      weight := weight * Likelihood(num, obs, predicted[obs.id], stdX, stdY);
      j := j + 1;
    }
    assert associated[..j] == associated;
    w := Some(weight);
  }

  /** The body of the per-particle loop of `updateWeights`: the new weight of one particle. */
  method ScoreParticle(num: Numerics, sensorRange: real, stdX: real, stdY: real,
                       observations: seq<LandmarkObs>, landmarks: seq<MapLandmark>, p: Particle)
    returns (w: Option<real>)
    ensures w == ParticleWeight(num, sensorRange, stdX, stdY, observations, landmarks, p)
  {
    var predicted := BuildPredicted(num, p, landmarks, sensorRange);
    var transformed := BuildTransformed(num, p, observations);
    DataAssociation(num, predicted, transformed);
    w := MultiplyLikelihoods(num, stdX, stdY, predicted, transformed[..]);
  }
}
