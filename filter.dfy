/** The `ParticleFilter` object: its population and the four steps that update it. */
module Filter {
  import opened Particles
  import opened Motion
  import opened Scoring
  import opened Resampling

  /** `num_particles` as `init` sets it. */
  const InitialCount: nat := 10

  /** The particle `init` creates from the draws for position `i`. */
  function Seeded(draws: seq<real>, i: nat): (p: Particle)
    requires 3 * i + 2 < |draws|
    ensures p.id == i && p.weight == 1.0
    ensures p.associations == [] && p.senseX == [] && p.senseY == []
    ensures [p.x, p.y, p.theta] == draws[3 * i .. 3 * i + 3]
  {
    Particle(i, draws[3 * i], draws[3 * i + 1], draws[3 * i + 2], 1.0, [], [], [])
  }

  class ParticleFilter {
    var numParticles: int
    var isInitialized: bool
    var particles: seq<Particle>

    /** A filter with no particles that has not been initialized. */
    constructor ()
      ensures numParticles == 0 && !isInitialized && particles == []
    {
      numParticles := 0;
      isInitialized := false;
      particles := [];
    }

    /**
     * `init`: appends `InitialCount` particles with ids 0, 1, ... and weight 1.
     * `draws` holds the sampled x, y and theta of each new particle in the
     * order the generator produces them.
     */
    method Init(draws: seq<real>)
      requires |draws| == 3 * InitialCount
      modifies this
      ensures numParticles == InitialCount && isInitialized
      ensures |particles| == |old(particles)| + InitialCount
      ensures particles[..|old(particles)|] == old(particles)
      ensures forall i :: 0 <= i < InitialCount ==> particles[|old(particles)| + i] == Seeded(draws, i)
      ensures old(particles) == [] ==> |particles| == numParticles
    {
      numParticles := InitialCount;
      ghost var before := particles;
      var i := 0;
      while i < numParticles
        invariant 0 <= i <= numParticles == InitialCount
        invariant |particles| == |before| + i
        invariant particles[..|before|] == before
        invariant forall k :: 0 <= k < i ==> particles[|before| + k] == Seeded(draws, k)
      {
        var p := Particle(i, draws[3 * i], draws[3 * i + 1], draws[3 * i + 2], 1.0, [], [], []);
        particles := particles + [p];
        i := i + 1;
      }
      isInitialized := true;
    }

    /**
     * `prediction`: moves every particle. With `yawRate == 0` no noise draw is
     * used; otherwise particle k uses `noise[3k]`, `noise[3k+1]`, `noise[3k+2]`
     * for x, y and theta, and `consumed` draws are used in all.
     */
    method Prediction(num: Numerics, dt: real, velocity: real, yawRate: real, noise: seq<real>)
      returns (consumed: nat)
      requires yawRate != 0.0 ==> |noise| >= 3 * |particles|
      modifies this`particles
      ensures consumed == if yawRate == 0.0 then 0 else 3 * |old(particles)|
      ensures |particles| == |old(particles)|
      ensures yawRate == 0.0 ==> forall k :: 0 <= k < |particles| ==>
        particles[k] == MoveStraight(num, old(particles)[k], dt, velocity)
      ensures yawRate != 0.0 ==> forall k :: 0 <= k < |particles| ==>
        particles[k] == MoveTurning(num, old(particles)[k], dt, velocity, yawRate,
                                    noise[3 * k], noise[3 * k + 1], noise[3 * k + 2])
    {
      consumed := 0;
      var i := 0;
      while i < |particles|
        invariant 0 <= i <= |particles| == |old(particles)|
        invariant consumed == if yawRate == 0.0 then 0 else 3 * i
        invariant forall k :: i <= k < |particles| ==> particles[k] == old(particles)[k]
        invariant yawRate == 0.0 ==> forall k :: 0 <= k < i ==>
          particles[k] == MoveStraight(num, old(particles)[k], dt, velocity)
        invariant yawRate != 0.0 ==> forall k :: 0 <= k < i ==>
          particles[k] == MoveTurning(num, old(particles)[k], dt, velocity, yawRate,
                                      noise[3 * k], noise[3 * k + 1], noise[3 * k + 2])
      {
        var p := particles[i];
        if yawRate == 0.0 {
          p := p.(x := p.x + LineDx(num, p.theta, dt, velocity));
          p := p.(y := p.y + LineDy(num, p.theta, dt, velocity));
        } else {
          p := p.(x := p.x + ArcDx(num, p.theta, dt, velocity, yawRate) + noise[consumed]);
          p := p.(y := p.y + ArcDy(num, p.theta, dt, velocity, yawRate) + noise[consumed + 1]);
          p := p.(theta := p.theta + yawRate * dt + noise[consumed + 2]);
          consumed := consumed + 3;
        }
        particles := particles[i := p];
        i := i + 1;
      }
    }

    /**
     * `updateWeights`: sets every particle's weight to its score against the
     * observations and the map. `ok` is false when a lookup `predicted[obs.id]`
     * would be out of range for some particle; the model then stops there.
     */
    method UpdateWeights(num: Numerics, sensorRange: real, stdX: real, stdY: real,
                         observations: seq<LandmarkObs>, landmarks: seq<MapLandmark>)
      returns (ok: bool)
      modifies this`particles
      ensures |particles| == |old(particles)|
      ensures forall k :: 0 <= k < |particles| ==>
        particles[k] == old(particles)[k].(weight := particles[k].weight)
      ensures ok <==> forall k :: 0 <= k < |old(particles)| ==>
        ParticleWeight(num, sensorRange, stdX, stdY, observations, landmarks, old(particles)[k]).Some?
      ensures ok ==> forall k :: 0 <= k < |particles| ==>
        ParticleWeight(num, sensorRange, stdX, stdY, observations, landmarks, old(particles)[k]) ==
          Some(particles[k].weight)
    {
      var i := 0;
      while i < |particles|
        invariant 0 <= i <= |particles| == |old(particles)|
        invariant forall k :: 0 <= k < |particles| ==>
          particles[k] == old(particles)[k].(weight := particles[k].weight)
        invariant forall k :: i <= k < |particles| ==> particles[k] == old(particles)[k]
        invariant forall k :: 0 <= k < i ==>
          ParticleWeight(num, sensorRange, stdX, stdY, observations, landmarks, old(particles)[k]) ==
            Some(particles[k].weight)
      {
        var w := ScoreParticle(num, sensorRange, stdX, stdY, observations, landmarks, particles[i]);
        if w.None? {
          return false;
        }
        particles := particles[i := particles[i].(weight := w.value)];
        i := i + 1;
      }
      ok := true;
    }

    /**
     * `resample`: replaces the population by the particles at the drawn
     * indices, one draw per particle.
     */
    method Resample(indices: seq<int>)
      requires |indices| == |particles|
      requires ValidDraws(particles, indices)
      modifies this`particles
      ensures particles == Resampled(old(particles), indices)
      ensures |particles| == |old(particles)|
    {
      var resampled: seq<Particle> := [];
      var j := 0;
      while j < |indices|
        invariant 0 <= j <= |indices|
        invariant resampled == Resampled(particles, indices)[..j]
      {
        resampled := resampled + [particles[indices[j]]];
        j := j + 1;
      }
      particles := resampled;
    }
  }
}
