/** The selection step of `resample`, for given drawn indices. */
module Resampling {
  import opened Particles

  /** Every drawn index names a particle of `ps`. */
  predicate ValidDraws(ps: seq<Particle>, indices: seq<int>)
  {
    forall k :: 0 <= k < |indices| ==> 0 <= indices[k] < |ps|
  }

  /** The population built from the drawn indices, the k-th a copy of `ps[indices[k]]`. */
  function Resampled(ps: seq<Particle>, indices: seq<int>): (r: seq<Particle>)
    requires ValidDraws(ps, indices)
    ensures |r| == |indices|
    ensures forall q :: q in r ==> q in ps
  {
    seq(|indices|, k requires 0 <= k < |indices| => ps[indices[k]])
  }

  /**
   * When the draws only select particles of positive weight and particle `j`
   * is the only one with positive weight, every new particle is a copy of it.
   * This follows from what `discrete_distribution` is taken to guarantee (no
   * zero-weight index is drawn), not from the selection step itself.
   */
  lemma ResampleConcentrates(ps: seq<Particle>, indices: seq<int>, j: int)
    requires ValidDraws(ps, indices)
    requires 0 <= j < |ps|
    requires forall i :: 0 <= i < |ps| && i != j ==> ps[i].weight == 0.0
    requires forall k :: 0 <= k < |indices| ==> 0.0 < ps[indices[k]].weight
    ensures forall q :: q in Resampled(ps, indices) ==> q == ps[j]
  {
    var r := Resampled(ps, indices);
    forall q | q in r ensures q == ps[j] {
      var k :| 0 <= k < |r| && r[k] == q;
      assert indices[k] == j;
    }
  }
}
