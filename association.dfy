/** Nearest-neighbour association of observations to predicted landmarks. */
module Association {
  import opened Particles

  /** The starting value of `nearest`: no distance at or above it is ever taken. */
  const Sentinel: real := 99999.0

  /** `calculateDist`: Euclidean distance, over an abstract square root. */
  function CalculateDist(num: Numerics, x1: real, y1: real, x2: real, y2: real): (d: real)
    ensures x1 == x2 && y1 == y2 ==> d == num.sqrt(0.0)
  {
    var dx := x2 - x1;
    var dy := y2 - y1;
    num.sqrt(dx * dx + dy * dy)
  }

  /** The distance is the same whichever point is taken first (no caller relies on it). */
  lemma DistSymmetric(num: Numerics, x1: real, y1: real, x2: real, y2: real)
    ensures CalculateDist(num, x1, y1, x2, y2) == CalculateDist(num, x2, y2, x1, y1)
  {
    assert (x2 - x1) * (x2 - x1) == (x1 - x2) * (x1 - x2);
    assert (y2 - y1) * (y2 - y1) == (y1 - y2) * (y1 - y2);
  }

  /** Distance from observation `o` to each predicted landmark, in order. */
  function Distances(num: Numerics, predicted: seq<LandmarkObs>, o: LandmarkObs): seq<real>
  {
    seq(|predicted|, i requires 0 <= i < |predicted| =>
      CalculateDist(num, o.x, o.y, predicted[i].x, predicted[i].y))
  }

  /** `k` is the first index at which `d` takes its minimum value. */
  ghost predicate IsFirstMinimum(d: seq<real>, k: int)
  {
    0 <= k < |d| &&
    (forall j :: 0 <= j < k ==> d[k] < d[j]) &&
    (forall j :: k <= j < |d| ==> d[k] <= d[j])
  }

  /** Some distance lies strictly below the sentinel. */
  ghost predicate AnyBelowSentinel(d: seq<real>)
  {
    exists j :: 0 <= j < |d| && d[j] < Sentinel
  }

  /**
   * The id an observation whose previous id is `prev` should carry after
   * association: the first nearest index when some distance is below the
   * sentinel, and `prev` otherwise.
   */
  ghost predicate AssociatedId(d: seq<real>, prev: int, id: int)
  {
    if AnyBelowSentinel(d) then IsFirstMinimum(d, id) else id == prev
  }

  /**
   * The state `(nearest, id)` of the inner association loop after it has
   * looked at the distances `d`, starting from `(Sentinel, prev)`.
   */
  function NearestScan(d: seq<real>, prev: int): (r: (real, int))
    ensures r.0 <= Sentinel
    ensures r.0 < Sentinel <==> AnyBelowSentinel(d)
    ensures r.0 < Sentinel ==> IsFirstMinimum(d, r.1) && d[r.1] == r.0
    ensures r.0 == Sentinel ==> r.1 == prev
    decreases |d|
  {
    if |d| == 0 then (Sentinel, prev)
    else
      var s := NearestScan(d[..|d| - 1], prev);
      if d[|d| - 1] < s.0 then (d[|d| - 1], |d| - 1) else s
  }

  /** Of two equally near minimal landmarks, the later one is never chosen. */
  lemma TieBreakFavoursLowerIndex(d: seq<real>, prev: int, i: int, j: int)
    requires 0 <= i < j < |d| && d[i] == d[j] < Sentinel
    requires forall k :: 0 <= k < |d| ==> d[i] <= d[k]
    ensures NearestScan(d, prev).1 <= i
  {
  }

  /** Observation `o` with its id replaced by its associated index. */
  function AssociateOne(num: Numerics, predicted: seq<LandmarkObs>, o: LandmarkObs): (r: LandmarkObs)
    ensures r.x == o.x && r.y == o.y
    ensures AssociatedId(Distances(num, predicted, o), o.id, r.id)
  {
    o.(id := NearestScan(Distances(num, predicted, o), o.id).1)
  }

  /** Every observation with its id replaced by its associated index. */
  function Associate(num: Numerics, predicted: seq<LandmarkObs>, observations: seq<LandmarkObs>)
    : (r: seq<LandmarkObs>)
    ensures |r| == |observations|
    ensures forall k :: 0 <= k < |r| ==>
      r[k].x == observations[k].x && r[k].y == observations[k].y &&
      AssociatedId(Distances(num, predicted, observations[k]), observations[k].id, r[k].id)
  {
    seq(|observations|, k requires 0 <= k < |observations| => AssociateOne(num, predicted, observations[k]))
  }

  /** With nothing predicted, association leaves every observation as it was. */
  lemma AssociateNothingPredicted(num: Numerics, observations: seq<LandmarkObs>)
    ensures Associate(num, [], observations) == observations
  {
    var r := Associate(num, [], observations);
    forall k | 0 <= k < |r| ensures r[k] == observations[k] {
      assert !AnyBelowSentinel(Distances(num, [], observations[k]));
    }
  }

  /**
   * The inner loop of `dataAssociation` for the observation at index `k`:
   * scans the predicted landmarks and overwrites that observation's id, in
   * place, whenever a strictly nearer one is found.
   */
  method AssociateAt(num: Numerics, predicted: seq<LandmarkObs>, observations: array<LandmarkObs>, k: nat)
    requires k < observations.Length
    modifies observations
    ensures observations[..] == old(observations[..])[k := AssociateOne(num, predicted, old(observations[k]))]
  {
    ghost var o := observations[k];
    ghost var d := Distances(num, predicted, o);
    var nearest := Sentinel;
    var i := 0;
    while i < |predicted|
      invariant 0 <= i <= |predicted|
      invariant forall m :: 0 <= m < observations.Length && m != k ==> observations[m] == old(observations[m])
      invariant observations[k] == o.(id := observations[k].id)
      invariant (nearest, observations[k].id) == NearestScan(d[..i], o.id)
    {
      var pred := predicted[i];
      var dist := CalculateDist(num, observations[k].x, observations[k].y, pred.x, pred.y);
      assert d[..i + 1][..i] == d[..i];
      if dist < nearest {
        nearest := dist;
        observations[k] := observations[k].(id := i);
      }
      i := i + 1;
    }
    assert d[..i] == d;
    assert observations[k] == AssociateOne(num, predicted, o);
  }

  /**
   * `dataAssociation`: overwrites the id of each observation, in place, with
   * the index of its nearest predicted landmark.
   */
  method DataAssociation(num: Numerics, predicted: seq<LandmarkObs>, observations: array<LandmarkObs>)
    modifies observations
    ensures observations[..] == Associate(num, predicted, old(observations[..]))
  {
    ghost var before := observations[..];
    var k := 0;
    while k < observations.Length
      invariant 0 <= k <= observations.Length
      invariant forall m :: 0 <= m < k ==> observations[m] == AssociateOne(num, predicted, before[m])
      invariant forall m :: k <= m < observations.Length ==> observations[m] == before[m]
    {
      AssociateAt(num, predicted, observations, k);
      k := k + 1;
    }
    assert observations[..] == Associate(num, predicted, before);
  }
}
