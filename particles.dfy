/** Values shared by every step of the particle filter. */
module Particles {

  datatype Option<T> = None | Some(value: T)

  /** A point observation or a predicted landmark sighting (`LandmarkObs`). */
  datatype LandmarkObs = LandmarkObs(id: int, x: real, y: real)

  /** One landmark of the map (`id_i`, `x_f`, `y_f` of a map entry). */
  datatype MapLandmark = MapLandmark(id: int, x: real, y: real)

  /** One pose hypothesis with its importance weight and diagnostic lists. */
  datatype Particle = Particle(
    id: int,
    x: real,
    y: real,
    theta: real,
    weight: real,
    associations: seq<int>,
    senseX: seq<real>,
    senseY: seq<real>)

  /**
   * The floating-point primitives the filter uses, left abstract: every
   * property of this model holds whatever values they return.
   * `divByZero(a)` is the IEEE result (an infinity or NaN) of `a / 0`.
   */
  datatype Numerics = Numerics(
    sin: real -> real,
    cos: real -> real,
    sqrt: real -> real,
    exp: real -> real,
    pi: real,
    divByZero: real -> real)
}
