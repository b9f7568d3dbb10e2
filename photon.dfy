/** A photon's random-walk state: position, direction, weight, alive flag and the
    append-only path of positions it has visited (BioMonteCarlo/photon.py). */
module Photons {

  /** A 3-D point or vector (the source's numpy arrays of length 3). */
  datatype Vec3 = Vec3(x: real, y: real, z: real)

  function Add(a: Vec3, b: Vec3): Vec3
  {
    Vec3(a.x + b.x, a.y + b.y, a.z + b.z)
  }

  function Scale(a: Vec3, s: real): Vec3
  {
    Vec3(a.x * s, a.y * s, a.z * s)
  }

  /** The last point of a path: where the photon currently is. */
  function Last(path: seq<Vec3>): Vec3
    requires |path| > 0
  {
    path[|path| - 1]
  }

  /** The dataclass default for position: (0, 0, 1), not the origin. */
  const DefaultPosition: Vec3 := Vec3(0.0, 0.0, 1.0)

  /** The dataclass default for direction: along +z. */
  const DefaultDirection: Vec3 := Vec3(0.0, 0.0, 1.0)

  /** The default threshold of check_weight. */
  const DefaultThreshold: real := 0.001

  /** A move along the default direction changes the depth by the step and
      leaves x and y alone. */
  lemma MoveAlongDefault(p: Vec3, step: real)
    ensures Add(p, Scale(DefaultDirection, step)) == Vec3(p.x, p.y, p.z + step)
  {
  }

  class Photon {
    var position: Vec3
    var direction: Vec3
    var path: seq<Vec3>
    var weight: real
    var alive: bool

    ghost predicate Valid()
      reads this
    {
      |path| > 0
    }

    /** The photon's current position: the last point of its path. */
    function Current(): Vec3
      reads this
      requires Valid()
    {
      Last(path)
    }

    /** The dataclass constructor followed by __post_init__. */
    constructor (position: Vec3 := DefaultPosition, direction: Vec3 := DefaultDirection)
      ensures Valid()
      ensures this.position == position && this.direction == direction
      ensures path == [position] && weight == 1.0 && alive
    {
      this.position := position;
      this.direction := direction;
      path := [position];
      weight := 1.0;
      alive := true;
    }

    /** move: append current position + direction * step to the path. */
    method Move(stepSize: real)
      requires Valid()
      modifies this`path
      ensures Valid()
      ensures path == old(path) + [Add(old(Current()), Scale(direction, stepSize))]
      ensures Current() == Add(old(Current()), Scale(direction, stepSize))
    {
      var newPosition := Add(Last(path), Scale(direction, stepSize));
      path := path + [newPosition];
    }

    /** check_weight: a photon lighter than the threshold dies; none is revived. */
    method CheckWeight(threshold: real := DefaultThreshold)
      modifies this`alive
      ensures alive == (old(alive) && !(weight < threshold))
    {
      if weight < threshold {
        alive := false;
      }
    }
  }
}
