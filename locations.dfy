/** Values shared by the location queue and the teleport handler. */
module Locations {

  type WorldName = string
  type PlayerId = nat

  datatype Option<T> = None | Some(value: T)

  /**
   * A candidate location (RandomLocation). Coordinates are only ever compared,
   * never computed with; `offsets` counts how many times the stand-point offset
   * (0.5, 1.5, 0.5) has been added to it, which keeps that offset symbolic.
   */
  datatype Location = Location(world: WorldName, x: real, y: real, z: real, offsets: nat)

  /** A player's live position, as read by the movement watcher. */
  datatype Position = Position(x: real, y: real, z: real)

  /** `location.add(0.5, 1.5, 0.5)`: same world and base point, one more stand-point offset. */
  function StandPoint(loc: Location): (r: Location)
    ensures r.world == loc.world && r.offsets == loc.offsets + 1
    ensures r.x == loc.x && r.y == loc.y && r.z == loc.z
    ensures r != loc
  {
    loc.(offsets := loc.offsets + 1)
  }

  /** Java's Math.min on int. */
  function Min(a: int, b: int): int
  {
    if a <= b then a else b
  }

  function Max(a: int, b: int): int
  {
    if a >= b then a else b
  }
}
