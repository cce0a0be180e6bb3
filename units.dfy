/**
 * The base unit of the wargames framework (lib/systems/wargames/unit.js).
 *
 * A unit is a value: its constructor assigns position and owning game, and no
 * method changes a field afterwards, so a move leaves the unit as it was and
 * the result of a move is either that same unit or a rule violation.
 */
module Units {
  import opened Types
  import Errors

  /** A unit positioned at (x, y, z); `game` is the game it belongs to, `null` until assigned. */
  datatype Unit = Unit(x: int, y: int, z: int, game: Option<string>)

  /** `new WargamesUnit(x, y, z)`: stores the coordinates exactly as given, with no game. */
  function NewUnit(x: int, y: int, z: int): (u: Unit)
    ensures u.x == x && u.y == y && u.z == z
    ensures u.game == None
  {
    Unit(x, y, z, None)
  }

  /** `WargamesUnit.prototype.move`: accepts every destination and changes no field. */
  function Move(u: Unit, x: int, y: int, z: int): (r: Result<Unit, Errors.Error>)
    ensures r.Success? && r.value == u
  {
    Success(u)
  }
}
