/**
 * The checkers man (systems/checkers/man.js).
 *
 * `Man` extends the base unit and adds nothing to its fields, so a man is a
 * tagged wrapper around a `Units.Unit`. Its move rule rejects a destination
 * that shares a row or a column with the man; it does NOT check that the move
 * is a true diagonal (|dx| = |dy|), and the model keeps that rule as written.
 */
module CheckersMan {
  import opened Types
  import Errors
  import Units

  datatype Man = Man(unit: Units.Unit)

  /** The message the rule system throws for a non-diagonal move. */
  const NotDiagonal: string := "Invalid move: man must move diagonally"

  /** `new Man(x, y, z)`: built through the base constructor. */
  function NewMan(x: int, y: int, z: int): (m: Man)
    ensures m.unit.x == x && m.unit.y == y && m.unit.z == z
    ensures m.unit.game == None
  {
    Man(Units.NewUnit(x, y, z))
  }

  /**
   * `Man.prototype.move`: runs the base move, then throws a `WargamesError` when the
   * destination has the man's x or the man's y. The man itself is never changed.
   */
  function Move(m: Man, x: int, y: int, z: int): (r: Result<Man, Errors.Error>)
    ensures r.Failure? <==> (x == m.unit.x || y == m.unit.y)
    ensures r.Failure? ==> r.error == Errors.NewWargamesError(Some(NotDiagonal))
    ensures r.Failure? ==> Errors.InstanceOf(r.error, Errors.WargamesErrorPrototype)
    ensures r.Success? ==> r.value == m
  {
    match Units.Move(m.unit, x, y, z)
    case Failure(e) => Failure(e)
    case Success(u) =>
      if x == u.x || y == u.y then Failure(Errors.NewWargamesError(Some(NotDiagonal)))
      else Success(Man(u))
  }

  /** The z coordinate of the destination plays no part in the decision. */
  lemma MoveIgnoresZ(m: Man, x: int, y: int, z1: int, z2: int)
    ensures Move(m, x, y, z1) == Move(m, x, y, z2)
  {
  }

  /** A destination two columns and one row away is accepted although it is not diagonal. */
  lemma MoveAcceptsKnightStep()
    ensures Move(NewMan(0, 0, 0), 2, 1, 0) == Success(NewMan(0, 0, 0))
  {
  }
}
