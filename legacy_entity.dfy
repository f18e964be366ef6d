/**
 * The top-level abstract `Entity` of src/main/java/Entity.java, which the
 * game no longer uses: a position vector, a size and a name, and a `move`
 * that shifts the position vector in place.  No class extends it, so its
 * fields hold Java's defaults (null, 0) unless assigned from outside.
 */
module LegacyEntities {
  import opened JavaNum
  import opened Vectors
  import opened Wrappers

  /** The position after `move(dx, dy)`. */
  function Moved(v: Vec, dx: real, dy: real): (r: Vec)
    ensures r.x - v.x == dx && r.y - v.y == dy
  {
    Vec(v.x + dx, v.y + dy)
  }

  /** A move by the null vector leaves the position where it was. */
  lemma MovedByZero(v: Vec)
    ensures Moved(v, 0.0, 0.0) == v
  {
  }

  /** Two moves are one move by the summed vector, so moves commute. */
  lemma MovedTwice(v: Vec, dx1: real, dy1: real, dx2: real, dy2: real)
    ensures Moved(Moved(v, dx1, dy1), dx2, dy2) == Moved(v, dx1 + dx2, dy1 + dy2)
    ensures Moved(Moved(v, dx1, dy1), dx2, dy2) == Moved(Moved(v, dx2, dy2), dx1, dy1)
  {
  }

  /** A move is undone by the opposite move. */
  lemma MovedBack(v: Vec, dx: real, dy: real)
    ensures Moved(Moved(v, dx, dy), -dx, -dy) == v
    ensures Moved(v, dx, dy) == Plus(v, Vec(dx, dy))
  {
  }

  class LegacyEntity {
    var coordinates: Vector2D?
    var height: Int32
    var width: Int32
    /** A Java `String` reference: None is null. */
    var name: Option<string>

    /** The implicit constructor: every field keeps its default value. */
    constructor ()
      ensures coordinates == null && height == 0 && width == 0 && name == None
    {
      coordinates, height, width, name := null, 0, 0, None;
    }

    /**
     * `move(dx, dy)`: both coordinates of the position object grow in place,
     * so every holder of that vector sees the move; a null position throws
     * NullPointerException (`thrown`) before anything changes.
     */
    method Move(dx: real, dy: real) returns (thrown: bool)
      modifies coordinates
      ensures thrown <==> coordinates == null
      ensures !thrown ==> coordinates.Value() == Moved(old(coordinates.Value()), dx, dy)
    {
      if coordinates == null {
        return true;
      }
      coordinates.x := coordinates.x + dx;
      coordinates.y := coordinates.y + dy;
      return false;
    }
  }
}
