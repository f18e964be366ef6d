/**
 * character/Crystal.java: a colour-dispatching constructor and a constant
 * render offset.
 */
module Crystals {
  import opened Wrappers
  import opened Vectors
  import opened Entities

  /**
   * `Crystal(x, y, color)`: "blue" and "purple" select the animation variant
   * and set the coordinates and facing; any other colour assigns nothing.
   */
  function CrystalInit(x: real, y: real, color: string): (r: Setup)
    ensures color == "blue" || color == "purple" ==>
      r.animations == Some(["crystal/", color]) && r.coordinates == Some(Vec(x, y))
      && r.isFacingLeft == Some(false)
    ensures color != "blue" && color != "purple" ==>
      r.animations.None? && r.coordinates.None? && r.isFacingLeft.None?
    ensures r.stats.None?
  {
    var blue := if color == "blue" then Setup(Some(["crystal/", "blue"]), Some(Vec(x, y)), Some(false), None)
                else Setup(None, None, None, None);
    if color == "purple" then blue.(animations := Some(["crystal/", "purple"]), coordinates := Some(Vec(x, y)),
                                    isFacingLeft := Some(false))
    else blue
  }

  /** `getOffset()`: the zero vector, not null. */
  function CrystalOffset(): (r: Vec)
    ensures IsNull(r)
  {
    Vec(0.0, 0.0)
  }

  /** Exactly the two known colours give a crystal with coordinates. */
  lemma CrystalPlacedIffKnownColour(x: real, y: real, color: string)
    ensures CrystalInit(x, y, color).coordinates.Some? <==> color in {"blue", "purple"}
  {
  }
}
