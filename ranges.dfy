/**
 * geometry/Range.java: an int `current` kept inside `[min, max]` by `set`.
 * `min` and `max` never change after construction.
 */
module Ranges {
  import opened JavaNum

  /** The value of a Range object: its bounds and its current value. */
  datatype Bounded = Bounded(min: Int32, max: Int32, current: Int32)

  /** The value `set(v)` stores: the if-chain of Range.set. */
  function Clip(min: Int32, max: Int32, v: Int32): (r: Int32)
    ensures min <= max ==> min <= r <= max
    ensures min <= v <= max ==> r == v
    ensures min <= max && v < min ==> r == min
    ensures min <= max && v > max ==> r == max
  {
    if v < min then min else if v > max then max else v
  }

  predicate InBounds(b: Bounded) {
    b.min <= b.current <= b.max
  }

  /** `set(v)` on a Range value. */
  function Assigned(b: Bounded, v: Int32): (r: Bounded)
    ensures r.min == b.min && r.max == b.max
    ensures b.min <= b.max ==> InBounds(r)
  {
    b.(current := Clip(b.min, b.max, v))
  }

  /** `isMin()`. */
  predicate AtMin(b: Bounded) {
    b.current == b.min
  }

  /** `isMax()` as written: it compares `current` with `min`. */
  predicate AtMaxAsWritten(b: Bounded) {
    b.current == b.min
  }

  /** What `isMax()` is documented to test: `current == max`. */
  predicate AtMax(b: Bounded) {
    b.current == b.max
  }

  /** The static helper `isIn(min, max, current)`. */
  predicate IsIn(min: int, max: int, current: int) {
    min <= current && current <= max
  }

  /** `set(v); set(v)` stores the same value as one `set(v)`. */
  lemma SetTwice(b: Bounded, v: Int32)
    ensures Assigned(Assigned(b, v), v) == Assigned(b, v)
  {
  }

  /** With ordered bounds, clipping is idempotent and `set(get())` changes nothing when current is in bounds. */
  lemma ClipIdempotent(min: Int32, max: Int32, v: Int32)
    requires min <= max
    ensures Clip(min, max, Clip(min, max, v)) == Clip(min, max, v)
  {
  }

  lemma SetGetInBounds(b: Bounded)
    requires InBounds(b)
    ensures Assigned(b, b.current) == b
  {
  }

  /** With `min > max` the clip is not idempotent: `Range(0, -5, -1)` then `set(get())` twice moves current. */
  lemma SetGetUnorderedBounds()
    ensures Assigned(Bounded(0, -5, -1), -1).current == 0
    ensures Assigned(Assigned(Bounded(0, -5, -1), -1), 0).current == -5
  {
  }

  /** `IsIn` is exactly the in-bounds test of a Range value, and `Set` lands in it with ordered bounds. */
  lemma SetLandsInRange(b: Bounded, v: Int32)
    requires b.min <= b.max
    ensures IsIn(b.min, b.max, Assigned(b, v).current)
    ensures IsIn(b.min, b.max, v) <==> Assigned(b, v).current == v
  {
  }

  /** `isMax()` as written always agrees with `isMin()`, so a full range answers false. */
  lemma IsMaxAsWrittenIsIsMin(b: Bounded)
    ensures AtMaxAsWritten(b) <==> AtMin(b)
    ensures b == Bounded(0, 10, 10) ==> !AtMaxAsWritten(b) && AtMax(b)
  {
  }

  /** The documented test holds after setting any value at or above `max`, with ordered bounds. */
  lemma AtMaxAfterSetAbove(b: Bounded, v: Int32)
    requires b.min <= b.max && v >= b.max
    ensures AtMax(Assigned(b, v))
    ensures b.min < b.max ==> !AtMaxAsWritten(Assigned(b, v))
  {
  }

  class Range {
    const min: Int32
    const max: Int32
    var current: Int32

    function Value(): Bounded
      reads this
    {
      Bounded(min, max, current)
    }

    /** `Range(max)`: the range `[0, max]` starting full. */
    constructor UpTo(max: Int32)
      ensures Value() == Bounded(0, max, max)
      ensures 0 <= max ==> InBounds(Value()) && AtMax(Value())
    {
      this.min, this.max, this.current := 0, max, max;
    }

    /** `Range(min, max)`: current starts at `max`. */
    constructor Between(min: Int32, max: Int32)
      ensures Value() == Bounded(min, max, max)
      ensures min <= max ==> InBounds(Value())
    {
      this.min, this.max, this.current := min, max, max;
    }

    /** `Range(min, max, current)`: the arguments are stored unchecked. */
    constructor (min: Int32, max: Int32, current: Int32)
      ensures Value() == Bounded(min, max, current)
    {
      this.min, this.max, this.current := min, max, current;
    }

    /** `set(value)`. */
    method Set(value: Int32)
      modifies this
      ensures Value() == Assigned(old(Value()), value)
    {
      if value < min {
        current := min;
      } else if value > max {
        current := max;
      } else {
        current := value;
      }
    }

    /** `get()`: within the bounds whenever the range is, and `set(get())` then changes nothing. */
    function Get(): (r: Int32)
      reads this
      ensures InBounds(Value()) ==> min <= r <= max && Assigned(Value(), r) == Value()
    {
      current
    }

    /** `isMin()`: with ordered bounds, true exactly when `set(min)` would change nothing. */
    function IsMin(): (r: bool)
      reads this
      ensures min <= max ==> (r <==> Assigned(Value(), min) == Value())
    {
      AtMin(Value())
    }

    /**
     * `isMax()` as written (see AtMaxAsWritten): with ordered bounds it is true
     * exactly when `set(min)` would change nothing, so a range full to a `max`
     * above `min` is not reported as at its maximum.
     */
    function IsMax(): (r: bool)
      reads this
      ensures min <= max ==> (r <==> Assigned(Value(), min) == Value())
      ensures min < max && current == max ==> !r
    {
      AtMaxAsWritten(Value())
    }
  }
}
