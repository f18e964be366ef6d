/**
 * geometry/Vector2D.java: vectors of R^2.  The static operations work on
 * values (`Vec`); the in-place operations `negate` and `normalize` are
 * methods of the mutable class `Vector2D`.  Doubles are modelled as reals.
 */
module Vectors {
  datatype Vec = Vec(x: real, y: real)

  const Zero: Vec := Vec(0.0, 0.0)

  /** `isNull()`: both coordinates are zero. */
  predicate IsNull(v: Vec) {
    v.x == 0.0 && v.y == 0.0
  }

  /** The value `negate()` leaves behind. */
  function Negated(v: Vec): (r: Vec)
    ensures IsNull(r) <==> IsNull(v)
    ensures Plus(v, r) == Zero
  {
    Vec(-v.x, -v.y)
  }

  /** `scale(v, f)`. */
  function Scale(v: Vec, f: real): (r: Vec)
    ensures f == 1.0 ==> r == v
    ensures f == 0.0 || IsNull(v) ==> IsNull(r)
    ensures f == -1.0 ==> r == Negated(v)
  {
    Vec(v.x * f, v.y * f)
  }

  /** `dot(u, v)`. */
  function Dot(u: Vec, v: Vec): (r: real)
    ensures u == v ==> r >= 0.0
    ensures u == v ==> (r == 0.0 <==> IsNull(u))
  {
    u.x * v.x + u.y * v.y
  }

  /** Component-wise sum of two vectors. */
  function Plus(u: Vec, v: Vec): Vec {
    Vec(u.x + v.x, u.y + v.y)
  }

  /** Each component divided by `n`: the value `normalize()` leaves behind for the norm `n`. */
  function Divide(v: Vec, n: real): Vec
    requires n != 0.0
  {
    Vec(v.x / n, v.y / n)
  }

  /** The component-wise sum of a sequence of vectors, accumulated from the left. */
  function Sum(vs: seq<Vec>): Vec {
    if vs == [] then Zero else Plus(Sum(vs[..|vs| - 1]), vs[|vs| - 1])
  }

  lemma DotSymmetric(u: Vec, v: Vec)
    ensures Dot(u, v) == Dot(v, u)
  {
  }

  lemma NegateTwice(v: Vec)
    ensures Negated(Negated(v)) == v
  {
  }

  lemma DotScale(u: Vec, v: Vec, f: real)
    ensures Dot(Scale(u, f), v) == f * Dot(u, v)
  {
  }

  /** Dividing a non-null vector by its norm gives a unit vector. */
  lemma NormalizedIsUnit(v: Vec, n: real)
    requires !IsNull(v) && n > 0.0 && n * n == Dot(v, v)
    ensures Dot(Divide(v, n), Divide(v, n)) == 1.0
  {
    var d := Divide(v, n);
    assert d.x * n == v.x && d.y * n == v.y;
    calc {
      Dot(d, d) * (n * n);
      (d.x * n) * (d.x * n) + (d.y * n) * (d.y * n);
      Dot(v, v);
      1.0 * (n * n);
    }
  }

  lemma {:induction false} SumConcat(s: seq<Vec>, t: seq<Vec>)
    ensures Sum(s + t) == Plus(Sum(s), Sum(t))
    decreases |t|
  {
    if t == [] {
      assert s + t == s;
    } else {
      var n := |t| - 1;
      assert (s + t)[..|s + t| - 1] == s + t[..n];
      SumConcat(s, t[..n]);
    }
  }

  /** Taking one term out of a sum. */
  lemma {:induction false} RemoveTerm(b: seq<Vec>, j: nat)
    requires j < |b|
    ensures Sum(b) == Plus(Sum(b[..j] + b[j + 1..]), b[j])
    ensures multiset(b[..j] + b[j + 1..]) == multiset(b) - multiset{b[j]}
  {
    var last, pre, post := b[j], b[..j], b[j + 1..];
    assert b == (pre + [last]) + post;
    assert Sum([last]) == last by {
      assert [last][..0] == [];
    }
    calc {
      Sum(b);
      { SumConcat(pre + [last], post); }
      Plus(Sum(pre + [last]), Sum(post));
      { SumConcat(pre, [last]); }
      Plus(Plus(Sum(pre), last), Sum(post));
      Plus(Plus(Sum(pre), Sum(post)), last);
      { SumConcat(pre, post); }
      Plus(Sum(pre + post), last);
    }
  }

  /** The sum does not depend on the order of its terms. */
  lemma {:induction false} SumPermutation(a: seq<Vec>, b: seq<Vec>)
    requires multiset(a) == multiset(b)
    ensures Sum(a) == Sum(b)
    decreases |a|
  {
    if a == [] {
      assert |b| == |multiset(b)| == 0;
    } else {
      var n := |a| - 1;
      var last := a[n];
      assert a == a[..n] + [last];
      assert multiset(a[..n]) == multiset(a) - multiset{last};
      assert last in multiset(b);
      var j :| 0 <= j < |b| && b[j] == last;
      RemoveTerm(b, j);
      SumPermutation(a[..n], b[..j] + b[j + 1..]);
    }
  }

  /**
   * `add(first, second, others...)`: the sum of all arguments, accumulated by
   * the varargs loop; by SumPermutation it does not depend on the argument order.
   */
  method Add(first: Vec, second: Vec, others: seq<Vec>) returns (r: Vec)
    ensures r == Sum([first, second] + others)
  {
    var all := [first, second] + others;
    assert Sum(all[..2]) == Vec(first.x + second.x, first.y + second.y) by {
      assert all[..2] == [first, second] && [first, second][..1] == [first] && [first][..0] == [];
      assert Sum([first]) == Plus(Zero, first);
      assert Sum([first, second]) == Plus(Sum([first]), second);
    }
    var x := first.x + second.x;
    var y := first.y + second.y;
    var i := 0;
    while i < |others|
      invariant 0 <= i <= |others|
      invariant Vec(x, y) == Sum(all[..i + 2])
    {
      assert all[..i + 3][..i + 2] == all[..i + 2];
      x := x + others[i].x;
      y := y + others[i].y;
      i := i + 1;
    }
    assert all[..i + 2] == all;
    r := Vec(x, y);
  }

  /** The mutable vector object; `x` and `y` are public fields in the source. */
  class Vector2D {
    var x: real
    var y: real

    function Value(): Vec
      reads this
    {
      Vec(x, y)
    }

    /** The default constructor: the null vector. */
    constructor Null()
      ensures IsNull(Value())
    {
      x, y := 0.0, 0.0;
    }

    constructor (x: real, y: real)
      ensures Value() == Vec(x, y)
    {
      this.x, this.y := x, y;
    }

    /** The copy constructor. */
    constructor Copy(v: Vector2D)
      ensures Value() == v.Value()
    {
      x, y := v.x, v.y;
    }

    /** `negate()`: both coordinates change sign in place. */
    method Negate()
      modifies this
      ensures Value() == Negated(old(Value()))
    {
      x := x * -1.0;
      y := y * -1.0;
    }

    /**
     * `normalize()`, given the value `norm` that `Math.sqrt(dot(this, this))`
     * returns: a null vector is left unchanged, any other is divided by its norm.
     */
    method Normalize(norm: real)
      requires norm >= 0.0 && norm * norm == Dot(Value(), Value())
      modifies this
      ensures IsNull(old(Value())) ==> Value() == old(Value())
      ensures !IsNull(old(Value())) ==> norm > 0.0 && Value() == Divide(old(Value()), norm)
      ensures !IsNull(old(Value())) ==> Dot(Value(), Value()) == 1.0
    {
      if !(x == 0.0 && y == 0.0) {
        assert Dot(Value(), Value()) > 0.0;
        NormalizedIsUnit(Value(), norm);
        x := x / norm;
        y := y / norm;
      }
    }
  }
}
