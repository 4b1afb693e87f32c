/** Two-dimensional vectors (class Vector of game.js) and the rounding
    functions the level's obstacle scan uses. */
module Vectors {

  /** An immutable point or offset. `plus` and `times` build new values. */
  datatype Vector = Vector(x: real, y: real) {

    /** Componentwise sum (`plus`). */
    function Plus(other: Vector): Vector {
      Vector(x + other.x, y + other.y)
    }

    /** Scaling by a number (`times`). */
    function Times(k: real): Vector {
      Vector(x * k, y * k)
    }

    /** Both components negated: how a fireball reverses its speed. */
    function Negated(): Vector {
      Vector(-x, -y)
    }
  }

  const Zero := Vector(0.0, 0.0)

  /** `plus` makes vectors a commutative group: order and grouping do not
      matter, the zero vector changes nothing, and adding the negation
      cancels. */
  lemma PlusLaws(u: Vector, v: Vector, w: Vector)
    ensures u.Plus(v) == v.Plus(u)
    ensures u.Plus(v).Plus(w) == u.Plus(v.Plus(w))
    ensures u.Plus(Zero) == u
    ensures u.Plus(u.Negated()) == Zero
  {
  }

  /** `times` scales: by 1 it changes nothing, by 0 it gives the zero
      vector, by -1 it negates; scaling twice multiplies the factors, and
      scaling distributes over a sum of factors and over `plus`. */
  lemma TimesLaws(u: Vector, v: Vector, a: real, b: real)
    ensures u.Times(1.0) == u && u.Times(0.0) == Zero && u.Times(-1.0) == u.Negated()
    ensures u.Times(a).Times(b) == u.Times(a * b)
    ensures u.Times(a + b) == u.Times(a).Plus(u.Times(b))
    ensures u.Plus(v).Times(a) == u.Times(a).Plus(v.Times(a))
    ensures u.Negated().Times(a) == u.Times(a).Negated()
  {
  }

  /** The step back at the negated speed lands on the mirror image, through
      `p`, of the step forward: the two targets have `p` as their midpoint. */
  lemma ReversedStepMirrors(p: Vector, v: Vector, t: real)
    ensures p.Plus(v.Negated().Times(t)).Plus(p.Plus(v.Times(t))) == p.Times(2.0)
  {
    assert -v.x * t + v.x * t == 0.0 && -v.y * t + v.y * t == 0.0;
  }

  /** `Math.floor`: the greatest integer not above `r`. */
  function Floor(r: real): (n: int)
    ensures n as real <= r < n as real + 1.0
  {
    r.Floor
  }

  /** `Math.ceil`, written through floor: the least integer not below `r`. */
  function Ceil(r: real): (n: int)
    ensures n as real - 1.0 < r <= n as real
  {
    -Floor(-r)
  }

  /** Rounding up never passes an integer bound above, rounding down never
      passes an integer bound below. */
  lemma RoundingWithinIntegerBounds(r: real, n: int)
    ensures r <= n as real ==> Ceil(r) <= n
    ensures n as real <= r ==> n <= Floor(r)
  {
  }
}
