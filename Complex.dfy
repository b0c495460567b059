/**
 * The two-component vectors of the fragment shader (GLSL `vec2`), read as
 * complex numbers x + iy. GLSL floats are modelled as mathematical reals.
 */
module Complex {

  datatype Vec2 = Vec2(x: real, y: real)

  /** Component-wise addition, the `+` of two `vec2` values. */
  function Add(a: Vec2, b: Vec2): Vec2 {
    Vec2(a.x + b.x, a.y + b.y)
  }

  /** The complex square, written as the shader spells it out. */
  function Square(z: Vec2): Vec2 {
    Vec2(z.x * z.x - z.y * z.y, 2.0 * z.x * z.y)
  }

  /** The squared Euclidean length; `length(z) > r` is `NormSq(z) > r * r`. */
  function NormSq(z: Vec2): real {
    z.x * z.x + z.y * z.y
  }

  /** Complex conjugate, the reflection in the real axis. */
  function Conj(z: Vec2): Vec2 {
    Vec2(z.x, -z.y)
  }

  lemma SquareOfConj(z: Vec2)
    ensures Square(Conj(z)) == Conj(Square(z))
    ensures NormSq(Conj(z)) == NormSq(z)
  {
  }
}
