/** Two-dimensional vectors of the arena (src/math_utils/vec2.rs), over exact reals. */
module MathUtils {
  import opened Layout

  /** A point or a displacement; a plain value. */
  datatype Vec2 = Vec2(x: real, y: real) {

    /** `&a + &b`. */
    function Add(rhs: Vec2): Vec2 {
      Vec2(x + rhs.x, y + rhs.y)
    }

    /** `&a - &b`. */
    function Sub(rhs: Vec2): Vec2 {
      Vec2(x - rhs.x, y - rhs.y)
    }

    /** `&v * s`. */
    function Mul(s: real): Vec2 {
      Vec2(x * s, y * s)
    }

    /** `&v / s`; a zero divisor has no real counterpart. */
    function Div(s: real): Vec2
      requires s != 0.0
    {
      Vec2(x / s, y / s)
    }

    /** `v += &rhs`: x is updated, then y. The result is this vector's new value. */
    function AddAssign(rhs: Vec2): (r: Vec2)
      ensures r == Add(rhs)
    {
      var v := this.(x := x + rhs.x);
      v.(y := v.y + rhs.y)
    }

    /** `v -= &rhs`: x is updated, then y. */
    function SubAssign(rhs: Vec2): (r: Vec2)
      ensures r == Sub(rhs)
    {
      var v := this.(x := x - rhs.x);
      v.(y := v.y - rhs.y)
    }

    /** `v *= s`: x is updated, then y. */
    function MulAssign(s: real): (r: Vec2)
      ensures r == Mul(s)
    {
      var v := this.(x := x * s);
      v.(y := v.y * s)
    }

    /** `v /= s`: x is updated, then y. */
    function DivAssign(s: real): (r: Vec2)
      requires s != 0.0
      ensures r == Div(s)
    {
      var v := this.(x := x / s);
      v.(y := v.y / s)
    }
  }

  /** `s * &v`, defined by the source as `v * s`. */
  function ScalarMul(s: real, v: Vec2): (r: Vec2)
    ensures r.x == s * v.x && r.y == s * v.y
  {
    v.Mul(s)
  }

  /** `Vec2::default()`: the centre of the screen. */
  function Default(): (r: Vec2)
    ensures r == Vec2(400.0, 300.0)
  {
    Vec2((SCREEN_WIDTH / 2) as real, (SCREEN_HEIGHT / 2) as real)
  }

  /** Addition and subtraction work componentwise, so each undoes the other. */
  lemma AddSubInverse(a: Vec2, b: Vec2)
    ensures a.Add(b).Sub(b) == a && a.Sub(b).Add(b) == a
    ensures a.Add(b) == b.Add(a)
    ensures a.Add(b).x == a.x + b.x && a.Sub(b).y == a.y - b.y
  {
  }

  /** Scaling works componentwise; dividing by a non-zero scalar undoes it. */
  lemma MulDivInverse(v: Vec2, s: real)
    requires s != 0.0
    ensures v.Mul(s).Div(s) == v && v.Div(s).Mul(s) == v
    ensures ScalarMul(s, v) == v.Mul(s)
  {
  }
}
