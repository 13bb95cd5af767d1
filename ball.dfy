/** Balls (src/game_and_scene/ball.rs): Euler integration, paddle collision and bouncing. */
module Balls {
  import opened Layout
  import opened MathUtils
  import opened Paddles
  import opened Wrappers

  /**
    What a ball ran into. A paddle collision carries the struck paddle's value: in the
    source it is a borrowed reference, alive only while the bounce is computed.
   */
  datatype Collision = WithEdge(edge: Edges) | WithPaddle(paddle: PaddleState)

  /** The value of a ball: centre, velocity in pixels per frame, radius in pixels. */
  datatype BallState = BallState(pos: Vec2, vel: Vec2, radius: u32)

  /** `update_pos`: one Euler step, `pos += vel`. */
  function Integrated(b: BallState): (r: BallState)
    ensures r.pos == b.pos.Add(b.vel) && r.vel == b.vel && r.radius == b.radius
  {
    b.(pos := b.pos.AddAssign(b.vel))
  }

  /** The bounds `collides_with` tests, y widened by the radius and x not. */
  function YLowerBound(b: BallState, p: PaddleState): real {
    p.pos.y - (p.height / 2) as real - b.radius as real
  }

  function YUpperBound(b: BallState, p: PaddleState): real {
    p.pos.y + (p.height / 2) as real + b.radius as real
  }

  function XLowerBound(p: PaddleState): real {
    p.pos.x - (p.width / 2) as real
  }

  function XUpperBound(p: PaddleState): real {
    p.pos.x + (p.width / 2) as real
  }

  /**
    `collides_with`: the centre of the ball lies strictly inside the paddle's rectangle,
    with half-sizes halved in integers, and whose height (only) is extended by the radius.
   */
  function Collides(b: BallState, p: PaddleState): (c: Option<Collision>)
    ensures c.Some? <==>
      (p.pos.y - (p.height / 2) as real - b.radius as real < b.pos.y < p.pos.y + (p.height / 2) as real + b.radius as real
       && p.pos.x - (p.width / 2) as real < b.pos.x < p.pos.x + (p.width / 2) as real)
    ensures c.Some? ==> c.value == WithPaddle(p)
  {
    var halfHeight := (p.height / 2) as real;
    var halfWidth := (p.width / 2) as real;
    var radius := b.radius as real;
    var yLower := p.pos.y - halfHeight - radius;
    var yUpper := p.pos.y + halfHeight + radius;
    var xLower := p.pos.x - halfWidth;
    var xUpper := p.pos.x + halfWidth;
    if b.pos.y > yLower && b.pos.y < yUpper && b.pos.x > xLower && b.pos.x < xUpper then
      Some(WithPaddle(p))
    else
      None
  }

  /** A ball whose centre lies exactly on one of the four bounds does not collide. */
  lemma BoundsAreExclusive(b: BallState, p: PaddleState)
    requires b.pos.y == YLowerBound(b, p) || b.pos.y == YUpperBound(b, p)
          || b.pos.x == XLowerBound(p) || b.pos.x == XUpperBound(p)
    ensures Collides(b, p) == None
  {
  }

  /**
    The open interiors of the ball's bounding square and of the paddle's rectangle (its
    half-sizes halved in integers) meet.
   */
  predicate SquareOverlaps(b: BallState, p: PaddleState) {
    var r := b.radius as real;
    && XLowerBound(p) < b.pos.x + r && b.pos.x - r < XUpperBound(p)
    && p.pos.y - (p.height / 2) as real < b.pos.y + r && b.pos.y - r < p.pos.y + (p.height / 2) as real
  }

  /** Every collision is an overlap of the ball's bounding square with the paddle. */
  lemma CollisionIsOverlap(b: BallState, p: PaddleState)
    ensures Collides(b, p).Some? ==> SquareOverlaps(b, p)
  {
  }

  /**
    The converse is false, because the x-bounds are not widened by the radius: a ball of
    radius 3 centred one pixel right of the default left paddle's bound overlaps it and is
    not reported.
   */
  lemma XBoundsNotWidened()
    ensures var b := BallState(Vec2(14.0, 300.0), Vec2(-4.0, 0.0), 3);
      SquareOverlaps(b, DefaultLeftPaddle()) && Collides(b, DefaultLeftPaddle()) == None
  {
  }

  /**
    `reset_pos` computes the new coordinate in `u32` arithmetic, which cannot fall below
    0 nor exceed `U32_MAX`: this says that it does not, for this ball and this collision.
   */
  predicate ResetFits(b: BallState, c: Collision) {
    match c
    case WithPaddle(p) =>
      if p.IsLeft() then PADDLE_MARGIN as int + DEFAULT_PADDLE_WIDTH as int + b.radius as int <= U32_MAX
      else PADDLE_MARGIN as int + DEFAULT_PADDLE_WIDTH as int + b.radius as int <= SCREEN_WIDTH as int
    case WithEdge(_) =>
      b.pos.y + b.radius as real > SCREEN_HEIGHT as real ==> b.radius <= SCREEN_HEIGHT
  }

  /** A radius of at most the screen height keeps every reset within `u32`. */
  lemma SmallRadiusFits(b: BallState, c: Collision)
    requires b.radius <= SCREEN_HEIGHT
    ensures ResetFits(b, c)
  {
  }

  /**
    `reset_pos`: after a paddle hit, x is snapped to just off the paddle column of that
    side (fixed from the margin and the default paddle width, not from the paddle struck);
    after any other hit, y is pulled back inside the screen.
   */
  function Repositioned(b: BallState, c: Collision): (r: BallState)
    requires ResetFits(b, c)
    ensures r.vel == b.vel && r.radius == b.radius
    ensures c.WithPaddle? ==> r.pos.y == b.pos.y
    ensures c.WithPaddle? && c.paddle.IsLeft() ==> r.pos.x == 14.0 + b.radius as real
    ensures c.WithPaddle? && c.paddle.IsRight() ==> r.pos.x == 786.0 - b.radius as real
    ensures c.WithEdge? ==> r.pos.x == b.pos.x
    ensures c.WithEdge? && b.pos.y + b.radius as real > SCREEN_HEIGHT as real ==>
      r.pos.y == SCREEN_HEIGHT as real - b.radius as real
    ensures c.WithEdge? && b.pos.y + b.radius as real <= SCREEN_HEIGHT as real && b.pos.y - b.radius as real < 0.0 ==>
      r.pos.y == b.radius as real
    ensures c.WithEdge? && 0.0 <= b.pos.y - b.radius as real && b.pos.y + b.radius as real <= SCREEN_HEIGHT as real ==>
      r == b
  {
    match c
    case WithPaddle(p) =>
      if p.IsLeft() then
        b.(pos := b.pos.(x := (PADDLE_MARGIN + DEFAULT_PADDLE_WIDTH + b.radius) as real))
      else
        b.(pos := b.pos.(x := (SCREEN_WIDTH - PADDLE_MARGIN - DEFAULT_PADDLE_WIDTH - b.radius) as real))
    case WithEdge(_) =>
      if b.pos.y + b.radius as real > SCREEN_HEIGHT as real then
        b.(pos := b.pos.(y := (SCREEN_HEIGHT - b.radius) as real))
      else if b.pos.y - b.radius as real < 0.0 then
        b.(pos := b.pos.(y := b.radius as real))
      else
        b
  }

  /**
    A non-paddle reset is a clamp: a ball that fits between top and bottom ends up between
    them, touching a boundary at most, and a ball already inside is left where it is.
   */
  lemma EdgeResetClamps(b: BallState, e: Edges)
    requires 2 * b.radius as int <= SCREEN_HEIGHT as int
    ensures ResetFits(b, WithEdge(e))
    ensures var r := Repositioned(b, WithEdge(e));
      b.radius as real <= r.pos.y <= SCREEN_HEIGHT as real - b.radius as real
    ensures b.radius as real <= b.pos.y <= SCREEN_HEIGHT as real - b.radius as real ==>
      Repositioned(b, WithEdge(e)) == b
  {
  }

  /**
    `bounce_after_collision`: the top and bottom edges reverse the vertical velocity, a
    paddle reverses the horizontal one, the left and right edges leave it alone; then the
    position is corrected.
   */
  function Bounced(b: BallState, c: Collision): (r: BallState)
    requires ResetFits(b, c)
    ensures r.radius == b.radius
    ensures c == WithEdge(Top) || c == WithEdge(Bottom) ==> r.vel == Vec2(b.vel.x, -b.vel.y)
    ensures c == WithEdge(Edges.Left) || c == WithEdge(Edges.Right) ==> r.vel == b.vel
    ensures c.WithPaddle? ==> r.vel == Vec2(-b.vel.x, b.vel.y)
    ensures r.pos == Repositioned(b, c).pos
  {
    var flipped :=
      match c
      case WithEdge(Top) => b.(vel := b.vel.(y := b.vel.y * -1.0))
      case WithEdge(Bottom) => b.(vel := b.vel.(y := b.vel.y * -1.0))
      case WithPaddle(_) => b.(vel := b.vel.(x := b.vel.x * -1.0))
      case WithEdge(_) => b;
    Repositioned(flipped, c)
  }

  /** After a non-paddle bounce a ball that fits between top and bottom lies between them. */
  lemma EdgeBounceWithinScreen(b: BallState, e: Edges)
    requires 2 * b.radius as int <= SCREEN_HEIGHT as int
    ensures ResetFits(b, WithEdge(e))
    ensures var r := Bounced(b, WithEdge(e));
      b.radius as real <= r.pos.y <= SCREEN_HEIGHT as real - b.radius as real && r.pos.x == b.pos.x
  {
    EdgeResetClamps(b, e);
  }

  /**
    The snap after a paddle hit does what the source's comment asks of it: the ball no
    longer collides with a default paddle it has just bounced off, whatever its radius.
   */
  lemma PaddleBounceLeavesDefaultPaddle(b: BallState, p: PaddleState)
    requires p == DefaultLeftPaddle() || p == DefaultRightPaddle()
    requires ResetFits(b, WithPaddle(p))
    ensures Collides(Bounced(b, WithPaddle(p)), p) == None
  {
  }

  /** A ball of the scene. Its radius is never written after construction. */
  class Ball {
    var pos: Vec2
    var vel: Vec2
    const radius: u32

    /** The ball's current value. */
    function Value(): BallState
      reads this
    {
      BallState(pos, vel, radius)
    }

    /** `Ball::new`. */
    constructor (pos: Vec2, vel: Vec2, radius: u32)
      ensures Value() == BallState(pos, vel, radius)
    {
      this.pos := pos;
      this.vel := vel;
      this.radius := radius;
    }

    /** `Ball::generate_with_vel`: a default-size ball at the centre of the screen. */
    constructor GenerateWithVel(vel: Vec2)
      ensures Value() == BallState(Vec2(400.0, 300.0), vel, 3)
    {
      pos := MathUtils.Default();
      this.vel := vel;
      radius := DEFAULT_RADIUS;
    }

    /**
      `Ball::random_centered_ball`: as `GenerateWithVel`, the velocity being the random
      launch vector, given here by the caller.
     */
    constructor RandomCentered(launch: Vec2)
      ensures Value() == BallState(Vec2(400.0, 300.0), launch, 3)
    {
      pos := MathUtils.Default();
      vel := launch;
      radius := DEFAULT_RADIUS;
    }

    /** `Ball::default`: the velocity is also `Vec2::default()`, the screen centre. */
    constructor Default()
      ensures Value() == BallState(Vec2(400.0, 300.0), Vec2(400.0, 300.0), 3)
    {
      pos := MathUtils.Default();
      vel := MathUtils.Default();
      radius := DEFAULT_RADIUS;
    }

    /** `update_pos`, in place. */
    method UpdatePos()
      modifies this
      ensures Value() == Integrated(old(Value()))
    {
      pos := pos.AddAssign(vel);
    }

    /** `collides_with`: it only reads the ball and the paddle. */
    function CollidesWith(paddle: Paddle): (c: Option<Collision>)
      reads this, paddle
      ensures c.Some? <==>
        && YLowerBound(Value(), paddle.Value()) < pos.y < YUpperBound(Value(), paddle.Value())
        && XLowerBound(paddle.Value()) < pos.x < XUpperBound(paddle.Value())
      ensures c.Some? ==> c.value == WithPaddle(paddle.Value())
    {
      Collides(Value(), paddle.Value())
    }

    /** `bounce_after_collision`, in place. */
    method BounceAfterCollision(c: Collision)
      requires ResetFits(Value(), c)
      modifies this
      ensures Value() == Bounced(old(Value()), c)
    {
      match c {
        case WithEdge(Top) => vel := vel.(y := vel.y * -1.0);
        case WithEdge(Bottom) => vel := vel.(y := vel.y * -1.0);
        case WithPaddle(_) => vel := vel.(x := vel.x * -1.0);
        case WithEdge(_) =>
      }
      ResetPos(c);
    }

    /** `reset_pos`, in place. */
    method ResetPos(c: Collision)
      requires ResetFits(Value(), c)
      modifies this
      ensures Value() == Repositioned(old(Value()), c)
    {
      match c {
        case WithPaddle(p) =>
          if p.IsLeft() {
            pos := pos.(x := (PADDLE_MARGIN + DEFAULT_PADDLE_WIDTH + radius) as real);
          } else {
            pos := pos.(x := (SCREEN_WIDTH - PADDLE_MARGIN - DEFAULT_PADDLE_WIDTH - radius) as real);
          }
        case WithEdge(_) =>
          if pos.y + radius as real > SCREEN_HEIGHT as real {
            pos := pos.(y := (SCREEN_HEIGHT - radius) as real);
          } else if pos.y - radius as real < 0.0 {
            pos := pos.(y := radius as real);
          }
      }
    }
  }
}
