/**
  The fixed layout of the arena: screen size, paddle and ball sizes and speeds, and the
  four edges. In the source these constants are spread over scene.rs, paddle.rs and ball.rs
  and refer to each other in a cycle; here they are gathered in one module so that every
  other module can import them.
 */
module Layout {

  /** An unsigned 32-bit integer: the type of sizes and radii in the source. */
  newtype u32 = x: int | 0 <= x < 0x1_0000_0000

  /** The largest value a `u32` holds. */
  const U32_MAX: int := 0xFFFF_FFFF

  const SCREEN_WIDTH: u32 := 800
  const SCREEN_HEIGHT: u32 := 600

  const DEFAULT_PADDLE_HEIGHT: u32 := SCREEN_HEIGHT / 10
  /** Integer division: 60 / 8 is 7. */
  const DEFAULT_PADDLE_WIDTH: u32 := DEFAULT_PADDLE_HEIGHT / 8
  /** Distance between a screen side and the outer face of the paddles on that side. */
  const PADDLE_MARGIN: u32 := DEFAULT_PADDLE_WIDTH

  const DEFAULT_RADIUS: u32 := 3
  /** Pixels per frame. */
  const DEFAULT_BALL_SPEED: real := (SCREEN_WIDTH / 200) as real
  /** Pixels per move operation. */
  const DEFAULT_PADDLE_SPEED: real := DEFAULT_BALL_SPEED * 5.0

  /** x of the centre of the left paddles: the margin plus half a paddle (integer halving). */
  const DEFAULT_LEFT_CENTER_X: real := (PADDLE_MARGIN + DEFAULT_PADDLE_WIDTH / 2) as real
  /** x of the centre of the right paddles. */
  const DEFAULT_RIGHT_CENTER_X: real := (SCREEN_WIDTH - PADDLE_MARGIN - DEFAULT_PADDLE_WIDTH / 2) as real

  /** The four edges of the arena. */
  datatype Edges = Top | Bottom | Left | Right

  /** The derived constants evaluate to these small integers. */
  lemma ConstantValues()
    ensures DEFAULT_PADDLE_HEIGHT == 60 && DEFAULT_PADDLE_WIDTH == 7 && PADDLE_MARGIN == 7
    ensures DEFAULT_BALL_SPEED == 4.0 && DEFAULT_PADDLE_SPEED == 20.0
    ensures DEFAULT_LEFT_CENTER_X == 10.0 && DEFAULT_RIGHT_CENTER_X == 790.0
  {
  }

  /** The screen is 800 by 600, and the paddle margin equals the paddle width, 7. */
  lemma ScreenConstants()
    ensures SCREEN_WIDTH == 800 && SCREEN_HEIGHT == 600
    ensures PADDLE_MARGIN == DEFAULT_PADDLE_WIDTH == 7
  {
  }

  /** A default ball has radius 3 and speed 4, a two-hundredth of the screen width. */
  lemma BallConstants()
    ensures DEFAULT_RADIUS == 3
    ensures DEFAULT_BALL_SPEED == SCREEN_WIDTH as real / 200.0 == 4.0
  {
  }
}
