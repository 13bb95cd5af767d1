/** Paddles (src/game_and_scene/paddle.rs): a centred rectangle that moves up and down. */
module Paddles {
  import opened Layout
  import opened MathUtils

  /** The two sides of the arena; also the outcome of a round (the side that won it). */
  datatype Sides = Left | Right

  /** The value of a paddle: its centre, its size and the side it defends. */
  datatype PaddleState = PaddleState(pos: Vec2, width: u32, height: u32, side: Sides) {

    /** `is_left`. */
    predicate IsLeft() {
      side.Left?
    }

    /** `is_right`. */
    predicate IsRight() {
      side.Right?
    }
  }

  /** A paddle always defends exactly one side. */
  lemma ExactlyOneSide(p: PaddleState)
    ensures p.IsLeft() != p.IsRight()
    ensures p.IsLeft() <==> p.side == Sides.Left
  {
  }

  /** The paddle `default_left_paddle` builds. */
  function DefaultLeftPaddle(): (p: PaddleState)
    ensures p == PaddleState(Vec2(10.0, 300.0), 7, 60, Sides.Left)
  {
    PaddleState(Vec2(DEFAULT_LEFT_CENTER_X, (SCREEN_HEIGHT / 2) as real), PADDLE_MARGIN, DEFAULT_PADDLE_HEIGHT, Sides.Left)
  }

  /** The paddle `default_right_paddle` builds. */
  function DefaultRightPaddle(): (p: PaddleState)
    ensures p == PaddleState(Vec2(790.0, 300.0), 7, 60, Sides.Right)
  {
    PaddleState(Vec2(DEFAULT_RIGHT_CENTER_X, (SCREEN_HEIGHT / 2) as real), PADDLE_MARGIN, DEFAULT_PADDLE_HEIGHT, Sides.Right)
  }

  /**
    `move_up`: the centre rises by the paddle speed, unless that would take it above the
    top of the screen, in which case the move is dropped entirely.
   */
  function MovedUp(p: PaddleState): (r: PaddleState)
    ensures r.pos.x == p.pos.x && r.width == p.width && r.height == p.height && r.side == p.side
    ensures p.pos.y >= 20.0 ==> r.pos.y == p.pos.y - 20.0
    ensures p.pos.y < 20.0 ==> r == p
  {
    var finalY := p.pos.y - DEFAULT_PADDLE_SPEED;
    if finalY >= 0.0 then p.(pos := p.pos.(y := p.pos.y - DEFAULT_PADDLE_SPEED)) else p
  }

  /** `move_down`: the centre sinks by the paddle speed unless it would pass the bottom. */
  function MovedDown(p: PaddleState): (r: PaddleState)
    ensures r.pos.x == p.pos.x && r.width == p.width && r.height == p.height && r.side == p.side
    ensures p.pos.y <= SCREEN_HEIGHT as real - 20.0 ==> r.pos.y == p.pos.y + 20.0
    ensures p.pos.y > SCREEN_HEIGHT as real - 20.0 ==> r == p
  {
    var finalY := p.pos.y + DEFAULT_PADDLE_SPEED;
    if finalY <= SCREEN_HEIGHT as real then p.(pos := p.pos.(y := p.pos.y + DEFAULT_PADDLE_SPEED)) else p
  }

  /** The centre is between the top and the bottom of the screen (both included). */
  predicate OnScreen(p: PaddleState) {
    0.0 <= p.pos.y <= SCREEN_HEIGHT as real
  }

  /** Neither move takes an on-screen paddle off the screen, nor one off-screen further off. */
  lemma MovesKeepOnScreen(p: PaddleState)
    ensures OnScreen(p) ==> OnScreen(MovedUp(p)) && OnScreen(MovedDown(p))
    ensures MovedUp(p).pos.y < 0.0 ==> MovedUp(p) == p
    ensures MovedDown(p).pos.y > SCREEN_HEIGHT as real ==> MovedDown(p) == p
  {
  }

  /** The paddle after a series of moves, `true` standing for up and `false` for down. */
  function MovedRepeatedly(p: PaddleState, ups: seq<bool>): PaddleState
    decreases |ups|
  {
    if ups == [] then p
    else MovedRepeatedly(if ups[0] then MovedUp(p) else MovedDown(p), ups[1..])
  }

  /**
    However long a series of moves, a paddle that starts on the screen stays on it and keeps
    its x, its size and its side.
   */
  lemma {:induction false} RepeatedMovesStayOnScreen(p: PaddleState, ups: seq<bool>)
    requires OnScreen(p)
    ensures OnScreen(MovedRepeatedly(p, ups))
    ensures var r := MovedRepeatedly(p, ups);
      r.pos.x == p.pos.x && r.width == p.width && r.height == p.height && r.side == p.side
    decreases |ups|
  {
    if ups != [] {
      var next := if ups[0] then MovedUp(p) else MovedDown(p);
      MovesKeepOnScreen(p);
      RepeatedMovesStayOnScreen(next, ups[1..]);
    }
  }

  /**
    A paddle of the scene. Only its centre changes after construction; the source never
    writes the size or the side again, so they are constants here.
   */
  class Paddle {
    var pos: Vec2
    const width: u32
    const height: u32
    const side: Sides

    /** The paddle's current value. */
    function Value(): PaddleState
      reads this
    {
      PaddleState(pos, width, height, side)
    }

    /** `Paddle::new`. */
    constructor (pos: Vec2, width: u32, height: u32, side: Sides)
      ensures Value() == PaddleState(pos, width, height, side)
    {
      this.pos := pos;
      this.width := width;
      this.height := height;
      this.side := side;
    }

    /** `Paddle::default_left_paddle`. */
    constructor DefaultLeft()
      ensures Value() == DefaultLeftPaddle()
    {
      pos := Vec2(DEFAULT_LEFT_CENTER_X, (SCREEN_HEIGHT / 2) as real);
      width := PADDLE_MARGIN;
      height := DEFAULT_PADDLE_HEIGHT;
      side := Sides.Left;
    }

    /** `Paddle::default_right_paddle`. */
    constructor DefaultRight()
      ensures Value() == DefaultRightPaddle()
    {
      pos := Vec2(DEFAULT_RIGHT_CENTER_X, (SCREEN_HEIGHT / 2) as real);
      width := PADDLE_MARGIN;
      height := DEFAULT_PADDLE_HEIGHT;
      side := Sides.Right;
    }

    /** `move_up`, in place. */
    method MoveUp()
      modifies this
      ensures Value() == MovedUp(old(Value()))
    {
      var finalY := pos.y - DEFAULT_PADDLE_SPEED;
      if finalY >= 0.0 {
        pos := pos.(y := pos.y - DEFAULT_PADDLE_SPEED);
      }
    }

    /** `move_down`, in place. */
    method MoveDown()
      modifies this
      ensures Value() == MovedDown(old(Value()))
    {
      var finalY := pos.y + DEFAULT_PADDLE_SPEED;
      if finalY <= SCREEN_HEIGHT as real {
        pos := pos.(y := pos.y + DEFAULT_PADDLE_SPEED);
      }
    }
  }
}
