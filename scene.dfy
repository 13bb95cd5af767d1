/**
  The scene (src/game_and_scene/scene.rs): the paddle columns and the balls, and the
  per-frame update that moves paddles, advances balls, bounces them and finds a winner.
 */
module Scenes {
  import opened Layout
  import opened MathUtils
  import opened Paddles
  import opened Balls
  import opened Operations
  import opened Wrappers

  // ---------------------------------------------------------------------------
  // The frame update on values: the specification of `update_scene`.
  // ---------------------------------------------------------------------------

  /** The left and the right paddle columns, as values. */
  type Columns = (seq<PaddleState>, seq<PaddleState>)

  /**
    The paddle an operation names exists. A `Stay` is discarded before its paddle is looked
    up, so it may name any index; for the others an index out of range makes `unwrap` panic.
   */
  predicate Addressable(op: Operation, nLeft: nat, nRight: nat) {
    op.opType != OperationTypes.Stay ==> op.index < (if op.side == Sides.Left then nLeft else nRight)
  }

  predicate AllAddressable(ops: seq<Operation>, nLeft: nat, nRight: nat) {
    forall k :: 0 <= k < |ops| ==> Addressable(ops[k], nLeft, nRight)
  }

  /** The paddle after one move of the given kind. */
  function Moved(p: PaddleState, t: OperationTypes): PaddleState {
    if t == OperationTypes.Up then MovedUp(p)
    else if t == OperationTypes.Down then MovedDown(p)
    else p
  }

  /** One operation: a `Stay` changes nothing, a move changes the one paddle it addresses. */
  function ApplyOperation(s: Columns, op: Operation): (r: Columns)
    requires Addressable(op, |s.0|, |s.1|)
    ensures |r.0| == |s.0| && |r.1| == |s.1|
    ensures op.opType == OperationTypes.Stay ==> r == s
    ensures forall k :: 0 <= k < |s.0| && !(op.side == Sides.Left && k == op.index) ==> r.0[k] == s.0[k]
    ensures forall k :: 0 <= k < |s.1| && !(op.side == Sides.Right && k == op.index) ==> r.1[k] == s.1[k]
    ensures op.opType != OperationTypes.Stay && op.side == Sides.Left ==>
      r.0[op.index] == Moved(s.0[op.index], op.opType)
    ensures op.opType != OperationTypes.Stay && op.side == Sides.Right ==>
      r.1[op.index] == Moved(s.1[op.index], op.opType)
  {
    if op.opType == OperationTypes.Stay then s
    else if op.side == Sides.Left then (s.0[op.index := Moved(s.0[op.index], op.opType)], s.1)
    else (s.0, s.1[op.index := Moved(s.1[op.index], op.opType)])
  }

  /** The operations in the order `pop` hands them out: last first. */
  function ApplyOperations(s: Columns, ops: seq<Operation>): (r: Columns)
    requires AllAddressable(ops, |s.0|, |s.1|)
    ensures |r.0| == |s.0| && |r.1| == |s.1|
    decreases |ops|
  {
    if ops == [] then s
    else ApplyOperations(ApplyOperation(s, ops[|ops| - 1]), ops[..|ops| - 1])
  }

  /** Popping the last pending operation applies it first; the rest stay addressable. */
  lemma PopStep(s: Columns, pending: seq<Operation>, rest: seq<Operation>, op: Operation)
    requires AllAddressable(pending, |s.0|, |s.1|) && pending == rest + [op]
    ensures Addressable(op, |s.0|, |s.1|) && AllAddressable(rest, |s.0|, |s.1|)
    ensures ApplyOperations(s, pending) == ApplyOperations(ApplyOperation(s, op), rest)
  {
    assert op == pending[|pending| - 1];
    assert rest == pending[..|pending| - 1];
    forall k | 0 <= k < |rest| ensures Addressable(rest[k], |s.0|, |s.1|) {
      assert rest[k] == pending[k];
    }
  }

  /** The operations in the order they were pushed: first first. */
  function ApplyInOrder(s: Columns, ops: seq<Operation>): (r: Columns)
    requires AllAddressable(ops, |s.0|, |s.1|)
    ensures |r.0| == |s.0| && |r.1| == |s.1|
    decreases |ops|
  {
    if ops == [] then s
    else ApplyInOrder(ApplyOperation(s, ops[0]), ops[1..])
  }

  function Reversed(ops: seq<Operation>): (r: seq<Operation>)
    ensures |r| == |ops|
    ensures forall k :: 0 <= k < |ops| ==> r[k] == ops[|ops| - 1 - k]
  {
    seq(|ops|, k requires 0 <= k < |ops| => ops[|ops| - 1 - k])
  }

  /** Draining the vector by `pop` applies the operations in reverse order of pushing. */
  lemma {:induction false} PoppingReverses(s: Columns, ops: seq<Operation>)
    requires AllAddressable(ops, |s.0|, |s.1|)
    ensures AllAddressable(Reversed(ops), |s.0|, |s.1|)
    ensures ApplyOperations(s, ops) == ApplyInOrder(s, Reversed(ops))
    decreases |ops|
  {
    var rev := Reversed(ops);
    assert AllAddressable(rev, |s.0|, |s.1|) by {
      forall k | 0 <= k < |rev| ensures Addressable(rev[k], |s.0|, |s.1|) {
        assert rev[k] == ops[|ops| - 1 - k];
      }
    }
    if ops != [] {
      var last, front := ops[|ops| - 1], ops[..|ops| - 1];
      var s' := ApplyOperation(s, last);
      assert AllAddressable(front, |s'.0|, |s'.1|) by {
        forall k | 0 <= k < |front| ensures Addressable(front[k], |s'.0|, |s'.1|) {
          assert front[k] == ops[k];
        }
      }
      PoppingReverses(s', front);
      assert rev[0] == last;
      assert rev[1..] == Reversed(front);
    }
  }

  /**
    The order matters: a left paddle at height 10 given `[Up, Down]` ends at 10, where the
    same two operations in pushing order would leave it at 30.
   */
  lemma PopOrderMatters()
    ensures var p := PaddleState(Vec2(10.0, 10.0), 7, 60, Sides.Left);
      var ops := [Operation(OperationTypes.Up, Sides.Left, 0), Operation(OperationTypes.Down, Sides.Left, 0)];
      && ApplyOperations(([p], []), ops) == ([p], [])
      && ApplyInOrder(([p], []), ops) == ([p.(pos := Vec2(10.0, 30.0))], [])
  {
    var p := PaddleState(Vec2(10.0, 10.0), 7, 60, Sides.Left);
    var up, down := Operation(OperationTypes.Up, Sides.Left, 0), Operation(OperationTypes.Down, Sides.Left, 0);
    var ops := [up, down];
    var lifted := p.(pos := Vec2(10.0, 30.0));
    assert ops[..1] == [up] && ops[1..] == [down];
    assert [up][..0] == [] && [down][1..] == [];
    assert MovedDown(p) == lifted && MovedUp(lifted) == p && MovedUp(p) == p;
    assert [p][0 := lifted] == [lifted] && [lifted][0 := p] == [p] && [p][0 := p] == [p];
    // popping: Down first, then Up
    assert ApplyOperation(([p], []), down) == ([lifted], []);
    assert ApplyOperation(([lifted], []), up) == ([p], []);
    assert ApplyOperations(([p], []), ops) == ApplyOperations(([lifted], []), [up]);
    assert ApplyOperations(([lifted], []), [up]) == ApplyOperations(([p], []), []);
    // in pushing order: Up is refused at height 10, then Down
    assert ApplyOperation(([p], []), up) == ([p], []);
    assert ApplyInOrder(([p], []), ops) == ApplyInOrder(([p], []), [down]);
    assert ApplyInOrder(([p], []), [down]) == ApplyInOrder(([lifted], []), []);
  }

  /** A radius small enough for every reset of a frame to stay within `u32`. */
  predicate Small(b: BallState) {
    b.radius <= SCREEN_HEIGHT
  }

  /** The top/bottom phase of a ball's frame: top is tested first, bottom only if not top. */
  function EdgeBounced(b: BallState): (r: BallState)
    requires Small(b)
    ensures r.radius == b.radius
  {
    var radius := b.radius as real;
    if b.pos.y - radius < 0.0 then Bounced(b, WithEdge(Top))
    else if b.pos.y + radius > SCREEN_HEIGHT as real then Bounced(b, WithEdge(Bottom))
    else b
  }

  /** The two edge tests are exclusive and made in this order. */
  lemma EdgeTestOrder(b: BallState)
    requires Small(b)
    ensures b.pos.y - b.radius as real < 0.0 ==> EdgeBounced(b) == Bounced(b, WithEdge(Top))
    ensures b.pos.y - b.radius as real >= 0.0 && b.pos.y + b.radius as real > SCREEN_HEIGHT as real ==>
      EdgeBounced(b) == Bounced(b, WithEdge(Bottom))
    ensures b.pos.y - b.radius as real >= 0.0 && b.pos.y + b.radius as real <= SCREEN_HEIGHT as real ==>
      EdgeBounced(b) == b
  {
  }

  /** After the top/bottom phase a ball that fits in the screen's height is inside it. */
  lemma EdgePhaseKeepsBallInside(b: BallState)
    requires 2 * b.radius as int <= SCREEN_HEIGHT as int
    ensures var r := EdgeBounced(b);
      b.radius as real <= r.pos.y <= SCREEN_HEIGHT as real - b.radius as real && r.pos.x == b.pos.x
  {
    var radius := b.radius as real;
    if b.pos.y - radius < 0.0 {
      EdgeBounceWithinScreen(b, Top);
    } else if b.pos.y + radius > SCREEN_HEIGHT as real {
      EdgeBounceWithinScreen(b, Bottom);
    }
  }

  /** One paddle phase: the ball is tested against each paddle in turn and bounces on each hit. */
  function PaddlesBounced(b: BallState, ps: seq<PaddleState>): (r: BallState)
    requires Small(b)
    ensures r.radius == b.radius
    decreases |ps|
  {
    if ps == [] then b
    else
      var before := PaddlesBounced(b, ps[..|ps| - 1]);
      match Collides(before, ps[|ps| - 1])
      case Some(c) => SmallRadiusFits(before, c); Bounced(before, c)
      case None => before
  }

  /**
    A paddle phase leaves the vertical velocity alone and at most reverses the horizontal
    one: each hit flips it, hits are not deduplicated.
   */
  lemma {:induction false} PaddlePhaseVelocity(b: BallState, ps: seq<PaddleState>)
    requires Small(b)
    ensures var r := PaddlesBounced(b, ps);
      r.vel.y == b.vel.y && (r.vel.x == b.vel.x || r.vel.x == -b.vel.x)
    decreases |ps|
  {
    if ps != [] {
      PaddlePhaseVelocity(b, ps[..|ps| - 1]);
    }
  }

  /** A paddle phase in which no paddle is hit leaves the ball as it was. */
  lemma {:induction false} NoHitNoBounce(b: BallState, ps: seq<PaddleState>)
    requires Small(b)
    requires forall k :: 0 <= k < |ps| ==> Collides(b, ps[k]) == None
    ensures PaddlesBounced(b, ps) == b
    decreases |ps|
  {
    if ps != [] {
      NoHitNoBounce(b, ps[..|ps| - 1]);
      assert Collides(b, ps[|ps| - 1]) == None;
    }
  }

  /**
    The default scene stacks its two paddles of a side at the same place. A ball that hits
    them bounces once, not twice: the snap after the first hit takes it clear of the second.
   */
  lemma StackedDefaultPaddlesBounceOnce(b: BallState, p: PaddleState)
    requires Small(b) && (p == DefaultLeftPaddle() || p == DefaultRightPaddle())
    requires Collides(b, p).Some?
    ensures PaddlesBounced(b, [p, p]) == PaddlesBounced(b, [p])
    ensures PaddlesBounced(b, [p, p]).vel == Vec2(-b.vel.x, b.vel.y)
  {
    SmallRadiusFits(b, WithPaddle(p));
    var hit := Bounced(b, WithPaddle(p));
    assert [p, p][..1] == [p] && [p][..0] == [];
    assert PaddlesBounced(b, [p]) == hit;
    PaddleBounceLeavesDefaultPaddle(b, p);
  }

  /** A ball's whole frame: integrate, top/bottom, left paddles, right paddles. */
  function StepBall(b: BallState, cols: Columns): (r: BallState)
    requires Small(b)
    ensures r.radius == b.radius
  {
    PaddlesBounced(PaddlesBounced(EdgeBounced(Integrated(b)), cols.0), cols.1)
  }

  /**
    A ball away from the edges and the paddles moves by exactly its velocity: the frame
    integrates each ball once.
   */
  lemma FreeFlight(b: BallState, cols: Columns)
    requires Small(b)
    requires var m := Integrated(b);
      0.0 <= m.pos.y - m.radius as real && m.pos.y + m.radius as real <= SCREEN_HEIGHT as real
    requires forall k :: 0 <= k < |cols.0| ==> Collides(Integrated(b), cols.0[k]) == None
    requires forall k :: 0 <= k < |cols.1| ==> Collides(Integrated(b), cols.1[k]) == None
    ensures StepBall(b, cols) == Integrated(b)
  {
    var m := Integrated(b);
    EdgeTestOrder(m);
    NoHitNoBounce(m, cols.0);
    NoHitNoBounce(m, cols.1);
  }

  function StepBalls(bs: seq<BallState>, cols: Columns): (r: seq<BallState>)
    requires forall k :: 0 <= k < |bs| ==> Small(bs[k])
    ensures |r| == |bs| && forall k :: 0 <= k < |bs| ==> r[k] == StepBall(bs[k], cols)
  {
    seq(|bs|, k requires 0 <= k < |bs| => StepBall(bs[k], cols))
  }

  /** The side that wins when this ball has fully left the screen on the other side. */
  function ExitSide(b: BallState): (s: Option<Sides>)
    ensures s == Some(Sides.Right) <==> b.pos.x + b.radius as real < 0.0
    ensures s == Some(Sides.Left) <==>
      b.pos.x + b.radius as real >= 0.0 && b.pos.x - b.radius as real > SCREEN_WIDTH as real
  {
    var radius := b.radius as real;
    if b.pos.x + radius < 0.0 then Some(Sides.Right)
    else if b.pos.x - radius > SCREEN_WIDTH as real then Some(Sides.Left)
    else None
  }

  /** The winner of a frame: the exit of the last ball, in scene order, that left the screen. */
  function LastWinner(bs: seq<BallState>): Option<Sides>
    decreases |bs|
  {
    if bs == [] then None
    else if ExitSide(bs[|bs| - 1]).Some? then ExitSide(bs[|bs| - 1])
    else LastWinner(bs[..|bs| - 1])
  }

  /** One more ball: its exit, if any, overrides the winner so far. */
  lemma LastWinnerStep(bs: seq<BallState>, i: nat)
    requires i < |bs|
    ensures LastWinner(bs[..i + 1]) == if ExitSide(bs[i]).Some? then ExitSide(bs[i]) else LastWinner(bs[..i])
  {
    assert bs[..i + 1][..i] == bs[..i];
  }

  /** Last write wins: the winner is that of the last exiting ball, and none if none exits. */
  lemma {:induction false} LastWinnerIsLastExit(bs: seq<BallState>, s: Sides)
    ensures LastWinner(bs) == Some(s) <==>
      exists i :: 0 <= i < |bs| && ExitSide(bs[i]) == Some(s) &&
                  forall j :: i < j < |bs| ==> ExitSide(bs[j]) == None
    ensures LastWinner(bs) == None <==> forall i :: 0 <= i < |bs| ==> ExitSide(bs[i]) == None
    decreases |bs|
  {
    if bs != [] {
      var n := |bs| - 1;
      var front := bs[..n];
      LastWinnerIsLastExit(front, s);
      assert forall i :: 0 <= i < n ==> front[i] == bs[i];
      if ExitSide(bs[n]).Some? {
      } else {
        if LastWinner(front) == Some(s) {
          var i :| 0 <= i < |front| && ExitSide(front[i]) == Some(s) &&
                   forall j :: i < j < |front| ==> ExitSide(front[j]) == None;
          assert forall j :: i < j < |bs| ==> ExitSide(bs[j]) == None;
        }
        if exists i :: 0 <= i < |bs| && ExitSide(bs[i]) == Some(s) &&
                       forall j :: i < j < |bs| ==> ExitSide(bs[j]) == None {
          var i :| 0 <= i < |bs| && ExitSide(bs[i]) == Some(s) &&
                   forall j :: i < j < |bs| ==> ExitSide(bs[j]) == None;
          assert i < n;
          assert forall j :: i < j < |front| ==> ExitSide(front[j]) == None;
        }
      }
    }
  }

  /**
    A ball at x = 12, five pixels right of the paddle margin, moving left at 2 pixels per
    frame, reaches x = 10, inside the default left paddle; it reverses and is snapped to
    x = 17.
   */
  lemma PaddleBounceScenario()
    ensures var b := BallState(Vec2(12.0, 300.0), Vec2(-2.0, 0.0), 3);
      var cols := ([DefaultLeftPaddle()], [DefaultRightPaddle()]);
      StepBall(b, cols) == BallState(Vec2(17.0, 300.0), Vec2(2.0, 0.0), 3)
      && LastWinner([StepBall(b, cols)]) == None
  {
    var b := BallState(Vec2(12.0, 300.0), Vec2(-2.0, 0.0), 3);
    var m := Integrated(b);
    assert EdgeBounced(m) == m;
    var l := [DefaultLeftPaddle()];
    assert l[..0] == [];
    assert PaddlesBounced(m, []) == m;
    assert Collides(m, l[0]) == Some(WithPaddle(DefaultLeftPaddle()));
    var hit := Bounced(m, WithPaddle(DefaultLeftPaddle()));
    assert PaddlesBounced(m, l) == hit;
    var r := [DefaultRightPaddle()];
    assert r[..0] == [];
    assert PaddlesBounced(hit, r) == hit;
  }

  /** A ball whose right edge ends the frame left of x = 0 makes the right side the winner. */
  lemma LeftExitScenario()
    ensures var b := BallState(Vec2(-1.0, 300.0), Vec2(-3.0, 0.0), 3);
      var cols := ([DefaultLeftPaddle()], [DefaultRightPaddle()]);
      StepBall(b, cols).pos == Vec2(-4.0, 300.0)
      && LastWinner([StepBall(b, cols)]) == Some(Sides.Right)
  {
    var b := BallState(Vec2(-1.0, 300.0), Vec2(-3.0, 0.0), 3);
    var cols := ([DefaultLeftPaddle()], [DefaultRightPaddle()]);
    FreeFlight(b, cols);
    var bs := [StepBall(b, cols)];
    assert bs[..0] == [];
  }

  // ---------------------------------------------------------------------------
  // The scene object.
  // ---------------------------------------------------------------------------

  ghost predicate Distinct<T>(s: seq<T>) {
    forall i, j :: 0 <= i < j < |s| ==> s[i] != s[j]
  }

  ghost predicate Disjoint<T>(a: seq<T>, b: seq<T>) {
    forall i, j :: 0 <= i < |a| && 0 <= j < |b| ==> a[i] != b[j]
  }

  lemma DistinctConcat<T>(a: seq<T>, b: seq<T>)
    requires Distinct(a) && Distinct(b) && Disjoint(a, b)
    ensures Distinct(a + b)
  {
    forall i, j | 0 <= i < j < |a + b| ensures (a + b)[i] != (a + b)[j] {
      if j < |a| {
      } else if i < |a| {
        assert (a + b)[i] == a[i] && (a + b)[j] == b[j - |a|];
      } else {
        assert (a + b)[i] == b[i - |a|] && (a + b)[j] == b[j - |a|];
      }
    }
  }

  lemma DisjointConcat<T>(a: seq<T>, b: seq<T>, c: seq<T>)
    requires Disjoint(a, c) && Disjoint(b, c)
    ensures Disjoint(a + b, c) && Disjoint(c, a + b)
  {
    forall i, j | 0 <= i < |a + b| && 0 <= j < |c| ensures (a + b)[i] != c[j] {
      if i >= |a| {
        assert (a + b)[i] == b[i - |a|];
      }
    }
  }

  /** The values of a sequence of paddles. */
  function PaddleStates(ps: seq<Paddle>): (r: seq<PaddleState>)
    reads ps
    ensures |r| == |ps| && forall k :: 0 <= k < |ps| ==> r[k] == ps[k].Value()
  {
    seq(|ps|, k requires 0 <= k < |ps| reads ps => ps[k].Value())
  }

  /**
    The values of a sequence of balls: the comprehension of `PaddleStates` again, for the
    other class, since paddles and balls share no common type.
   */
  function BallStatesOf(bs: seq<Ball>): (r: seq<BallState>)
    reads bs
    ensures |r| == |bs| && forall k :: 0 <= k < |bs| ==> r[k] == bs[k].Value()
  {
    seq(|bs|, k requires 0 <= k < |bs| reads bs => bs[k].Value())
  }

  /**
    The scene. The source's vectors own their paddles and balls, so no paddle or ball
    appears twice, and no paddle is in both columns.
   */
  class Scene {
    var leftPaddles: seq<Paddle>
    var rightPaddles: seq<Paddle>
    var balls: seq<Ball>

    ghost predicate Valid()
      reads this
    {
      Distinct(leftPaddles) && Distinct(rightPaddles) && Distinct(balls) && Disjoint(leftPaddles, rightPaddles)
    }

    /** The two paddle columns, as values. */
    function Columns(): Columns
      reads this, leftPaddles, rightPaddles
    {
      (PaddleStates(leftPaddles), PaddleStates(rightPaddles))
    }

    /** The balls, as values. */
    function BallStates(): seq<BallState>
      reads this, balls
    {
      BallStatesOf(balls)
    }

    /** `Scene::default()`: no paddles and no balls. */
    constructor ()
      ensures Valid() && leftPaddles == [] && rightPaddles == [] && balls == []
    {
      leftPaddles, rightPaddles, balls := [], [], [];
    }

    /**
      `construct_default_scene_with_2_balls`: two default paddles per side and two centred
      balls; the random launch vectors are given by the caller.
     */
    constructor DefaultWith2Balls(launch1: Vec2, launch2: Vec2)
      ensures Valid()
      ensures |leftPaddles| == 2 && |rightPaddles| == 2 && |balls| == 2
      ensures fresh(leftPaddles[0]) && fresh(leftPaddles[1]) && fresh(rightPaddles[0]) && fresh(rightPaddles[1])
      ensures fresh(balls[0]) && fresh(balls[1])
      ensures Columns() == ([DefaultLeftPaddle(), DefaultLeftPaddle()], [DefaultRightPaddle(), DefaultRightPaddle()])
      ensures BallStates() == [BallState(Vec2(400.0, 300.0), launch1, 3), BallState(Vec2(400.0, 300.0), launch2, 3)]
    {
      var ls := TwoDefaultLeftPaddles();
      var rs := TwoDefaultRightPaddles();
      var bs := TwoCenteredBalls(launch1, launch2);
      assert PaddleStates(ls) == [DefaultLeftPaddle(), DefaultLeftPaddle()];
      assert PaddleStates(rs) == [DefaultRightPaddle(), DefaultRightPaddle()];
      assert Disjoint(ls, rs) by {
        assert ls[0] != rs[0] && ls[0] != rs[1] && ls[1] != rs[0] && ls[1] != rs[1];
      }
      leftPaddles, rightPaddles, balls := ls, rs, bs;
    }

    /** `add_balls`: the given balls are appended, in order. */
    method AddBalls(bs: seq<Ball>)
      requires Valid() && Distinct(bs) && Disjoint(balls, bs)
      modifies this
      ensures Valid()
      ensures balls == old(balls) + bs
      ensures leftPaddles == old(leftPaddles) && rightPaddles == old(rightPaddles)
    {
      DistinctConcat(balls, bs);
      balls := balls + bs;
    }

    /** `clear_balls`. */
    method ClearBalls()
      requires Valid()
      modifies this
      ensures Valid() && balls == [] && HasNoBalls()
      ensures leftPaddles == old(leftPaddles) && rightPaddles == old(rightPaddles)
    {
      balls := [];
    }

    /** `reset_balls`: clear, then add; exactly the given balls remain. */
    method ResetBalls(bs: seq<Ball>)
      requires Valid() && Distinct(bs)
      modifies this
      ensures Valid() && balls == bs
      ensures leftPaddles == old(leftPaddles) && rightPaddles == old(rightPaddles)
    {
      ClearBalls();
      AddBalls(bs);
    }

    /** `add_left_paddles`: the given paddles are appended, in order. */
    method AddLeftPaddles(ps: seq<Paddle>)
      requires Valid() && Distinct(ps) && Disjoint(leftPaddles, ps) && Disjoint(ps, rightPaddles)
      modifies this
      ensures Valid()
      ensures leftPaddles == old(leftPaddles) + ps
      ensures rightPaddles == old(rightPaddles) && balls == old(balls)
    {
      DistinctConcat(leftPaddles, ps);
      DisjointConcat(leftPaddles, ps, rightPaddles);
      leftPaddles := leftPaddles + ps;
    }

    /** `add_right_paddles`: the given paddles are appended, in order. */
    method AddRightPaddles(ps: seq<Paddle>)
      requires Valid() && Distinct(ps) && Disjoint(rightPaddles, ps) && Disjoint(leftPaddles, ps)
      modifies this
      ensures Valid()
      ensures rightPaddles == old(rightPaddles) + ps
      ensures leftPaddles == old(leftPaddles) && balls == old(balls)
    {
      DistinctConcat(rightPaddles, ps);
      DisjointConcat(rightPaddles, ps, leftPaddles);
      rightPaddles := rightPaddles + ps;
    }

    /** `clear_left_paddles`. */
    method ClearLeftPaddles()
      requires Valid()
      modifies this
      ensures Valid() && leftPaddles == [] && HasNoLeftPaddles()
      ensures rightPaddles == old(rightPaddles) && balls == old(balls)
    {
      leftPaddles := [];
    }

    /** `clear_right_paddles`. */
    method ClearRightPaddles()
      requires Valid()
      modifies this
      ensures Valid() && rightPaddles == [] && HasNoRightPaddles()
      ensures leftPaddles == old(leftPaddles) && balls == old(balls)
    {
      rightPaddles := [];
    }

    /** `reset_left_paddles`: exactly the given paddles remain on the left. */
    method ResetLeftPaddles(ps: seq<Paddle>)
      requires Valid() && Distinct(ps) && Disjoint(ps, rightPaddles)
      modifies this
      ensures Valid() && leftPaddles == ps
      ensures rightPaddles == old(rightPaddles) && balls == old(balls)
    {
      ClearLeftPaddles();
      AddLeftPaddles(ps);
    }

    /** `reset_right_paddles`: exactly the given paddles remain on the right. */
    method ResetRightPaddles(ps: seq<Paddle>)
      requires Valid() && Distinct(ps) && Disjoint(leftPaddles, ps)
      modifies this
      ensures Valid() && rightPaddles == ps
      ensures leftPaddles == old(leftPaddles) && balls == old(balls)
    {
      ClearRightPaddles();
      AddRightPaddles(ps);
    }

    /** `clear_paddles`: both columns. */
    method ClearPaddles()
      requires Valid()
      modifies this
      ensures Valid() && leftPaddles == [] && rightPaddles == []
      ensures balls == old(balls)
    {
      ClearLeftPaddles();
      ClearRightPaddles();
    }

    function HasNoLeftPaddles(): (r: bool)
      reads this
      ensures r <==> |leftPaddles| == 0
    {
      leftPaddles == []
    }

    function HasNoRightPaddles(): (r: bool)
      reads this
      ensures r <==> |rightPaddles| == 0
    {
      rightPaddles == []
    }

    function HasNoBalls(): (r: bool)
      reads this
      ensures r <==> |balls| == 0
    {
      balls == []
    }

    /** What `update_scene` demands: every move names an existing paddle, every ball is small. */
    ghost predicate CanUpdate(ops: seq<Operation>)
      reads this
    {
      && AllAddressable(ops, |leftPaddles|, |rightPaddles|)
      && forall k :: 0 <= k < |balls| ==> balls[k].radius <= SCREEN_HEIGHT
    }

    /** A move of the paddle an operation addresses (the body of `update_scene`'s first loop). */
    method MovePaddle(op: Operation)
      requires Valid() && Addressable(op, |leftPaddles|, |rightPaddles|) && op.opType != OperationTypes.Stay
      modifies leftPaddles, rightPaddles
      ensures Columns() == ApplyOperation(old(Columns()), op)
    {
      var paddle := if op.side == Sides.Left then leftPaddles[op.index] else rightPaddles[op.index];
      if op.opType == OperationTypes.Up {
        paddle.MoveUp();
      } else {
        paddle.MoveDown();
      }
      var after := ApplyOperation(old(Columns()), op);
      forall k | 0 <= k < |leftPaddles| ensures Columns().0[k] == after.0[k] {
        if !(op.side == Sides.Left && k == op.index) {
          assert leftPaddles[k] != paddle;
          assert leftPaddles[k].Value() == old(leftPaddles[k].Value());
        }
      }
      forall k | 0 <= k < |rightPaddles| ensures Columns().1[k] == after.1[k] {
        if !(op.side == Sides.Right && k == op.index) {
          assert rightPaddles[k] != paddle;
          assert rightPaddles[k].Value() == old(rightPaddles[k].Value());
        }
      }
      assert Columns().0 == after.0;
      assert Columns().1 == after.1;
    }

    /** `update_scene`'s first loop: pop every operation and apply it. */
    method ApplyPendingOperations(ops: PendingOps)
      requires Valid() && AllAddressable(ops.items, |leftPaddles|, |rightPaddles|)
      modifies leftPaddles, rightPaddles, ops
      ensures ops.items == []
      ensures Columns() == ApplyOperations(old(Columns()), old(ops.items))
    {
      while true
        invariant AllAddressable(ops.items, |leftPaddles|, |rightPaddles|)
        invariant ApplyOperations(old(Columns()), old(ops.items)) == ApplyOperations(Columns(), ops.items)
        decreases |ops.items|
      {
        ghost var pending := ops.items;
        var next := ops.Pop();
        if next.None? {
          break;
        }
        var op := next.value;
        PopStep(Columns(), pending, ops.items, op);
        if op.opType == OperationTypes.Stay {
          continue;
        }
        MovePaddle(op);
      }
    }

    /**
      The body of `update_scene`'s loop over the balls, for ball i: its frame, then the
      winner test, which overrides the winner so far if the ball has left the screen. The
      other balls stay as they were.
     */
    method AdvanceBall(i: nat, winner: Option<Sides>) returns (winner': Option<Sides>)
      requires Valid() && i < |balls| && balls[i].radius <= SCREEN_HEIGHT
      modifies balls[i]
      ensures Columns() == old(Columns())
      ensures balls[i].Value() == StepBall(old(balls[i].Value()), Columns())
      ensures forall k :: 0 <= k < |balls| && k != i ==> balls[k].Value() == old(balls[k].Value())
      ensures winner' == if ExitSide(balls[i].Value()).Some? then ExitSide(balls[i].Value()) else winner
    {
      var ball := balls[i];
      Advance(ball, leftPaddles, rightPaddles);
      forall k | 0 <= k < |balls| && k != i ensures balls[k].Value() == old(balls[k].Value()) {
        assert balls[k] != ball;
      }
      var radius := ball.radius as real;
      winner' := winner;
      // has the ball left the screen?
      if ball.pos.x + radius < 0.0 {
        winner' := Some(Sides.Right);
      } else if ball.pos.x - radius > SCREEN_WIDTH as real {
        winner' := Some(Sides.Left);
      }
    }

    /** `update_scene`'s loop over the balls, with the winner it records. */
    method AdvanceBalls() returns (winner: Option<Sides>)
      requires Valid() && forall k :: 0 <= k < |balls| ==> balls[k].radius <= SCREEN_HEIGHT
      modifies balls
      ensures Columns() == old(Columns())
      ensures forall k :: 0 <= k < |old(BallStates())| ==> Small(old(BallStates())[k])
      ensures BallStates() == StepBalls(old(BallStates()), Columns())
      ensures winner == LastWinner(BallStates())
    {
      ghost var cols := Columns();
      ghost var before := BallStates();
      ghost var target := StepBalls(before, cols);
      winner := None;
      for i := 0 to |balls|
        invariant Columns() == cols
        invariant forall k :: 0 <= k < i ==> balls[k].Value() == target[k]
        invariant forall k :: i <= k < |balls| ==> balls[k].Value() == before[k]
        invariant winner == LastWinner(target[..i])
      {
        winner := AdvanceBall(i, winner);
        assert balls[i].Value() == target[i];
        LastWinnerStep(target, i);
      }
      assert target[..|balls|] == target;
    }

    /**
      `update_scene`: drain the operations by popping and apply them; then step every ball
      in order against the moved paddles; the winner is that of the last ball to exit.
     */
    method UpdateScene(ops: PendingOps) returns (winner: Option<Sides>)
      requires Valid() && CanUpdate(ops.items)
      modifies leftPaddles, rightPaddles, balls, ops
      ensures leftPaddles == old(leftPaddles) && rightPaddles == old(rightPaddles) && balls == old(balls)
      ensures ops.items == []
      ensures Columns() == ApplyOperations(old(Columns()), old(ops.items))
      ensures forall k :: 0 <= k < |old(BallStates())| ==> Small(old(BallStates())[k])
      ensures BallStates() == StepBalls(old(BallStates()), Columns())
      ensures winner == LastWinner(BallStates())
    {
      ghost var before := BallStates();
      ApplyPendingOperations(ops);
      assert BallStates() == before;
      ghost var cols := Columns();
      winner := AdvanceBalls();
      assert Columns() == cols;
    }
  }

  /** `vec![Paddle::default_left_paddle(), Paddle::default_left_paddle()]`. */
  method TwoDefaultLeftPaddles() returns (ps: seq<Paddle>)
    ensures |ps| == 2 && fresh(ps[0]) && fresh(ps[1]) && Distinct(ps)
    ensures PaddleStates(ps) == [DefaultLeftPaddle(), DefaultLeftPaddle()]
  {
    var p0 := new Paddle.DefaultLeft();
    var p1 := new Paddle.DefaultLeft();
    ps := [p0, p1];
  }

  /** `vec![Paddle::default_right_paddle(), Paddle::default_right_paddle()]`. */
  method TwoDefaultRightPaddles() returns (ps: seq<Paddle>)
    ensures |ps| == 2 && fresh(ps[0]) && fresh(ps[1]) && Distinct(ps)
    ensures PaddleStates(ps) == [DefaultRightPaddle(), DefaultRightPaddle()]
  {
    var p0 := new Paddle.DefaultRight();
    var p1 := new Paddle.DefaultRight();
    ps := [p0, p1];
  }

  /** `vec![Ball::random_centered_ball(rng), Ball::random_centered_ball(rng)]`, with the launch vectors given. */
  method TwoCenteredBalls(launch1: Vec2, launch2: Vec2) returns (bs: seq<Ball>)
    ensures |bs| == 2 && fresh(bs[0]) && fresh(bs[1]) && Distinct(bs)
    ensures BallStatesOf(bs) == [BallState(Vec2(400.0, 300.0), launch1, 3), BallState(Vec2(400.0, 300.0), launch2, 3)]
  {
    var b0 := new Ball.RandomCentered(launch1);
    var b1 := new Ball.RandomCentered(launch2);
    bs := [b0, b1];
  }

  /**
    One ball's frame in `update_scene`: integrate; bounce off the top or else the bottom;
    then test the left paddles and the right paddles in order.
   */
  method Advance(ball: Ball, lefts: seq<Paddle>, rights: seq<Paddle>)
    requires ball.radius <= SCREEN_HEIGHT
    modifies ball
    ensures Small(old(ball.Value()))
    ensures ball.Value() == StepBall(old(ball.Value()), (PaddleStates(lefts), PaddleStates(rights)))
  {
    ball.UpdatePos();
    var radius := ball.radius as real;
    // the top and bottom edges
    if ball.pos.y - radius < 0.0 {
      ball.BounceAfterCollision(WithEdge(Top));
    } else if ball.pos.y + radius > SCREEN_HEIGHT as real {
      ball.BounceAfterCollision(WithEdge(Bottom));
    }
    BounceOffPaddles(ball, lefts);
    BounceOffPaddles(ball, rights);
  }

  /** The loops of `update_scene` over one paddle column: bounce on every paddle hit. */
  method BounceOffPaddles(ball: Ball, paddles: seq<Paddle>)
    requires ball.radius <= SCREEN_HEIGHT
    modifies ball
    ensures Small(old(ball.Value()))
    ensures ball.Value() == PaddlesBounced(old(ball.Value()), PaddleStates(paddles))
  {
    ghost var states := PaddleStates(paddles);
    for j := 0 to |paddles|
      invariant ball.Value() == PaddlesBounced(old(ball.Value()), states[..j])
    {
      assert states[..j + 1][..j] == states[..j];
      match ball.CollidesWith(paddles[j]) {
        case Some(collision) =>
          SmallRadiusFits(ball.Value(), collision);
          ball.BounceAfterCollision(collision);
        case None =>
      }
    }
    assert states[..|paddles|] == states;
  }
}
