/**
  The game (src/game_and_scene/game.rs): a scene, a running/paused state and the two
  scores, with the start checks and the per-frame update that scores a round.
 */
module Games {
  import opened MathUtils
  import opened Paddles
  import opened Balls
  import opened Operations
  import opened Scenes
  import opened Wrappers

  datatype GameState = Paused | Running

  type Scores = (nat, nat)

  // ---------------------------------------------------------------------------
  // Starting and scoring, on values.
  // ---------------------------------------------------------------------------

  const NO_BALL_ERROR := "Error: you cannot start a game without a ball."
  const NO_LEFT_PADDLE_ERROR := "Error: you cannot start a game without a left paddle."
  const NO_RIGHT_PADDLE_ERROR := "Error: you cannot start a game without a right paddle."

  /**
    The checks of `start`, in their order: a ball first, then a left paddle, then a right
    paddle. A game can start exactly when the scene has all three.
   */
  function StartCheck(nBalls: nat, nLeft: nat, nRight: nat): (r: Result<(), string>)
    ensures r.Ok? <==> nBalls > 0 && nLeft > 0 && nRight > 0
    ensures r.Err? ==> r.error in {NO_BALL_ERROR, NO_LEFT_PADDLE_ERROR, NO_RIGHT_PADDLE_ERROR}
  {
    if nBalls == 0 then Err(NO_BALL_ERROR)
    else if nLeft == 0 then Err(NO_LEFT_PADDLE_ERROR)
    else if nRight == 0 then Err(NO_RIGHT_PADDLE_ERROR)
    else Ok(())
  }

  /** The error reported names the first missing kind of object, whatever else is missing. */
  lemma StartReportsFirstMissing(nBalls: nat, nLeft: nat, nRight: nat)
    ensures nBalls == 0 ==> StartCheck(nBalls, nLeft, nRight) == Err(NO_BALL_ERROR)
    ensures nBalls > 0 && nLeft == 0 ==> StartCheck(nBalls, nLeft, nRight) == Err(NO_LEFT_PADDLE_ERROR)
    ensures nBalls > 0 && nLeft > 0 && nRight == 0 ==> StartCheck(nBalls, nLeft, nRight) == Err(NO_RIGHT_PADDLE_ERROR)
  {
  }

  /** The three error messages are different, so the message tells which object is missing. */
  lemma StartErrorsDiffer()
    ensures NO_BALL_ERROR != NO_LEFT_PADDLE_ERROR
    ensures NO_BALL_ERROR != NO_RIGHT_PADDLE_ERROR
    ensures NO_LEFT_PADDLE_ERROR != NO_RIGHT_PADDLE_ERROR
  {
    assert NO_BALL_ERROR[41] == 'b' && NO_LEFT_PADDLE_ERROR[41] == 'l' && NO_RIGHT_PADDLE_ERROR[41] == 'r';
  }

  /**
    The scores after a round with the given winner: the winner gains one point, the other
    side none; without a winner nothing changes.
   */
  function AfterRound(scores: Scores, winner: Option<Sides>): (r: Scores)
    ensures r.0 >= scores.0 && r.1 >= scores.1
    ensures r.0 + r.1 == scores.0 + scores.1 + (if winner.Some? then 1 else 0)
    ensures winner == Some(Sides.Left) ==> r.1 == scores.1
    ensures winner == Some(Sides.Right) ==> r.0 == scores.0
  {
    match winner
    case None => scores
    case Some(side) => if side == Sides.Left then (scores.0 + 1, scores.1) else (scores.0, scores.1 + 1)
  }

  /** The scores after a series of rounds, oldest first. */
  function AfterRounds(scores: Scores, winners: seq<Option<Sides>>): Scores
    decreases |winners|
  {
    if winners == [] then scores
    else AfterRounds(AfterRound(scores, winners[0]), winners[1..])
  }

  /** How many of the rounds the given side won. */
  function Wins(winners: seq<Option<Sides>>, side: Sides): nat
    decreases |winners|
  {
    if winners == [] then 0
    else (if winners[0] == Some(side) then 1 else 0) + Wins(winners[1..], side)
  }

  /** Over any series of rounds each score grows by exactly that side's number of wins. */
  lemma {:induction false} ScoresCountWins(scores: Scores, winners: seq<Option<Sides>>)
    ensures AfterRounds(scores, winners).0 == scores.0 + Wins(winners, Sides.Left)
    ensures AfterRounds(scores, winners).1 == scores.1 + Wins(winners, Sides.Right)
    decreases |winners|
  {
    if winners != [] {
      ScoresCountWins(AfterRound(scores, winners[0]), winners[1..]);
    }
  }

  /** The state after a round: a winner pauses the game, otherwise it keeps running. */
  function StateAfterRound(winner: Option<Sides>): (r: GameState)
    ensures r == Paused <==> winner.Some?
  {
    if winner.Some? then Paused else Running
  }

  // ---------------------------------------------------------------------------
  // The game object.
  // ---------------------------------------------------------------------------

  class Game {
    var state: GameState
    var scene: Scene
    var scores: Scores

    ghost predicate Valid()
      reads this, scene
    {
      scene.Valid()
    }

    /** `Game::new`: paused, no points, an empty scene. */
    constructor ()
      ensures Valid() && fresh(scene)
      ensures state == Paused && scores == (0, 0)
      ensures scene.leftPaddles == [] && scene.rightPaddles == [] && scene.balls == []
    {
      state := Paused;
      scene := new Scene();
      scores := (0, 0);
    }

    /** `set_state`. */
    method SetState(s: GameState)
      modifies this
      ensures state == s && scene == old(scene) && scores == old(scores)
    {
      state := s;
    }

    /** `set_scene`: the game takes the scene over. */
    method SetScene(s: Scene)
      requires s.Valid()
      modifies this
      ensures Valid() && scene == s && state == old(state) && scores == old(scores)
    {
      scene := s;
    }

    /** `set_scores`. */
    method SetScores(s: Scores)
      modifies this
      ensures scores == s && scene == old(scene) && state == old(state)
    {
      scores := s;
    }

    /**
      `start`: refuses, with a message naming what is missing, a scene without a ball, a
      left paddle or a right paddle; otherwise the game runs. A refusal changes nothing.
     */
    method Start() returns (r: Result<(), string>)
      modifies this
      ensures r == StartCheck(|scene.balls|, |scene.leftPaddles|, |scene.rightPaddles|)
      ensures r.Ok? ==> state == Running
      ensures r.Err? ==> state == old(state)
      ensures scene == old(scene) && scores == old(scores)
    {
      if scene.HasNoBalls() {
        return Err(NO_BALL_ERROR);
      } else if scene.HasNoLeftPaddles() {
        return Err(NO_LEFT_PADDLE_ERROR);
      } else if scene.HasNoRightPaddles() {
        return Err(NO_RIGHT_PADDLE_ERROR);
      }
      state := Running;
      r := Ok(());
    }

    /**
      `update`: while paused nothing happens and no one wins. While running the scene is
      updated; a winner pauses the game and earns a point.
     */
    method Update(ops: PendingOps) returns (winner: Option<Sides>)
      requires Valid() && (state == Running ==> scene.CanUpdate(ops.items))
      modifies this, scene.leftPaddles, scene.rightPaddles, scene.balls, ops
      ensures Valid() && scene == old(scene)
      ensures old(state) == Paused ==>
        && winner == None && state == Paused && scores == old(scores)
        && ops.items == old(ops.items)
        && scene.Columns() == old(scene.Columns()) && scene.BallStates() == old(scene.BallStates())
      ensures old(state) == Running ==>
        && ops.items == []
        && scene.Columns() == ApplyOperations(old(scene.Columns()), old(ops.items))
        && scene.BallStates() == StepBalls(old(scene.BallStates()), scene.Columns())
        && winner == LastWinner(scene.BallStates())
        && scores == AfterRound(old(scores), winner)
        && state == StateAfterRound(winner)
    {
      if state == Running {
        winner := scene.UpdateScene(ops);
        EndRound(winner);
      } else {
        winner := None;
      }
    }

    /** The end of `update`'s running branch: a winner pauses the game and earns a point. */
    method EndRound(winner: Option<Sides>)
      modifies this
      ensures scene == old(scene)
      ensures scores == AfterRound(old(scores), winner)
      ensures state == (if winner.Some? then StateAfterRound(winner) else old(state))
    {
      if winner.Some? {
        state := Paused;
        if winner.value == Sides.Left {
          scores := (scores.0 + 1, scores.1);
        } else {
          scores := (scores.0, scores.1 + 1);
        }
      }
    }

    /** `get_left_paddle_count`: zero exactly when the scene has no left paddle. */
    function LeftPaddleCount(): (n: nat)
      reads this, scene
      ensures n == 0 <==> scene.HasNoLeftPaddles()
    {
      |scene.leftPaddles|
    }

    /** `get_right_paddle_count`: zero exactly when the scene has no right paddle. */
    function RightPaddleCount(): (n: nat)
      reads this, scene
      ensures n == 0 <==> scene.HasNoRightPaddles()
    {
      |scene.rightPaddles|
    }

    /**
      `start_default_game_with_2_balls`: the default two-ball scene always passes the start
      checks, so the game runs. The random launch vectors are given by the caller.
     */
    method StartDefaultGameWith2Balls(launch1: Vec2, launch2: Vec2)
      modifies this
      ensures Valid() && fresh(scene) && state == Running && scores == old(scores)
      ensures |scene.leftPaddles| == 2 && |scene.rightPaddles| == 2 && |scene.balls| == 2
      ensures fresh(scene.leftPaddles[0]) && fresh(scene.leftPaddles[1])
      ensures fresh(scene.rightPaddles[0]) && fresh(scene.rightPaddles[1])
      ensures fresh(scene.balls[0]) && fresh(scene.balls[1])
      ensures scene.Columns() == ([DefaultLeftPaddle(), DefaultLeftPaddle()], [DefaultRightPaddle(), DefaultRightPaddle()])
      ensures scene.BallStates() == [BallState(Vec2(400.0, 300.0), launch1, 3), BallState(Vec2(400.0, 300.0), launch2, 3)]
    {
      scene := new Scene.DefaultWith2Balls(launch1, launch2);
      var r := Start();
      assert r.Ok?;
    }
  }
}
