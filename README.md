# rust-pong: the simulation layer, modelled and proved in Dafny

This project models the frame-stepped simulation of a two-sided pong game. Paddles move up
and down in fixed steps. Balls advance once per frame, bounce off the top and bottom edges
and off the paddles, and a ball that fully leaves the screen through the left or right
side gives the round to the opposite side. A game holds a scene, a paused/running state
and the two scores.

Layout, one module per source file:

| module | file | source |
|---|---|---|
| `Layout` | `layout.dfy` | the constants of `scene.rs`, `paddle.rs`, `ball.rs`; `Edges` |
| `MathUtils` | `vec2.dfy` | `src/math_utils/vec2.rs` |
| `Paddles` | `paddle.dfy` | `src/game_and_scene/paddle.rs` |
| `Balls` | `ball.dfy` | `src/game_and_scene/ball.rs` |
| `Operations` | `operation.dfy` | `src/game_and_scene/operation.rs`, and the caller's operation vector |
| `Scenes` | `scene.dfy` | `src/game_and_scene/scene.rs` |
| `Games` | `game.dfy` | `src/game_and_scene/game.rs` |
| `Wrappers` | `wrappers.dfy` | `Option` and `Result` |

How it is modelled:

- The source changes paddles, balls, scenes and games in place through `&mut self`. So
  `Paddle`, `Ball`, `Scene` and `Game` are classes, and their methods carry `modifies`
  clauses.
- `Paddle` and `Ball` have value views, the datatypes `PaddleState` and `BallState`. Each
  in-place method is proved against a pure function of the old view. For example,
  `MoveUp` ends with `Value() == MovedUp(old(Value()))`, and the paddle properties are
  lemmas about `MovedUp`.
- `Scene` owns three sequences of objects. `Scene.Valid` states the uniqueness that Rust
  ownership gives: no object appears twice, and no paddle is in both columns.
- `UpdateScene` is proved against `ApplyOperations`, which drains the operations last to
  first as `pop` does, and against `StepBalls` and `LastWinner` on the ball views.
- `update_scene` is split into helper methods, one per phase, in the source's order:
  `MovePaddle`, `ApplyPendingOperations`, `AdvanceBalls`, `AdvanceBall`, `Advance` and
  `BounceOffPaddles`.
- `Vec2` is a value (it is `Clone` and is stored inline). The `*_assign` forms are functions
  that update x and then y. The owner writes the result back into its field.
- Sizes and radii are the `u32` newtype. `reset_pos` computes with `u32` subtraction and
  addition. An out-of-range result panics in a build with overflow checks, such as a
  debug build. A release build wraps instead: a radius of 601 makes `600 - 601` wrap to 4294967295, which becomes 4294967296.0 as f32.
  The model covers only the case without wrap-around. `Balls.ResetFits` states exactly
  when a reset stays in range, and it is required wherever a reset happens.
- Coordinates, velocities and speeds are `real`: f32 rounding is abstracted away. Only
  steps on integer-valued positions and velocities are exact in f32. A random launch
  velocity, made from a cosine and a sine, is generally not integer-valued.

Facts of the code the model follows:

- The default left paddle is centred at x = 10 (margin 7 plus half of width 7, rounded
  down). Its collision x-bounds are therefore 7 and 13. The bounce example
  `Scenes.PaddleBounceScenario` starts the ball at x = 12, so it reaches x = 10 and bounces
  to x = 17.
- `collides_with` widens only the y-bounds by the radius, not the x-bounds. So it does not
  test the ball's bounding square: `Balls.XBoundsNotWidened` exhibits a ball that overlaps
  the paddle yet gets no collision.
- The two `Sides` enums (in `scene.rs` and `paddle.rs`) are one datatype, `Paddles.Sides`.

## Model

| member | source | states |
|---|---|---|
| Layout.ConstantValues | src/game_and_scene/paddle.rs:9-20 | paddle height 60, width and margin 7, ball speed 4, paddle speed 20, paddle centres at x = 10 and x = 790 |
| Layout.BallConstants | src/game_and_scene/ball.rs:13-15 | the default radius is 3 and the ball speed, 800 / 200, is 4 |
| Layout.ScreenConstants | src/game_and_scene/scene.rs:10-16 | the screen is 800 by 600 and the margin equals the paddle width, 7 |
| MathUtils.Vec2.AddAssign | src/math_utils/vec2.rs:58-63 | updating x then y in place gives the same vector as `+` |
| MathUtils.Vec2.SubAssign | src/math_utils/vec2.rs:65-70 | updating x then y in place gives the same vector as `-` |
| MathUtils.Vec2.MulAssign | src/math_utils/vec2.rs:94-99 | updating in place gives the same vector as `v * s` |
| MathUtils.Vec2.DivAssign | src/math_utils/vec2.rs:101-106 | updating in place gives the same vector as `v / s`, for a non-zero s |
| MathUtils.Vec2.Add | src/math_utils/vec2.rs:36-45 | componentwise sum; `AddSubInverse` proves it commutative and undone by `Sub` |
| MathUtils.Vec2.Sub | src/math_utils/vec2.rs:47-56 | componentwise difference; `AddSubInverse` proves it undone by `Add` |
| MathUtils.Vec2.Mul | src/math_utils/vec2.rs:72-81 | componentwise scaling; `MulDivInverse` proves it undone by `Div` for a non-zero s |
| MathUtils.Vec2.Div | src/math_utils/vec2.rs:83-92 | componentwise division by a non-zero s; `MulDivInverse` proves it undone by `Mul` |
| MathUtils.ScalarMul | src/math_utils/vec2.rs:108-114 | `s * v` scales each component by s |
| MathUtils.Default | src/math_utils/vec2.rs:116-123 | the default vector is the screen centre (400, 300) |
| MathUtils.AddSubInverse | src/math_utils/vec2.rs:36-56 | `+` and `-` are componentwise, commutative for `+`, and undo each other |
| MathUtils.MulDivInverse | src/math_utils/vec2.rs:72-92 | division by a non-zero scalar undoes multiplication and vice versa; `s * v == v * s` |
| Paddles.ExactlyOneSide | src/game_and_scene/paddle.rs:84-92 | exactly one of `is_left` and `is_right` holds, and `is_left` means side Left |
| Paddles.PaddleState.IsLeft | src/game_and_scene/paddle.rs:84-87 | the paddle defends the left side; `ExactlyOneSide` proves it excludes `IsRight` |
| Paddles.PaddleState.IsRight | src/game_and_scene/paddle.rs:89-92 | the paddle defends the right side; `ExactlyOneSide` proves exactly one of the two holds |
| Paddles.DefaultLeftPaddle | src/game_and_scene/paddle.rs:48-56 | the default left paddle is at (10, 300), width 7, height 60, side Left |
| Paddles.DefaultRightPaddle | src/game_and_scene/paddle.rs:58-66 | the default right paddle is at (790, 300), width 7, height 60, side Right |
| Paddles.MovedUp | src/game_and_scene/paddle.rs:94-100 | y drops by exactly 20 when y ≥ 20; otherwise the paddle is unchanged; x, size and side never change |
| Paddles.MovedDown | src/game_and_scene/paddle.rs:102-108 | y grows by exactly 20 when y ≤ 580; otherwise the paddle is unchanged; x, size and side never change |
| Paddles.MovesKeepOnScreen | src/game_and_scene/paddle.rs:94-108 | both moves keep 0 ≤ y ≤ 600; a rejected move leaves the paddle as it was |
| Paddles.RepeatedMovesStayOnScreen | src/game_and_scene/paddle.rs:94-108 | after any series of moves, a paddle that started on screen is on screen, with the same x, size and side |
| Paddles.Paddle.constructor | src/game_and_scene/paddle.rs:38-46 | the new paddle holds the given centre, size and side |
| Paddles.Paddle.DefaultLeft | src/game_and_scene/paddle.rs:48-56 | the new paddle's value is the default left paddle |
| Paddles.Paddle.DefaultRight | src/game_and_scene/paddle.rs:58-66 | the new paddle's value is the default right paddle |
| Paddles.Paddle.MoveUp | src/game_and_scene/paddle.rs:94-100 | the paddle's new value is `MovedUp` of its old value |
| Paddles.Paddle.MoveDown | src/game_and_scene/paddle.rs:102-108 | the paddle's new value is `MovedDown` of its old value |
| Balls.Integrated | src/game_and_scene/ball.rs:105-108 | one Euler step: the position becomes pos + vel; velocity and radius are kept |
| Balls.Collides | src/game_and_scene/ball.rs:110-141 | a collision iff py − h/2 − r < y < py + h/2 + r and px − w/2 < x < px + w/2, with integer halving; the collision names the paddle |
| Balls.BoundsAreExclusive | src/game_and_scene/ball.rs:132-135 | a ball centred exactly on any of the four bounds does not collide |
| Balls.CollisionIsOverlap | src/game_and_scene/ball.rs:126-135 | every reported collision is a real overlap of the ball's bounding square with the paddle |
| Balls.XBoundsNotWidened | src/game_and_scene/ball.rs:129-130 | the converse fails: a ball at x = 14 overlaps the default left paddle and is not reported |
| Balls.ResetFits | src/game_and_scene/ball.rs:87-100 | exactly when the `u32` arithmetic of `reset_pos` stays in range: 14 + r ≤ U32_MAX for a left paddle, 14 + r ≤ 800 for a right paddle, and r ≤ 600 for an edge reset past the bottom, which subtracts r from 600; `SmallRadiusFits` proves that r ≤ 600 is enough |
| Balls.SmallRadiusFits | src/game_and_scene/ball.rs:87-100 | a radius of at most the screen height keeps every `u32` computation of `reset_pos` in range |
| Balls.Repositioned | src/game_and_scene/ball.rs:84-103 | after a paddle hit, x is 14 + r (left) or 786 − r (right) and y is kept; after an edge hit, y becomes H − r if the ball is past the bottom, else r if past the top, else the ball is unchanged |
| Balls.EdgeResetClamps | src/game_and_scene/ball.rs:95-101 | when 2r ≤ H, an edge reset leaves r ≤ y ≤ H − r, and leaves a ball already inside untouched |
| Balls.Bounced | src/game_and_scene/ball.rs:67-77 | Top/Bottom negate vel.y, a paddle negates vel.x, Left/Right keep the velocity; then the position is reset |
| Balls.EdgeBounceWithinScreen | src/game_and_scene/ball.rs:67-101 | after any edge bounce with 2r ≤ H the ball lies between top and bottom, and x is kept |
| Balls.PaddleBounceLeavesDefaultPaddle | src/game_and_scene/ball.rs:79-93 | after bouncing off a default paddle, the ball no longer collides with it, whatever its radius |
| Balls.Ball.constructor | src/game_and_scene/ball.rs:28-31 | the new ball holds the given position, velocity and radius |
| Balls.Ball.GenerateWithVel | src/game_and_scene/ball.rs:33-41 | a radius-3 ball at the screen centre with the given velocity |
| Balls.Ball.RandomCentered | src/game_and_scene/ball.rs:43-50 | a radius-3 ball at the screen centre with the given launch velocity |
| Balls.Ball.Default | src/game_and_scene/ball.rs:144-153 | a radius-3 ball at the screen centre whose velocity is also (400, 300) |
| Balls.Ball.UpdatePos | src/game_and_scene/ball.rs:105-108 | the ball's new value is `Integrated` of its old value |
| Balls.Ball.CollidesWith | src/game_and_scene/ball.rs:110-141 | a collision, naming the paddle's value, iff the ball's centre lies strictly inside the y-widened, x-unwidened bounds; it only reads the ball and the paddle |
| Balls.Ball.BounceAfterCollision | src/game_and_scene/ball.rs:67-77 | the ball's new value is `Bounced` of its old value |
| Balls.Ball.ResetPos | src/game_and_scene/ball.rs:84-103 | the ball's new value is `Repositioned` of its old value |
| Operations.New | src/game_and_scene/operation.rs:20-26 | the operation stores its three arguments unchanged |
| Operations.FromKeyCode | src/game_and_scene/operation.rs:28-40 | no operation exactly for keys outside the table; never `Stay`; index 0 or 1 |
| Operations.KeyTable | src/game_and_scene/operation.rs:29-37 | W/S move left paddle 0 and A/D left paddle 1; Up/Down arrows move right paddle 0 and Left/Right arrows right paddle 1 |
| Operations.KeyFor | src/game_and_scene/operation.rs:29-37 | the inverse table yields only keys of the table |
| Operations.KeyRoundTrip | src/game_and_scene/operation.rs:28-40 | `FromKeyCode(k) == Some(op)` iff `KeyFor(op) == Some(k)`: the table is a bijection |
| Operations.EveryMoveHasAKey | src/game_and_scene/operation.rs:30-37 | every Up or Down move of paddle 0 or 1 of either side has a key |
| Operations.PendingOps.constructor | src/game_and_scene/scene.rs:154 | the vector holds the given operations |
| Operations.PendingOps.Pop | src/game_and_scene/scene.rs:158 | `pop` returns the last operation and removes it, or `None` on an empty vector |
| Scenes.Addressable | src/game_and_scene/scene.rs:159-165 | a move names an existing paddle of its side, so `unwrap` cannot panic; a `Stay` may name any index, being skipped first; required by `ApplyOperation` and the scene update |
| Scenes.Moved | src/game_and_scene/scene.rs:168-172 | Up is `move_up`, Down is `move_down`, Stay changes nothing; `ApplyOperation` applies it to the addressed paddle |
| Scenes.ApplyOperation | src/game_and_scene/scene.rs:159-172 | `Stay` changes nothing; Up/Down changes only the addressed paddle, by `move_up`/`move_down`; column lengths are kept |
| Scenes.ApplyOperations | src/game_and_scene/scene.rs:158-173 | draining the operations keeps the number of paddles in each column |
| Scenes.PopStep | src/game_and_scene/scene.rs:158 | popping applies the last operation first, and the remaining ones still address existing paddles |
| Scenes.ApplyInOrder | src/game_and_scene/scene.rs:158-173 | applying in pushing order keeps the column lengths (the reference order for `PoppingReverses`) |
| Scenes.PoppingReverses | src/game_and_scene/scene.rs:158-173 | draining by `pop` equals applying the reversed vector in order |
| Scenes.PopOrderMatters | src/game_and_scene/scene.rs:158-173 | the order matters: `[Up, Down]` from height 10 ends at 10 when popped, but 30 in pushing order |
| Scenes.EdgeBounced | src/game_and_scene/scene.rs:183-187 | the edge phase keeps the radius |
| Scenes.EdgeTestOrder | src/game_and_scene/scene.rs:183-187 | Top is tested first (y − r < 0); Bottom (y + r > H) only otherwise; otherwise no change |
| Scenes.EdgePhaseKeepsBallInside | src/game_and_scene/scene.rs:183-187 | after the edge phase, a ball with 2r ≤ H lies between top and bottom |
| Scenes.PaddlesBounced | src/game_and_scene/scene.rs:189-201 | the paddle phase keeps the radius |
| Scenes.PaddlePhaseVelocity | src/game_and_scene/scene.rs:189-201 | a paddle phase keeps vel.y and at most negates vel.x |
| Scenes.NoHitNoBounce | src/game_and_scene/scene.rs:189-201 | a paddle phase with no paddle hit leaves the ball unchanged |
| Scenes.StackedDefaultPaddlesBounceOnce | src/game_and_scene/scene.rs:138-150 | a ball hitting the two stacked default paddles of a side bounces once, with vel.x negated once |
| Scenes.StepBall | src/game_and_scene/scene.rs:175-201 | a ball's frame (integrate, edges, left paddles, right paddles) keeps its radius |
| Scenes.FreeFlight | src/game_and_scene/scene.rs:175-201 | a ball clear of edges and paddles moves by exactly its velocity: it is integrated once |
| Scenes.StepBalls | src/game_and_scene/scene.rs:175-201 | the ball phase steps every ball once, in order, and keeps their number |
| Scenes.ExitSide | src/game_and_scene/scene.rs:203-209 | Right wins iff x + r < 0; Left wins iff not that and x − r > W |
| Scenes.LastWinner | src/game_and_scene/scene.rs:155-212 | the winner recorded by the ball loop; `LastWinnerIsLastExit` proves it is the exit side of the last exiting ball, and `None` iff no ball exits |
| Scenes.LastWinnerStep | src/game_and_scene/scene.rs:203-209 | a later exiting ball overrides the winner so far |
| Scenes.LastWinnerIsLastExit | src/game_and_scene/scene.rs:155-212 | the winner is the exit side of the last exiting ball, and `None` iff no ball exits |
| Scenes.PaddleBounceScenario | src/game_and_scene/scene.rs:175-201 | a ball from x = 12 moving left by 2 hits the default left paddle and ends at x = 17 moving right; nobody wins |
| Scenes.LeftExitScenario | src/game_and_scene/scene.rs:203-209 | a ball ending at x = −4 with radius 3 makes Right the winner |
| Scenes.Scene.constructor | src/game_and_scene/scene.rs:39-49 | the default scene has no paddles and no balls |
| Scenes.Scene.DefaultWith2Balls | src/game_and_scene/scene.rs:136-150 | two default left paddles, two default right paddles, two centred radius-3 balls with the launch velocities; all six objects are newly allocated and distinct |
| Scenes.TwoDefaultLeftPaddles | src/game_and_scene/scene.rs:140 | two newly allocated, distinct paddles, each with the default left paddle's value |
| Scenes.TwoDefaultRightPaddles | src/game_and_scene/scene.rs:141-144 | two newly allocated, distinct paddles, each with the default right paddle's value |
| Scenes.TwoCenteredBalls | src/game_and_scene/scene.rs:145-148 | two newly allocated, distinct centred radius-3 balls, launched with the given vectors |
| Scenes.Scene.AddBalls | src/game_and_scene/scene.rs:52-55 | the balls are appended in order; the paddles are kept |
| Scenes.Scene.ClearBalls | src/game_and_scene/scene.rs:57-60 | no balls remain; the paddles are kept |
| Scenes.Scene.ResetBalls | src/game_and_scene/scene.rs:62-66 | exactly the given balls remain |
| Scenes.Scene.AddLeftPaddles | src/game_and_scene/scene.rs:68-71 | the paddles are appended to the left column in order |
| Scenes.Scene.AddRightPaddles | src/game_and_scene/scene.rs:73-76 | the paddles are appended to the right column in order |
| Scenes.Scene.ClearLeftPaddles | src/game_and_scene/scene.rs:78-81 | the left column is empty; the rest is kept |
| Scenes.Scene.ClearRightPaddles | src/game_and_scene/scene.rs:83-86 | the right column is empty; the rest is kept |
| Scenes.Scene.ResetLeftPaddles | src/game_and_scene/scene.rs:88-92 | the left column is exactly the given paddles |
| Scenes.Scene.ResetRightPaddles | src/game_and_scene/scene.rs:94-98 | the right column is exactly the given paddles |
| Scenes.Scene.ClearPaddles | src/game_and_scene/scene.rs:100-104 | both columns are empty; the balls are kept |
| Scenes.Scene.HasNoLeftPaddles | src/game_and_scene/scene.rs:106-109 | true iff the left column is empty |
| Scenes.Scene.HasNoRightPaddles | src/game_and_scene/scene.rs:111-114 | true iff the right column is empty |
| Scenes.Scene.HasNoBalls | src/game_and_scene/scene.rs:116-119 | true iff there are no balls |
| Scenes.Scene.MovePaddle | src/game_and_scene/scene.rs:163-172 | the columns become `ApplyOperation` of the old columns: one paddle moves, all others are untouched |
| Scenes.Scene.ApplyPendingOperations | src/game_and_scene/scene.rs:158-173 | the vector is emptied and the columns are `ApplyOperations` of the old ones |
| Scenes.Scene.AdvanceBall | src/game_and_scene/scene.rs:175-209 | ball i's new value is `StepBall` of its old value against the unchanged paddles; no other ball changes; the winner becomes this ball's exit side if it left the screen, and is kept otherwise |
| Scenes.Scene.AdvanceBalls | src/game_and_scene/scene.rs:175-212 | the balls become `StepBalls` of the old ones against the unchanged paddles; the returned winner is `LastWinner` of the new balls |
| Scenes.Scene.UpdateScene | src/game_and_scene/scene.rs:152-213 | the vector is emptied; operations applied last to first; every ball stepped against the moved paddles; no object added or removed; winner of the last exiting ball |
| Scenes.Advance | src/game_and_scene/scene.rs:175-201 | the ball's new value is `StepBall` of its old value against the two columns |
| Scenes.BounceOffPaddles | src/game_and_scene/scene.rs:189-201 | the ball's new value is `PaddlesBounced` of its old value against the column |
| Games.StartCheck | src/game_and_scene/game.rs:51-69 | Ok iff there is a ball, a left paddle and a right paddle; any error is one of the three messages |
| Games.StartReportsFirstMissing | src/game_and_scene/game.rs:53-65 | the error names balls first, then left paddles, then right paddles |
| Games.StartErrorsDiffer | src/game_and_scene/game.rs:54-64 | the three error messages are different |
| Games.AfterRound | src/game_and_scene/game.rs:75-82 | the winner gains exactly one point and the other side none; with no winner the scores are kept; scores never decrease |
| Games.ScoresCountWins | src/game_and_scene/game.rs:74-82 | over any series of rounds, each score grows by exactly that side's number of wins |
| Games.StateAfterRound | src/game_and_scene/game.rs:75-76 | the game pauses iff there is a winner |
| Games.Game.constructor | src/game_and_scene/game.rs:26-34 | a new game is paused, with scores (0, 0) and an empty scene |
| Games.Game.SetState | src/game_and_scene/game.rs:36-39 | only the state changes |
| Games.Game.SetScene | src/game_and_scene/game.rs:41-44 | only the scene changes |
| Games.Game.SetScores | src/game_and_scene/game.rs:46-49 | only the scores change |
| Games.Game.Start | src/game_and_scene/game.rs:51-69 | returns `StartCheck` of the scene's counts; Ok sets Running; Err leaves the state; scene and scores are kept |
| Games.Game.Update | src/game_and_scene/game.rs:71-87 | paused: `None`, and scene, scores and vector untouched; running: the scene update, then the scores and state set by the round's winner |
| Games.Game.EndRound | src/game_and_scene/game.rs:75-82 | a winner pauses the game and gains a point |
| Games.Game.LeftPaddleCount | src/game_and_scene/game.rs:89-92 | zero iff the scene has no left paddle |
| Games.Game.RightPaddleCount | src/game_and_scene/game.rs:94-97 | zero iff the scene has no right paddle |
| Games.Game.StartDefaultGameWith2Balls | src/game_and_scene/game.rs:114-118 | the default scene passes the start checks, so the game always runs and `expect` never fires; the scene, its four paddles and its two balls are newly allocated, so the caller may go on to `Update` |

## Left out

- Rendering, the SDL2 window and event loop, the `main` function: graphics and I/O over a foreign library.
- The SDL2 `Keycode` type is replaced by an enum of the eight keys the table uses and `Other` for the rest; no key codes are modelled.
- `Vec2::random_with_magnitude`: it uses trigonometry and a random generator. Every random velocity is a launch vector supplied by the caller of `Balls.Ball.RandomCentered`, `Scenes.Scene.DefaultWith2Balls` and `Games.Game.StartDefaultGameWith2Balls`. Its magnitude is not constrained. Its call in `ball.rs` passes an extra argument, which the model does not reproduce.
- `Into<Point>` for `Vec2`: a conversion for drawing.
- The `rng` field of `Game`: randomness is a parameter instead.
- `Game::reset` is `unimplemented!` and `randomize` is commented out, so there is no behaviour to model.
- The getters (`get_pos`, `get_vel`, `get_radius`, `get_width`, `get_height`, `get_left_paddles`, `get_right_paddles`, `get_balls`) are plain field reads in the model.
- IEEE-754 `f32` rounding: positions, velocities and speeds are exact reals. Only steps on integer-valued positions and velocities are exact in `f32`. A random launch velocity is generally not integer-valued, so `f32` would round its steps and the model does not.
- MathUtils.Vec2.Div: requires a non-zero divisor; `f32` division by zero gives infinities or NaN, which reals do not have. The same holds for `DivAssign` and `MulDivInverse`.
- Operations.Operation: the `usize` index is a `nat`; no index is large enough to wrap.
- Games.AfterRound: the scores are unbounded `nat`; the `u32` overflow panic after 4294967295 wins of one side is not modelled. The same holds for `Games.Game.EndRound` and `Games.Game.Update`.
- Scenes.Scene.UpdateScene: requires every ball's radius to be at most the screen height (`Scenes.Small`). That is enough for every `u32` computation in `reset_pos` to stay in range whatever the frame does, but it is stronger than the exact condition, which depends on where each bounce happens. `Balls.ResetFits` states the exact condition for one bounce. The same requirement is on `Games.Game.Update`, `Scenes.Scene.AdvanceBalls`, `Scenes.Scene.AdvanceBall`, `Scenes.Advance`, `Scenes.BounceOffPaddles`, `Scenes.EdgeBounced`, `Scenes.PaddlesBounced`, `Scenes.StepBall` and `Scenes.StepBalls`.
- Scenes.Scene.AddBalls: requires the added balls to be distinct from each other and from those already in the scene. In Rust the vector is moved into the scene, so this always holds. The same holds for `AddLeftPaddles`, `AddRightPaddles` and the `Reset*` methods.
- Balls.Collision: a paddle collision carries the paddle's value rather than a borrowed reference; nothing in the core uses the reference's identity.
- `src/game_and_scene/game_mode.rs` and the `mod.rs` files declare an unused enum and modules; they have no logic.
- The `src/game/` directory is an earlier draft that `game_and_scene` supersedes, and it contradicts the core, so it is not part of this model.
