# Kangaroo crossing game: a Dafny model of its game logic

`spiel-kangroo/spiel.py` is a small pygame arcade game. The player steers a kangaroo
up the window across lanes of scrolling cars and trucks. Reaching the top edge scores
10 points and makes the kangaroo one unit faster. Touching a vehicle sends the kangaroo
back to its start point. P pauses the game, and Escape pressed twice within half a
second quits.

This project models the game logic without the drawing. Everything is on integer
pixel coordinates in a 1000 x 800 window:

- `settings.dfy` (module `Settings`): the window size and frame rate.
- `player.dfy` (module `Players`): the `Player` class with `Move` and `ResetPosition`.
  Each method is proved against a function on values (`MovePlayer`, `ResetPlayer`).
  The held keys are a `Keys` record and the clock reading is a `now: real` parameter.
- `obstacle.dfy` (module `Obstacles`): the `MovingObstacle` class. `Move` wraps each
  axis independently and is proved against `MoveObstacle`. `CheckCollision` is the
  strict bounding-box overlap test `Overlaps`. The module also holds the numeric data
  of the eleven vehicles that `main` creates (`Layout`).
- `events.dfy` (module `Events`): the event loop at the top of each frame, as the
  method `DispatchEvents`, proved against the fold `HandleEvents`. It covers the
  window-close request, the P toggle and the Escape double press.
- `game.dfy` (module `MainLoop`): `main`'s state as the class `Game`. `Frame` is one
  iteration of `while running` and `Play` is the loop itself. Both are proved against
  the value-level `FrameStep` and `RunFrames`. Lemmas cover collisions, scoring and
  the score across frames.

Every class has a `State()` function that packs its fields into a value. Each method
that changes state ensures `State() == Spec(old(State()), …)`, or states its result one
component at a time (score, player, obstacles). The properties are
proved about the specification functions.

Time is real-valued seconds. All the clock readings inside one frame are taken to be
the same instant `now`: the jump timestamp, the end-of-jump test and every Escape
press. A consequence is that two Escape presses polled in the same frame always quit,
because the second one is 0 s after the first.

Three points where the code's behaviour is easy to misread, and which the model follows exactly:

- Positions are integers (pixel coordinates), not reals.
- An obstacle wraps according to its position after it has moved by its velocity, not
  its position before the move.
- After `running` becomes false, the rest of that frame still runs (there is no `break`).

## Model

| member | source | states |
|---|---|---|
| `Players.Clamp` | spiel-kangroo/spiel.py:53-54 | the result is never negative; it is at most `hi` when `hi >= 0`; it is `v` itself when `v` is in range; it is `0` for a negative value or bound and `hi` above it |
| `Players.InitialPlayer` | spiel-kangroo/spiel.py:16-30 | a new player stands at its start point `((1000 - width) // 2, 800 - height)`, not jumping, with speed 4, jump impulse 12 and jump duration 0.2 s; a sprite that fits the window starts inside it |
| `Players.MovePlayer` | spiel-kangroo/spiel.py:35-59 | whatever keys are held, a sprite that fits ends with `0 <= x <= 1000 - width` and `0 <= y <= 800 - height`; x and y are the clamped sums of independent displacements, so the jump impulse and UP add up; the end-of-jump `max(0, y)` changes nothing; the jump timestamp changes only when a jump starts, i.e. SPACE with no jump under way; the player is jumping afterwards iff it was or SPACE is held, and the duration has not been exceeded; size, start point and speeds are unchanged |
| `Players.ResetPlayer` | spiel-kangroo/spiel.py:61-63 | the position becomes the start point, which lies inside the window for a well-formed player; every other attribute is unchanged |
| `Players.SpaceIgnoredWhileJumping` | spiel-kangroo/spiel.py:37-40 | while a jump is under way, holding SPACE or not gives the same move |
| `Players.ResetForgetsPosition` | spiel-kangroo/spiel.py:61-63 | a reset is idempotent and ignores where the player stood |
| `Players.Player.constructor` | spiel-kangroo/spiel.py:16-30 | the new object's attributes are `InitialPlayer(width, height)` |
| `Players.Player.Move` | spiel-kangroo/spiel.py:35-59 | the in-place update leaves the attributes equal to `MovePlayer` of the old ones |
| `Players.Player.ResetPosition` | spiel-kangroo/spiel.py:61-63 | changes only `x` and `y`, to `ResetPlayer` of the old state |
| `Obstacles.WrapAxis` | spiel-kangroo/spiel.py:78-90 | the coordinate advances by the velocity; past `-size` it jumps to the window dimension, past the window dimension it jumps to `-size`; it always ends in `[-size, dimension]` |
| `Obstacles.MoveObstacle` | spiel-kangroo/spiel.py:77-90 | each axis wraps independently; speeds and size are unchanged; afterwards `-width <= x <= 1000` and `-height <= y <= 800` |
| `Obstacles.MoveAll` | spiel-kangroo/spiel.py:172-173 | every obstacle of the list is moved once and the order is kept |
| `Obstacles.Overlaps` | spiel-kangroo/spiel.py:96 | the four strict inequalities of the collision test; two boxes can overlap only if, on each axis, their sizes add up to more than zero (its meaning is `OverlapsIffSharedPixel`, its symmetry `OverlapsSymmetric`) |
| `Obstacles.OverlapsSymmetric` | spiel-kangroo/spiel.py:95-96 | the collision test gives the same answer with the two boxes' roles swapped |
| `Obstacles.OverlapsIffSharedPixel` | spiel-kangroo/spiel.py:95-96 | for boxes of positive size, the four strict inequalities hold iff the two half-open boxes share a pixel |
| `Obstacles.TouchingBoxesDoNotOverlap` | spiel-kangroo/spiel.py:95-96 | boxes that only share an edge or a corner do not collide |
| `Obstacles.CollisionExamples` | spiel-kangroo/spiel.py:95-96 | 10x10 boxes at (0,0) and (100,100) do not collide; 10x10 boxes at (5,5) and (0,0) do |
| `Obstacles.Layout` | spiel-kangroo/spiel.py:122-132 | the position, velocity and size of the eleven vehicles, in list order; all have positive size and drive leftwards, none vertically |
| `Obstacles.FirstMoveOfLayout` | spiel-kangroo/spiel.py:121-133 | the two cars placed at x = -350 start off-screen and reappear at x = 1000 on their first move; after one move every vehicle is in its wrap range |
| `Obstacles.MovingObstacle.constructor` | spiel-kangroo/spiel.py:67-75 | the new object holds the given position, velocity and size |
| `Obstacles.MovingObstacle.Move` | spiel-kangroo/spiel.py:77-90 | the in-place update leaves the attributes equal to `MoveObstacle` of the old ones |
| `Obstacles.MovingObstacle.CheckCollision` | spiel-kangroo/spiel.py:95-96 | true iff `Collides(State(), player.State())`, the value-level `check_collision`: the obstacle's box `Overlaps` the player's box |
| `Events.HandleEvent` | spiel-kangroo/spiel.py:147-156 | one event: only P flips `paused`; only Escape sets `esc_last_pressed` to `now`; `running` becomes false on a close request, or on an Escape less than 0.5 s after the previous one, and is otherwise kept |
| `Events.DispatchEvents` | spiel-kangroo/spiel.py:146-156 | the loop over the polled events computes `HandleEvents`, the events handled in order |
| `Events.HandleEventsClosedForm` | spiel-kangroo/spiel.py:146-156 | `paused` flips once per P press; `esc_last_pressed` becomes `now` iff Escape was pressed; `running` stays true iff it was true, no window-close request came, and Escape was neither pressed twice nor pressed once less than 0.5 s after the previous press |
| `Events.HandleEvents` | spiel-kangroo/spiel.py:146-156 | the events of a frame, handled in order; once `running` is false no later event sets it back to true (its closed form is `HandleEventsClosedForm`) |
| `Events.DoublePressExamples` | spiel-kangroo/spiel.py:152-156 | a first Escape press does not quit; a second press 0.1 s later quits; one 0.6 s later does not |
| `MainLoop.AdvancePlayer` | spiel-kangroo/spiel.py:162-169 | the player's move, then on reaching `y <= 0` a reset to the exact start point, whatever its x, with one more unit of speed; otherwise the move's result; the jump state is the move's; size, start point, sprint speed, jump impulse and jump duration are kept; a well-formed player stays inside the window and, when it is lower than the window, is never left on the top edge |
| `MainLoop.AfterTraffic` | spiel-kangroo/spiel.py:172-178 | the collision tests leave the player either unchanged or reset to its start point |
| `MainLoop.AfterTrafficClosedForm` | spiel-kangroo/spiel.py:172-178 | the player is reset iff some moved obstacle overlaps it as it came out of move and scoring; several hits reset it no further than one |
| `MainLoop.FrameStep` | spiel-kangroo/spiel.py:145-183 | the control variables are the events' outcome; a paused frame leaves player, obstacles and score as they were; an unpaused frame moves every obstacle once; the score rises by exactly 10, and the speed by exactly 1, iff the frame is unpaused and the move reaches `y <= 0`, and the player is then at the exact start point; otherwise score and speed stay; the score stays a non-negative multiple of 10; a well-formed player inside the window stays inside it |
| `MainLoop.UnpausedFrame` | spiel-kangroo/spiel.py:161-179 | the unpaused part of a frame: `AdvancePlayer`, then every obstacle moved and tested in order; the control variables are untouched; score gained is 10 times the speed gained (the rest is stated by `FrameStep`) |
| `MainLoop.FrameCollisionResetsOnlyPosition` | spiel-kangroo/spiel.py:160-179 | in an unpaused frame, a collision resets only the position of the player as it came out of move and scoring; score, speed and jump state are kept |
| `MainLoop.ScoreMonotone` | spiel-kangroo/spiel.py:145-179 | over any run of frames, the score never decreases and stays a multiple of 10; the total score gained is 10 times the speed gained |
| `MainLoop.RunFrames` | spiel-kangroo/spiel.py:145-183 | frames run until `running` is false or the inputs run out; a well-formed player that starts inside the window is inside it after any run (the score across a run is `ScoreMonotone`) |
| `MainLoop.InitialGame` | spiel-kangroo/spiel.py:121-143 | the loop starts unpaused, running, with `esc_last_pressed = 0`, score 0, the initial player and the eleven vehicles; a sprite that fits starts inside the window |
| `MainLoop.Game.constructor` | spiel-kangroo/spiel.py:140-143 | the loop starts unpaused, running, with `esc_last_pressed = 0` and score 0 |
| `MainLoop.Game.Frame` | spiel-kangroo/spiel.py:145-183 | one iteration of the loop leaves the game state equal to `FrameStep` of the old state, and keeps the score invariant |
| `MainLoop.Game.Advance` | spiel-kangroo/spiel.py:161-179 | an unpaused frame, the player part and then the obstacle loop, leaves the game state equal to `UnpausedFrame` of the old state, and keeps the score invariant |
| `MainLoop.Game.UpdatePlayer` | spiel-kangroo/spiel.py:161-169 | the player moves; on reaching `y <= 0` it is reset, the score gains 10 and the speed gains 1 |
| `MainLoop.Game.MoveTraffic` | spiel-kangroo/spiel.py:172-178 | each obstacle, in list order, moves and is then tested against the player, with a reset on a hit; the obstacles end at `MoveAll` of their old states |
| `MainLoop.Game.MoveAndTest` | spiel-kangroo/spiel.py:173-178 | the `i`-th obstacle moves to `MoveObstacle` of its old state; then the player is reset iff that moved obstacle overlaps it, and is otherwise unchanged |
| `MainLoop.Game.Play` | spiel-kangroo/spiel.py:145-186 | the `while running` loop ends in `RunFrames` of the start state: frames run until `running` is false or the inputs run out |
| `MainLoop.InitialObstacles` | spiel-kangroo/spiel.py:121-133 | eleven distinct new obstacles with the positions, velocities and sizes of `main`'s list, in its order |
| `MainLoop.NewGame` | spiel-kangroo/spiel.py:121-143 | the start of `main` builds the state `InitialGame(width, height)` |

## Left out

- Image loading and scaling, and all drawing (`draw`, `draw_dark_overlay`, `display_score`, the background blit): they are pygame calls with no game logic. Sprite sizes are constructor parameters instead (the kangaroo is scaled to 40 x 40 in the source).
- Display set-up, the window caption, the `SDL_VIDEO_WINDOW_POS` environment variable, `pygame.display.flip`, `pygame.quit` and the `clock.tick(FPS)` frame pacing: they are I/O and resource handling.
- Event polling and `pygame.key.get_pressed`: the polled events are a `seq<Event>` and the held keys a `Keys` record, supplied per frame.
- `time.time()`: the clock is a `now: real` parameter read once per frame, so the model does not capture the microseconds between reads within one frame. `now` may be any real, so a first Escape at `now < 0.5` quits from the initial state; with `time.time()`, which returns seconds since the epoch, a first press never quits. Real arithmetic is exact, so the model has no floating-point rounding.
- The `print` calls, the `FILE_PATH`/`IMAGE_PATH` path construction and the unused `random` import: they are console and filesystem concerns.
- `MainLoop.Game.Play`: the source loops until `running` is false. The model also stops when the finite input sequence runs out, because the inputs stand for what would be polled.
