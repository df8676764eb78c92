# Flappy Bird game state, in Dafny

A model of the per-frame game-state machine of the terminal Flappy Bird
clone `bird.py`. The `FlappyBirdGame` object holds the bird's row
`birdY`, its fixed column `birdX` (5), its vertical velocity, the score,
the game-over flag and the list of pipes. Each pipe is a column `x` and the
first row `gapStart` of its gap of `GAP` (8) rows. One frame of
`main_loop` does five things in a fixed order:

1. set the velocity: a jump makes it -2, otherwise gravity adds 1. The
   jump comes from the space key, or from the autopilot, which looks at the
   first pipe right of the bird;
2. move the bird (`update_bird_position`);
3. append a new pipe at the right edge when needed;
4. scroll the pipes and score (`update_pipes`);
5. check for a collision (`check_collision`).

The project has three files:

- `rules.dfy` (module `BirdRules`) holds the constants, the values `Pipe`,
  `Snapshot` (the changing fields of the game) and `Frame` (the key and the
  random draw the driver supplies for one frame). It has one function per
  step, `Step` for a whole frame and `Run` for a sequence of frames. It also
  holds the invariant `Inv` and the lemmas about all of these.
- `game.dfy` (module `BirdGame`) holds the class `FlappyBirdGame`. Its
  fields are updated in place by one method per step, and the source's
  loops stay loops. Each method is proved to leave exactly the state the
  matching `BirdRules` function gives for the old state. Every method that
  changes the fields also keeps the class invariant `Valid()`.
- `scenarios.dfy` (module `BirdScenarios`) holds two concrete behaviours.
  One is a game left to gravity on a 20 x 50 terminal. The other is the
  autopilot following one pipe's gap.

The terminal size becomes constructor parameters. The random gap start of
`create_pipe` becomes a caller-supplied number, which must lie in the range
`random.randint` draws from: `1 <= gapStart <= height - GAP - 2`. That range
is empty below height `GAP + 3`, where the program fails at start-up. The
model therefore requires it (`Playable`).

Three details of bird.py that the model keeps:

- `update_pipes` drops pipes that have reached `x <= 0` (bird.py:59-65).
- The bird is not clamped at the bottom. Reaching row `height - 1` sets
  `game_over`, and the row keeps its value (bird.py:35-36).
- The loop tests `game_over` only at the head of each frame (bird.py:70).
  A frame in which the game ends still runs its spawn, scroll and collision
  steps, and the loop stops after it. So a gravity-only game on a 20 x 50
  terminal ends in its fourth frame at row 19.

## Model

| member | source | states |
|---|---|---|
| `BirdRules.CreatePipe` | bird.py:25-28 | a new pipe stands at `x == width` with the drawn gap start, and its gap lies strictly inside the play area: `1 <= gapStart` and `gapStart + GAP <= height - 2`; the draw's range is non-empty only when `height >= GAP + 3` |
| `BirdRules.Start` | bird.py:17-23 | the initial state: row `(height - 1) / 2`, velocity 0, score 0, not over, exactly one pipe at `x == width`, and it satisfies the frame invariant `Inv` |
| `BirdGame.FlappyBirdGame.constructor` | bird.py:17-23 | the new object holds the terminal size, `birdX == 5`, the state `Start`, and is `Valid()` |
| `BirdRules.Accelerate` | bird.py:79-85 | a jump sets the velocity to exactly `BIRD_JUMP_VELOCITY` (-2) whatever it was before; no jump adds `GRAVITY` (1); nothing else changes |
| `BirdGame.FlappyBirdGame.ApplyVelocity` | bird.py:79-85 | updates only the velocity field, to the state `Accelerate` gives, and keeps `Valid()` |
| `BirdRules.FirstAhead` | bird.py:76-80 | returns the index of the first pipe in list order with `x > bx`: every earlier pipe has `x <= bx`; returns `None` exactly when no pipe has `x > bx` |
| `BirdGame.FlappyBirdGame.AutopilotJump` | bird.py:75-82 | the `for ... break ... else` search: the result is the autopilot's decision `AutoJump`, which jumps exactly when the bird's row is at or below `gapStart + GAP / 2` of the first pipe ahead and never when no pipe is ahead; it changes nothing |
| `BirdRules.Fly` | bird.py:30-36 | afterwards `birdY >= 0`; the row is the moved row, except that a row above the top becomes 0, and it is not clamped at the bottom; `gameOver` becomes true exactly when the new row is `>= height - 1` and is never cleared; velocity, pipes and score do not change |
| `BirdGame.FlappyBirdGame.UpdateBirdPosition` | bird.py:30-36 | changes only `birdY` and `gameOver`, to the state `Fly` gives, and keeps `Valid()` |
| `BirdRules.Spawn` | bird.py:90-91 | when the list is empty or its last pipe has `x < width - PIPE_DISTANCE`, exactly one pipe `Pipe(width, gapStart)` is appended at the end; otherwise the list is unchanged; no other field changes |
| `BirdGame.FlappyBirdGame.SpawnPipeIfNeeded` | bird.py:90-91 | changes only `pipes`, to the state `Spawn` gives, and keeps `Valid()` |
| `BirdRules.Scrolled` | bird.py:57-65 | the rebuilt pipe list is never longer than the old one |
| `BirdRules.ScrolledAppend` | bird.py:59-65 | scrolling works pipe by pipe in list order: scrolling `a + b` gives scrolled `a` followed by scrolled `b` |
| `BirdRules.ScrolledSingle` | bird.py:61-62 | a pipe with `x > 0` becomes one pipe with `x - 1` and the same gap start; a pipe with `x <= 0` is dropped (with `ScrolledAppend` this determines the new list) |
| `BirdRules.ScrolledMembers` | bird.py:59-65 | a pipe is in the new list exactly when it is some old pipe with `x > 0` moved one column left |
| `BirdRules.ScrolledOnScreen` | bird.py:59-65 | when every pipe has `x > 0`, the new list has the same length and each pipe is the old one at that index, one column left |
| `BirdRules.PassCount` | bird.py:60-64 | the number of on-screen pipes at the bird's column is at most the number of pipes |
| `BirdRules.PassCountAppend` | bird.py:60-64 | the points scored by a list are the sum of the points of its parts |
| `BirdRules.PassCountNone` | bird.py:63-64 | if no pipe is at the bird's column, no point is scored |
| `BirdRules.Scroll` | bird.py:57-65 | the new pipe list is `Scrolled` of the old one; the score grows by exactly `PassCount`, the number of old on-screen pipes (`x > 0`) at column `bx` before the move (the class passes `bx == 5`), and never decreases; no other field changes |
| `BirdGame.FlappyBirdGame.UpdatePipes` | bird.py:57-65 | the loop that rebuilds the list and bumps the score; it changes only `pipes` and `score`, to the state `Scroll` gives, and keeps `Valid()` |
| `BirdRules.Collide` | bird.py:51-55 | `gameOver` becomes true exactly when it already was or some pipe has `x == bx` with the bird's row outside `[gapStart, gapStart + GAP)`; it is never cleared and nothing else changes |
| `BirdGame.FlappyBirdGame.CheckCollision` | bird.py:51-55 | the loop over all pipes; it changes only `gameOver`, to the state `Collide` gives, and keeps `Valid()` |
| `BirdRules.Step` | bird.py:74-96 | one frame in the order velocity, move, spawn, scroll, collide: the new velocity is -2 after a jump and previous + 1 otherwise, in both modes; the row is `>= 0`; the score never decreases; game over is never undone |
| `BirdGame.FlappyBirdGame.Tick` | bird.py:74-96 | runs the five steps in that order, ends in the state `Step` gives, and keeps `Valid()` |
| `BirdRules.Run` | bird.py:70-96 | the frame loop never lowers the score, and it changes nothing once the game is over |
| `BirdGame.FlappyBirdGame.MainLoop` | bird.py:67-96 | plays frames while the game is not over, ends in the state `Run` gives, keeps `Valid()`, and stops only when the game is over or the frames run out; the returned count `played` is the number of frames actually played: the final state is `Run` of the first `played` frames, and the run of the first `played - 1` frames had not ended, so every frame counted was played |
| `BirdRules.SpacedIncreasing` | bird.py:90-91 | pipes spaced more than `PIPE_DISTANCE` apart have strictly increasing columns along the list |
| `BirdRules.ScrolledSpaced` | bird.py:59-65 | scrolling keeps the spacing and moves the bound on the columns one column left |
| `BirdRules.ScrolledGaps` | bird.py:62 | scrolling keeps every gap inside the play area |
| `BirdRules.SpawnSpaced` | bird.py:90-91 | spawning keeps the spacing and the gap bounds, because a new pipe at `width` is appended only when the last is more than `PIPE_DISTANCE` columns left of it |
| `BirdRules.StepInv` | bird.py:74-96 | every frame keeps the invariant: row `>= 0`, pipe columns at most `width`, adjacent pipes more than `PIPE_DISTANCE` apart, every gap strictly inside the play area |
| `BirdRules.PassCountAtMostOne` | bird.py:60-64 | with spaced pipes, at most one pipe is at the bird's column |
| `BirdRules.StepScoresAtMostOne` | bird.py:63-64 | from a state that satisfies the invariant, a frame scores at most one point |
| `BirdRules.RunInv` | bird.py:70-96 | every run of frames keeps the invariant |
| `BirdRules.RunAppend` | bird.py:70-96 | playing frames `a` and then frames `b` is the same as playing `a + b` |
| `BirdRules.RunSnoc` | bird.py:70-96 | one more frame after a run that has not ended is exactly one more `Step` |
| `BirdRules.RunNext` | bird.py:70-96 | while the run of the first `n` frames has not ended, the run of the first `n + 1` frames is one more `Step` with frame `n` |
| `BirdRules.RunPrefix` | bird.py:70 | a run that has ended after its first `n` frames, or has used them all, is in the same state as the run of those `n` frames: once `game_over` is set, no later frame is played |
| `BirdScenarios.FallFrame` | bird.py:30-36 | a frame without a jump, with one pipe far right of the bird: the bird falls by velocity + 1, the pipe moves one column, no pipe is added, no point is scored, and the game ends exactly when the row reaches 19 |
| `BirdScenarios.GravityOnlyGame` | bird.py:30-36 | on a 20 x 50 terminal with no jumps, the bird is on row 15 after three frames with the game still on, and on row 19 after four frames, with velocity 4 and the game over |
| `BirdScenarios.AutopilotOrbit` | bird.py:75-82 | while the autopilot follows one pipe, the velocity and move steps keep the bird on a cycle of rows `c - 2` to `c + 1` around the gap centre `c`, inside that pipe's gap, and do not end the game |
| `BirdScenarios.OnlyTargetNext` | bird.py:76-77 | in a spaced list, no pipe other than the first one ahead of the bird stands one column right of the bird |
| `BirdScenarios.OrbitStep` | bird.py:74-96 | a whole autopilot frame (velocity, move, spawn, scroll, collision) from a state on the orbit of the first pipe ahead leaves the game running |
| `BirdScenarios.AutopilotScenario` | bird.py:75-82 | with the gap on rows 5 to 12 and the bird at rest on row 10, the bird is on the autopilot's orbit, and the first frame jumps it to row 8 |

## Left out

- Drawing (`draw_bird`, `draw_pipes`, the score line, the game-over screen): this is terminal output.
- Keyboard input (`term.inkey`): it becomes the `key` flag of each `Frame`. In autopilot mode the key is ignored, as in the source.
- `time.sleep` and the frame interval `max(BASE_SPEED - score * 0.005, 0.02)`: these are wall-clock timing and floating point.
- `random.randint`: it becomes the `gapStart` of each `Frame` and of the constructor, restricted to the range the call draws from.
- The terminal size is fixed when the game starts. bird.py reads `term.height` and `term.width` from the live terminal at every use (bird.py:18, 27-28, 35, 90). So in the source, resizing the terminal during play moves the game-over row, the spawn column and the random range; the model does not capture that.
- `argparse`, the `__main__` entry point, `term.cbreak()` and `term.hidden_cursor()`: these are command-line and terminal-mode plumbing.
- BirdGame.FlappyBirdGame.MainLoop: plays at most the frames it is given, whereas the source loops until game over; an unbounded loop would need `decreases *`.
- BirdGame.FlappyBirdGame.AutopilotJump: returns the autopilot's decision, and `ApplyVelocity` then sets the velocity. The source assigns the velocity inside the search. The two give the same result.
