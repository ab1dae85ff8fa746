# Doodle Jump game simulation, modelled in Dafny

This project models the game simulation of the browser game in `js/game.js`, the class
`DoodleJump`. A player bounces on a fixed pool of seven platforms on a 400 × 600 canvas. The
camera follows the player once it climbs above the middle of the canvas. Platforms that scroll
off the bottom come back at the top at a random column. Landings and recycled platforms score,
and the high score follows the score. A run starts from the menu (`startGame`, which needs a
name) or from the restart button (`restartGame`), and it ends when the player falls below the
canvas.

The files:

- `physics.dfy`, module `Physics`: the canvas, player and platform constants; the `Player` and
  `Platform` records; the landing test `checkCollision` (`Collides`); the horizontal wrap; and the
  integration step at the top of `update`.
- `world.dfy`, module `World`: the pool layout built by `initGame`; the landing loop of `update`
  (`Land`); and its scroll-and-recycle loop (`Shift`, `Scroll`, `Recycled`).
- `text.dfy`, module `Text`: the JavaScript `trim` applied to the entered name.
- `simulation.dfy`, module `Simulation`: the object's state as a value (`GameState`); one frame
  (`Step`); one `gameLoop` call (`TickState`); the start of a run (`Begin`); and any number of
  frames (`Run`), with the lemmas about them.
- `doodle_jump.dfy`, module `Game`: the class `DoodleJump`. Its fields are `player`,
  `platforms`, `score`, `highScore`, `gameRunning` and `playerName`. Its methods update those
  fields in place, as the source does. `Tick`, `Update`, `StartGame` and `RestartGame` are
  proved to leave the object in the state that the functions of `Simulation` give; `InitGame`
  is stated through `World.InitialPlatforms`; `HandleKeyDown`, `HandleKeyUp`, `UpdateScore` and
  `GameOver` state their effect on the fields directly.

Coordinates and velocities are `real`; every constant of the game is exact there. Each call of
`Math.random()` becomes a parameter `r` with `0 <= r < 1`:

- `initGame` uses `draws[i - 1]` for platform `i`;
- `update` uses `draws[i]` if it recycles platform `i`.

The frame scheduler becomes an external driver that calls `Tick` once per animation frame.

Points where the code behaves in ways a reader might not expect, and the model follows the code:

- **Simultaneous landings.** Overlapping platforms do not each score a landing in the same
  frame. The landing test reads `velocityY`. The first landing resets it to the jump force
  (-15), and the test then needs a positive velocity. So at most one landing scores per frame:
  the first platform in pool order that the falling player touches (`World.LandAtMostOnce`).
  The score grows by 10 × (0 or 1) + 20 × (platforms recycled) (`Simulation.StepEffect`).
- **Run state.** The run state is one boolean, `gameRunning`; there is no separate game-over
  state.
- **The first frame.** `startGame` and `restartGame` call `gameLoop` themselves, so a started
  run has already done its first frame when they return. The methods say this with
  `TickState(Begin(...), ...)`.
- **Start position.** Neither method moves the player back to its start position. Only the
  vertical velocity is reset. A run started while the player is more than 15 below the canvas
  ends on its first frame with score 0 (`Simulation.RestartAfterDeepFall`).
- **Landing band.** The band is open at both ends (`platform.y < bottom < platform.y + 25`).
- **Recycled column.** A recycled column lies in `[0, 315)`, because a draw is below 1.

## Model

| member | source | states |
|---|---|---|
| `Physics.Collides` | js/game.js:122-128 | no contract of its own; the landing test, described by `CollidesIff` |
| `Physics.CollidesIff` | js/game.js:122-128 | a landing holds iff some column lies strictly inside both the player's and the platform's horizontal extent, the player's bottom is strictly between the platform's top and 25 below it, and the player is falling; never while `velocityY <= 0` |
| `Physics.Wrap` | js/game.js:136-141 | after the wrap x is within `[0, 400]`; past the right edge it is exactly 0, past the left edge exactly 400, and on the canvas it is unchanged |
| `Physics.Advance` | js/game.js:131-141 | integration moves y by the old vertical velocity, adds gravity 0.5 to it, keeps the sideways speed and facing, and leaves x on the canvas |
| `World.RandomX` | js/game.js:62 | a column drawn from `Math.random()` lies in `[0, width - platformWidth)` |
| `World.InitialPlatforms` | js/game.js:47-66 | no contract of its own; the pool `initGame` builds, described by `InitialLayout` |
| `World.InitialLayout` | js/game.js:47-66 | `initGame` builds exactly 7 platforms; the first is at (157.5, 550), covering the start player's extent from below; platform i ≥ 1 sits at `y = 600 - i·(600/7)` with `0 <= x < 315`; heights strictly decrease along the pool and all platforms are on the board |
| `World.Land` | js/game.js:143-150 | no contract of its own; the landing loop, described by `LandAtMostOnce` |
| `World.LandAtMostOnce` | js/game.js:143-150 | the landing loop registers at most one landing; it registers one exactly when the entering player collides with some platform, and then only `velocityY` changes (to the jump force) |
| `World.Shift` | js/game.js:155-163 | no contract of its own; one round of the scroll loop, described by `ScrollShape` |
| `World.Scroll` | js/game.js:155-163 | no contract of its own; the scroll loop over the pool, described by `ScrollShape` and `ScrollOnBoard` |
| `World.Recycled` | js/game.js:157-161 | the number of recycled platforms never exceeds the pool size |
| `World.RecycledCounts` | js/game.js:157-161 | the recycle count is 0 exactly when no platform falls off, and the pool size exactly when every platform does |
| `World.ScrollShape` | js/game.js:153-164 | scrolling keeps the pool size; afterwards no platform is below the canvas; a recycled platform is at y = 0 with a column in `[0, 315)`; every other platform moved down by exactly `-velocityY` and kept its column |
| `World.ScrollOnBoard` | js/game.js:155-163 | scrolling keeps every platform on the board |
| `Text.Trim` | js/game.js:80-84 | no contract of its own; `String.prototype.trim`, described by `TrimEmptyIff`, `TrimShape` and `TrimIdempotent` |
| `Text.TrimStart` | js/game.js:80 | the result is a suffix of the input that does not start with a blank character, and only blank characters were removed |
| `Text.TrimEnd` | js/game.js:80 | the result is a prefix of the input that does not end with a blank character, and only blank characters were removed |
| `Text.TrimEmptyIff` | js/game.js:80 | a name trims to nothing exactly when every character is blank, the empty name included |
| `Text.TrimShape` | js/game.js:84 | the kept name is a contiguous piece of the input with non-blank ends, and the blank pieces on either side are cut off |
| `Text.TrimIdempotent` | js/game.js:84 | trimming the kept name again changes nothing |
| `Simulation.Max` | js/game.js:115-116 | the high score after `updateScore` is at least both old values and is one of them |
| `Simulation.Step` | js/game.js:130-170 | one `update` keeps the number of platforms |
| `Simulation.StepEffect` | js/game.js:130-170 | one `update` in closed form: new x is the wrapped x + vx; `velocityY` is the jump force if the moved player collides with any platform, else old + 0.5; when above the midpoint the player is held at y = 300 and the pool scrolls by the negated final velocity; score = old + 10·(landed?1:0) + 20·(recycled count); high score = max(old high score, score); the run stays active iff it was and the player is not below the canvas |
| `Simulation.StepScoreBounds` | js/game.js:144-161 | within a frame the score and high score never decrease, the score rises by at most 10 + 20·7, and the high score stays at least the score |
| `Simulation.StepPreservesValid` | js/game.js:130-170 | a frame keeps the pool full and on the board, the player's x on the canvas, the sideways speed in {-7, 0, 7}, and high score ≥ score |
| `Simulation.TickState` | js/game.js:225-231 | one `gameLoop` call keeps the pool size and changes nothing once the run has ended |
| `Simulation.Run` | js/game.js:225-231 | any number of frames keeps exactly 7 platforms |
| `Simulation.RunPreservesValid` | js/game.js:225-231 | the state invariant is kept by any sequence of frames, and so after any number of recycles |
| `Simulation.RunMonotone` | js/game.js:144-168 | across any sequence of frames the score and the high score never decrease, and an ended run never becomes active again |
| `Simulation.RunStaysStopped` | js/game.js:196 | after the run has ended, further frames change nothing at all |
| `Simulation.Begin` | js/game.js:69-73 | no contract of its own; the state `restartGame` (lines 69-73) and `startGame` (lines 85-89) set up before their first frame, described by `BeginRun` |
| `Simulation.BeginRun` | js/game.js:68-92 | a started run is active, with score 0, `velocityY` = -15 and exactly the pool `InitialPlatforms` builds (the `initGame` layout); the player's position and the name are kept; the high score becomes max(old, 0) and never drops across the run boundary; the result satisfies the state invariant whenever the player's x is on the canvas (`0 <= x <= 400`) and its `velocityX` is 0, 7 or -7 |
| `Simulation.RestartAfterDeepFall` | js/game.js:68-75 | because the player is not repositioned, a run started with the player more than 15 below the canvas ends on its first frame with score 0 |
| `Game.DoodleJump.constructor` | js/game.js:2-45 | a new object is not running, has score 0, a high score of max(stored, 0), the player at (200, 500) at rest facing right, an empty name, and the `initGame` pool |
| `Game.DoodleJump.InitGame` | js/game.js:47-66 | rebuilds the pool push by push as `InitialPlatforms`, resets the score to 0 via `updateScore`, and changes nothing else |
| `Game.DoodleJump.RestartGame` | js/game.js:68-75 | without checking a name, the new state is one `gameLoop` call after `Begin` of the old state; the invariant is kept |
| `Game.DoodleJump.StartGame` | js/game.js:77-92 | ignored (state unchanged) while running; a blank name is refused with state unchanged; otherwise the trimmed name is stored and the state is one `gameLoop` call after `Begin` |
| `Game.DoodleJump.HandleKeyDown` | js/game.js:94-105 | while running, an arrow sets `velocityX` to ∓7 and the facing direction; when not running, or for another key, the player is unchanged |
| `Game.DoodleJump.HandleKeyUp` | js/game.js:107-111 | releasing either arrow sets `velocityX` to 0, whichever arrow may still be held; other keys change nothing |
| `Game.DoodleJump.UpdateScore` | js/game.js:113-120 | the high score becomes max(old high score, score) and changes exactly when the score strictly exceeds it |
| `Game.DoodleJump.GameOver` | js/game.js:195-196 | the run is no longer active |
| `Game.DoodleJump.Tick` | js/game.js:225-231 | the object follows `TickState`: one `update` while running, nothing otherwise |
| `Game.DoodleJump.Update` | js/game.js:130-170 | the in-place frame step leaves exactly the state `Step` gives and keeps the invariant |
| `Game.DoodleJump.LandOnPlatforms` | js/game.js:143-150 | the in-place landing loop leaves the player and score that `Land` gives, with the high score as the running maximum |
| `Game.DoodleJump.ScrollPlatforms` | js/game.js:152-164 | the in-place scroll loop leaves the pool that `Scroll` gives and adds 20 per recycled platform, with the high score as the running maximum |

## Left out

- Drawing (`draw`), the canvas and context setup, element lookups, the menu and button
  visibility and the score texts: these are rendering and user interface. The name alert is
  the `NameRequired` outcome of `StartGame`.
- Sprite loading: it only affects drawing.
- `localStorage`: the high score is read once as a constructor parameter. That value is already
  parsed, with 0 meaning nothing was stored. The write in `updateScore` is not modelled, because
  the stored value is never read back during a session.
- The leaderboard POST and GET in `gameOver`, the leaderboard HTML and the logged errors: these
  are asynchronous network I/O whose failures are swallowed. Only `gameRunning := false` is
  modelled.
- `requestAnimationFrame`: it is replaced by an external driver calling `Tick`. The source runs
  one more self-scheduling loop at each start or restart. If `restartGame` runs while a run is
  active, two loops advance the game per frame. The model has a single driver and does not
  capture that.
- `Math.random()`: its values are parameters in `[0, 1)`. No distribution or seeding is claimed.
- IEEE-754 arithmetic: coordinates are exact reals, and JavaScript numbers are not. `600 / 7` and
  the score's 2^53 limit are where they differ.
- Keyboard events: only `ArrowLeft`, `ArrowRight` and any other key are told apart.
- Name encoding: a Dafny `string` holds Unicode scalar values, while the entered name is a
  sequence of UTF-16 code units, so a name holding a lone surrogate cannot be represented.
  Trimming is otherwise the same, since every blank character lies in the Basic Multilingual
  Plane.
