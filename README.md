# Platformer frame simulation

A model of the per-frame simulation of a small canvas platformer (a
Next.js page, `app/page.tsx`). A player moves left and right over a fixed
set of platforms, falls under gravity, lands on platforms, picks up coins
and stomps or is hurt by patrolling enemies, with a score, three lives and
a game-over flag. When every coin is collected and every enemy stomped the
round restarts with a bonus.

The model has two layers.

- A specification layer of pure functions, one per section of `update()`:
  `Physics` (horizontal movement and clamping, gravity, the jump rule, the
  platform pass), `Items` (coin pickup, enemy patrol), and `Rules` (enemy
  contact, falling off, the win condition, and `Step`, one whole frame on a
  `World` value). `Level` holds the fixed level data. `Geometry` holds the
  collision test.
- The imperative layer, module `Platformer`. A `Player` object and a `Game`
  object hold the state the page keeps in its effect closure: the player
  record, the platform list, the coin array, the enemy list, the score, the
  lives and the held keys. `Game` also has a game-over flag, which stands
  for the page's React state of that name. `Game.Update` mutates them in
  place with the same loops as the source and is proved to produce exactly
  `Step` of the old state. `Game.KeyDown` and `Game.KeyUp` are the keyboard
  handlers.

Positions and velocities are Dafny `real`s. Every constant of the game is
a multiple of 0.5, so these reals are the numbers the page computes,
exactly.

Behaviours of the code worth knowing:

- Left takes priority over right when both are held.
- Jump is level-triggered: every space keydown while grounded jumps.
- `update()` has no game-over guard. `Game.Update` requires `!gameOver`;
  see "## Left out" for what the page does instead.
- In the platform pass the first qualifying platform wins. Landing zeroes
  `velocityY`, so no later platform can qualify in the same pass
  (`Physics.LandAllFirstWins`).
- `grounded` is recomputed every frame, and a hit, a stomp or a fall-off
  later in the same frame does not clear it (`Rules.StepGroundedIffLanded`).
  A player who lands and is then hit in the same frame respawns at
  (100, 400) still grounded, so a space press before the next frame jumps
  in mid-air.
- The patrol does not clamp an enemy to `[minX, maxX]`. For arbitrary data
  an enemy could overshoot by less than one step and then turn back
  (`Items.PatrolKeepsPatrolling`). The level's two enemies stay inside
  their ranges because each range, and each start offset, is a whole
  number of steps. Every patrol step therefore lands exactly on a bound
  and turns there (`Items.PatrolStaysInRange`).
- Reset is the page's effect re-running its initialisation, so it is the
  `Game` constructor.

## Model

| member | source | states |
|---|---|---|
| Geometry.OverlapsSymmetric | app/page.tsx:85-92 | the collision test does not depend on the order of its arguments |
| Geometry.EdgeContactIsNoOverlap | app/page.tsx:85-92 | rectangles that only share an edge do not collide (strict inequalities) |
| Geometry.OverlapsIffSharedInterior | app/page.tsx:85-92 | two proper rectangles collide iff some point lies strictly inside both |
| Physics.MoveHorizontal | app/page.tsx:187-200 | velocityX is -5 if left is held, else 5 if right is held, else 0; x moves by it and is clamped into [0, 768]; nothing else changes |
| Physics.ApplyGravity | app/page.tsx:202-204 | velocityY grows by 0.5 and y - velocityY afterwards is the pre-move y |
| Physics.Jump | app/page.tsx:73-77 | a space press while grounded sets velocityY to -12, jumping, not grounded, position unchanged; otherwise nothing changes |
| Physics.NoDoubleJump | app/page.tsx:73-77 | two space presses in a row launch the player once: the first clears grounded, so the second changes nothing |
| Physics.StandOn | app/page.tsx:210-215 | a landed player's bottom is the platform top, it is at rest vertically, grounded and not jumping |
| Physics.LandAllFirstWins | app/page.tsx:208-217 | the pass lands the player on the first qualifying platform in list order, and leaves it unchanged when none qualifies |
| Physics.LandOutcome | app/page.tsx:206-217 | after the pass, grounded holds iff some platform qualified (overlap, falling, pre-move bottom at or above its top); then the bottom is that platform's top, velocityY is 0 and jumping is false; otherwise only grounded was cleared |
| Items.CollectAll | app/page.tsx:219-226 | the coin pass keeps the number and places of the coins, never touches a collected coin, and a coin ends collected iff it was collected or the player touches it |
| Items.PickupsAreNewlyCollected | app/page.tsx:220-226 | the number of pickups (100 points each) equals the number of coins newly marked collected |
| Items.Respawn | app/page.tsx:282 | the win respawn makes every coin available again, in its place |
| Items.Patrol | app/page.tsx:229-234 | an enemy moves by its velocity, turns round at or past a bound, keeps its speed, y, size and bounds |
| Items.PatrolTurnsIffAtBound | app/page.tsx:231-233 | a moving enemy's velocity changes iff its new x is at or past minX or maxX |
| Items.PatrolKeepsPatrolling | app/page.tsx:228-234 | for any enemy data with a non-empty range, the enemy stays less than one step outside it and heads back whenever it is at or past a bound |
| Items.PatrolStaysInRange | app/page.tsx:228-234 | an enemy whose range and offset are whole numbers of steps never leaves [minX, maxX], lands exactly on each bound and turns there |
| Items.PatrolAll | app/page.tsx:229-234 | the patrol pass moves every enemy one step and keeps their number and order |
| Rules.Contact | app/page.tsx:237-261 | for one enemy, exactly one of: no contact (enemy kept, nothing else changes); stomp (enemy removed, +200, velocityY = -8, lives unchanged, nothing else about the player changes); hit (enemy kept, lives - 1, player moved to (100, 400) with velocityY 0 and velocityX, jumping and grounded unchanged, game over iff no life left) |
| Rules.ContactAllFacts | app/page.tsx:236-261 | the surviving enemies are an order-preserving subsequence of the patrolled ones; the score grows by 200 per removed enemy; lives drop by at most one per enemy; game over iff lives <= 0 is kept; the player stays in the world and keeps velocityX, jumping and grounded |
| Rules.FallOffScreen | app/page.tsx:263-275 | below y 600 the player loses exactly one life and is moved to (100, 400) with velocityY 0, everything else kept, and the game is over iff no life is left; otherwise nothing changes |
| Rules.WinCondition | app/page.tsx:277-287 | with all coins collected and no enemy left the score gains 1000, every coin becomes uncollected and the enemies are the initial two; otherwise nothing changes |
| Rules.InitialWorldInvariant | app/page.tsx:22-66 | the initial configuration satisfies the game invariant and is not over |
| Rules.StepKeepsInvariant | app/page.tsx:186-288 | a frame keeps the player within [0, 768], the coins' number and places, every enemy inside its range, a non-negative score, and game over iff lives <= 0 |
| Rules.PatrolAllStaysInRange | app/page.tsx:228-234 | the patrol pass keeps every enemy of the list inside its range |
| Rules.StepScoreAndLives | app/page.tsx:186-288 | across a frame the score never decreases, and lives never increase and drop by at most one per enemy plus one |
| Rules.StepKeepsPlayerInWorld | app/page.tsx:196-200 | at the end of every frame the player's x is in [0, 768], including after respawns at x = 100 |
| Rules.StepNeverEndsCleared | app/page.tsx:277-287 | no frame ends with all coins collected and no enemy; a cleared round gains 1000, has no collected coin and the initial enemies |
| Rules.StepGroundedIffLanded | app/page.tsx:206-217 | at the end of a frame grounded holds iff the moved and falling player landed on some platform in that frame's pass |
| Rules.FirstFrameAtRest | app/page.tsx:186-217 | from the start with no key held, one frame leaves the player at y 400.5 with velocityY 0.5, not grounded, and changes only the enemies' positions |
| Platformer.Player.constructor | app/page.tsx:27-39 | the player starts at (100, 400) at rest, not jumping, not grounded |
| Platformer.Game.constructor | app/page.tsx:22-66 | a new game (and a reset) is the initial player, coins, enemies, score 0, 3 lives, not over, and satisfies the invariant |
| Platformer.Game.KeyDown | app/page.tsx:71-78 | the key becomes held; the player changes exactly by the jump rule; the invariant is kept |
| Platformer.Game.KeyUp | app/page.tsx:80-82 | the key is no longer held; nothing else changes |
| Platformer.Game.Update | app/page.tsx:186-288 | the in-place frame produces exactly `Step` of the old state with the held keys, and keeps the invariant |
| Platformer.Game.MoveAndLand | app/page.tsx:187-217 | the in-place movement, clamping, gravity and platform pass equal the movement and landing functions |
| Platformer.Game.LandOnPlatforms | app/page.tsx:206-217 | the in-place platform loop equals the landing function: grounded cleared, then every platform tried in order |
| Platformer.Game.CollectCoins | app/page.tsx:219-226 | the in-place loop over the coin array equals the coin pass and its 100 points per pickup |
| Platformer.Game.MoveEnemies | app/page.tsx:228-234 | the in-place patrol loop equals the patrol pass |
| Platformer.Game.ResolveEnemyContacts | app/page.tsx:236-261 | the filter loop, whose callback updates score, lives, game over and the player, equals the contact pass |
| Platformer.Game.ContactOne | app/page.tsx:237-260 | one in-place call of the filter callback equals the one-enemy contact function, including which enemies are kept |
| Platformer.Game.CheckFallOff | app/page.tsx:263-275 | a player below y 600 loses a life and respawns at (100, 400), and the game is over once no life is left |
| Platformer.Game.CheckWin | app/page.tsx:277-287 | the in-place win check and coin reset equal the win condition |

## Left out

- Rendering (`drawPlayer`, `drawPlatforms`, `drawCoins`, `drawEnemies`, `draw`): canvas calls only.
- React state mirroring (`setScore`, `setLives`, `useState`, `useRef`, the JSX). The model keeps the closure's local score and lives.
- `gameOver` exists on the page only as React state (app/page.tsx:9, 254, 272). The model's `gameOver` field stands for it: it is set whenever lives reach 0 or below.
- `Game.Update`: its `requires !gameOver` is a halt the page does not have, and the frame driver (`gameLoop`, `requestAnimationFrame`, `cancelAnimationFrame`) is not modelled. On the page the `cancelAnimationFrame` inside `update()` is undone at once by the reschedule in `gameLoop`. The first game over changes the effect's dependency, so the effect re-runs: it re-initialises everything and starts a fresh loop straight away, behind the game-over overlay. The effect never reads `gameOver`. In that second run a loss sets `gameOver` to true when it is already true, so nothing re-runs, and `update()` keeps running with lives at 0, -1 and so on. The model does not capture any of this; it describes frames only while the game is not over.
- Registering and removing the event listeners is left out. The handlers themselves are `KeyDown` and `KeyUp`. The held-key map is a set of key names.
- `resetGame` only resets React state. A reset is modelled as a new `Game`, which is what the effect's re-initialisation amounts to.
- IEEE floating point is not modelled. All values are multiples of 0.5 and small, so reals give the same numbers.
- The player's fixed fields (size, speed, jump power, gravity) and the canvas size are constants, not fields of the `Player` object.
- `coins.every(...)` in the win check is a bounded quantifier in `Game.CheckWin`, not a loop.
- app/layout.tsx holds page metadata and an HTML shell, with no logic.
