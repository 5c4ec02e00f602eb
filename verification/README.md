# Lander: a Dafny model of the game's simulation core

The lander game (`script.js`) flies a rectangular ship over a 400 x 400
canvas. Gravity pulls it down; three engines, switched by the arrow keys,
push it sideways or up. Each game adds ten red projectiles at the top, which
then fall. Each animation frame the game moves the ship and the projectiles,
then checks the ship: leaving the canvas or coming down onto the pad crashes
it (the pad's collision edges are described below); hovering slowly just
above the pad lands it. The game ends on the first crash or landing.

This project models that core with exact `real` arithmetic over immutable
records:

- `Lander` (lander.dfy): the constants (canvas size, gravity 0.01, side
  thrust 0.01, main thrust 0.03, landing buffer 3), the `Ship` with its
  centre-based edges, the `Projectile`, and the pad's literal edges.
- `Physics` (physics.dfy): `updateShip` and `updatePrjs`, plus the position
  after any number of ticks in closed form (`Travel`, `FlyClosedForm`,
  `FallClosedForm`).
- `Collision` (collision.dfy): `checkCollision`, with the field, pad and
  landing tests stated as independent predicates.
- `Controls` (controls.dfy): `keyPressed` and `keyLetGo`. A key event is its
  key code; the result says whether the event was handled (the source then
  suppresses the browser's default action).
- `Setup` (setup.dfy): `initShip` and `initPrjs`. Every `Math.random()` call
  is a parameter `r` with `0 <= r < 1`, taken in the order the source draws.
- `Game` (game.dfy): `gameLoop` as one frame with its outcome (crashed, then
  landed, then continue), `start` without its DOM side, and `Run`, a driver
  that repeats frames until the game ends or a frame budget runs out. `Run`
  stands for the `requestAnimationFrame` chain.

Points of the code's behaviour worth knowing:

- The ship's `x`, `y` is its centre: the edges are `x ± 4` and `y ± 11`
  (script.js:165-168). Projectiles are drawn from their top-left corner.
- The pad's collision edges are literals: top 345, bottom 340, left 190,
  right 215 (script.js:40-43). The bottom lies above the top and does not
  match the drawn rectangle, which spans rows 345 to 350. The pad test
  therefore only catches a ship spanning rows 340 to 345 (script.js:175-178):
  a ship whose top is below row 340 can overlap the drawn pad and stay in
  flight (`Collision.ShipPassesThroughDrawnPad`).
- The landing test compares `dx` and `dy` as signed values. A ship moving
  fast to the left or upwards still lands (`Collision.FastSignedVelocityLands`).
- The field border counts as inside. Only an edge strictly beyond it
  crashes.
- `initPrjs` appends ten projectiles to the list and never clears it. Each
  new game therefore adds ten more to those of the previous games
  (`Game.Start`).
- A new projectile's `dx` is `1 - 2r`, so it lies in (-1, 1].
- The ship never collides with a projectile.

## Model

| member | source | states |
|---|---|---|
| Physics.UpdateShip | script.js:136-153 | velocity changes by exactly the net engine acceleration (gravity 0.01 always; right -0.01, left +0.01, so both side engines cancel; main -0.03, net -0.02), position advances by the updated velocity, and nothing but position and velocity changes |
| Physics.FlyKeepsFlags | script.js:136-153 | any number of ship ticks keeps engine and terminal flags, hence the same acceleration each tick |
| Physics.FlyClosedForm | script.js:136-153 | with the engines held for n ticks, velocity is initial plus n times the acceleration and position follows the discrete parabola n*v + a*n(n+1)/2 |
| Physics.StepPrj | script.js:157-160 | one projectile tick: dy grows by gravity, y moves by the new dy, x by the unchanged dx, size kept |
| Physics.UpdatePrjs | script.js:155-162 | the list keeps its length; every projectile keeps dx, w, h, gains gravity in dy and moves by the new dy and its dx |
| Physics.DriftIsPointwiseFall | script.js:155-162 | n ticks of the whole list equal n ticks of each projectile on its own, in place |
| Physics.FallClosedForm | script.js:155-162 | after n ticks a projectile has drifted n*dx sideways and fallen along the same parabola as the ship, size unchanged |
| Physics.UnpoweredShipFallsLikeProjectile | script.js:136-162 | with the main engine off, ship and projectile with equal dy fall the same distance over any number of ticks |
| Collision.CheckCollision | script.js:164-200 | crashed is raised exactly when the ship leaves the closed field or touches the pad; landed exactly when it is inside, clear of the pad and in the landing window; a flag is never cleared; at most one flag is raised per call; out of bounds never lands; nothing else changes |
| Collision.LandingWindowIsClear | script.js:174-192 | every ship in the landing window is inside the field and clear of the pad, so the earlier tests never pre-empt a landing |
| Collision.VerdictOfShipInFlight | script.js:164-194 | for a ship in flight: crashed iff out of field or touching the pad, landed iff in the landing window, never both |
| Collision.EdgeOnBorderDoesNotCrash | script.js:165-173 | an edge lying exactly on the field border does not crash the ship |
| Collision.EdgeBeyondBorderCrashes | script.js:165-173 | any edge strictly beyond the border crashes the ship and does not land it |
| Collision.FastSignedVelocityLands | script.js:184-193 | a ship with dx = dy = -5 hovering 1 unit above the pad lands, because the speeds are compared signed |
| Collision.ShipPassesThroughDrawnPad | script.js:174-182 | a ship in flight and inside the field whose top is below row 340 (the pad's literal bottom) is not caught by the pad test, cannot land, and stays unchanged; the ship centred at (202, 360) overlaps the drawn pad and stays in flight |
| Controls.KeyPressed | script.js:241-257 | exactly codes 37, 39, 40 are handled; a handled code turns on its engine (left, right, main) and changes nothing else; any other code changes nothing |
| Controls.KeyLetGo | script.js:223-239 | exactly codes 37, 39, 40 are handled; a handled code turns off its engine and changes nothing else; any other code changes nothing |
| Controls.PressThenRelease | script.js:223-257 | pressing then releasing a key equals releasing it alone, and leaves its engine off |
| Controls.RepeatedEventsAreIdempotent | script.js:223-257 | a repeated press or a repeated release changes nothing further |
| Controls.DifferentKeysCommute | script.js:223-257 | events for two different key codes give the same ship in either order |
| Setup.InitShip | script.js:53-65 | a fresh ship has its centre in [150, 250) x [150, 250), dx and dy in [0, 1), all engines off, neither crashed nor landed, and the draws can be read back from it |
| Setup.Spawn | script.js:77-85 | a new projectile is at row 0, 4 x 4, at a whole column in [0, 399] taken from floor(400 r), with dx = 1 - 2r in (-1, 1] and dy in [0, 1) |
| Setup.InitPrjs | script.js:75-88 | appends exactly ten new projectiles, built from the draws in order, after the existing ones, which it leaves untouched |
| Game.SelectOutcome | script.js:207-220 | crashed iff the crashed flag is set; landed iff landed and not crashed; continue iff neither |
| Game.GameLoop | script.js:202-221 | the outcome follows the checked ship's flags, crashed before landed; a flag already set stays set; one frame moves the projectiles independently of the ship; for a ship in flight it ends crashed iff the moved ship is out of field or touches the pad, landed iff the moved ship is in the landing window, never both; when it continues the ship is just moved |
| Game.Start | script.js:259-269 | a started game has a fresh ship and ten more projectiles, the i-th built from the i-th draw, after the old ones, which are kept |
| Game.RunStopsAtTerminal | script.js:202-221 | once a frame ends the game, further frames change nothing |
| Game.RunVerdictIsConsistent | script.js:202-221 | from a ship in flight, the final outcome agrees with the ship's flags, both flags are never set, and the projectile count is kept |
| Game.RunningGameIsPlainMotion | script.js:202-221 | while the game goes on, n frames amount to n ticks of ship flight and n ticks of every projectile's fall |
| Game.SoftLandingScenario | script.js:184-193 | a slow, centred ship 1 unit above the pad after its move lands on that frame |
| Game.BottomBorderScenario | script.js:165-173 | a ship with its bottom exactly on the border is inside; one frame of gravity pushes it across and it crashes |
| Game.FirstFrameContinues | script.js:53-65 | the first frame after a fresh ship never ends the game |

## Left out

- Drawing (`drawPlatform`, `drawPrjs`, `drawShip`, `drawTriangle`, `clearRect`): canvas output only; the flame lengths also use random numbers.
- Status text, the start button and listener attach/detach in `start` and `endGame`: browser plumbing with no effect on the simulation.
- `requestAnimationFrame`: the host decides when frames run; `Game.Run` takes a frame budget instead and says nothing about timing.
- `Math.random`: each call is a parameter in [0, 1).
- IEEE-754 rounding: the model uses exact reals, so the exact deltas (for example dy - 0.02 with the main engine on) hold for the model, not always for JavaScript doubles.
- The ship's and projectiles' colour: display only. The ship's width 8 and height 22 are constants, since nothing ever changes them.
- Events that arrive between frames are applied with `KeyPressed`/`KeyLetGo` to the world's ship; `Game.Run` itself holds the engine flags fixed.
