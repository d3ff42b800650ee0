# cart253 sketches in Dafny

This project models the game logic of three groups of p5.js sketches from
the cart253 repository and proves properties of that model.

**Greek Myth Jump** (the `Variation-Jam-*` sketches) is a vertical platform
jumper. Every frame the player falls under gravity and bounces off the
platform it lands on. Platforms that have dropped a canvas height below the
player are spliced out of the platform array. New platforms are appended one
spacing above the top one until the top is a buffer above the view.
Platforms that pass below the scoring line score once each. Memory fragments
are picked up within a fixed radius, and each variant has its own end
conditions:

- Icarus: `Variation-Jam-1/js/script1.js`, and `Variation-Jam-1/js/script.js`, which has the same rules.
- Orpheus: `Variation-Jam-2/js/script2.js`. Platforms break at their second jump, and victory needs platform 500.
- Plain: `Variation-Jam-2/js/script.js`. It has no fragments.
- Prometheus: `Variation-Jam-3/js/script.js`. Falling with every fragment wins, and the backgrounds change.

The model has three parts:

- `JumpEngine` holds what the sketches share: the `Player` class, the platform record, and the frame's passes over the platform array.
- `JumpRules` holds each variant's rules.
- `JumpSession.Session` holds the global state and the `draw`, `keyPressed` and `keyReleased` handlers.

The session invariant says:

- the platform array is never empty when generation reads its top;
- the array stays spaced 60 apart, with its last element on top;
- between frames it holds at most 23 platforms.

**Frogala** (`frogfrogfrog/js/script.js`) is a fly-catching shooter:

- A ship follows the mouse and fires up to three tractor beams.
- Each beam's tip cycles idle → outbound → inbound → idle.
- Flies arrive in waves. Each fly waits out a spawn delay, then flies across the canvas.
- A caught fly is pulled to the ship and docks for five points.
- Each new wave is three flies larger. Waves 3 and 5 unlock the second and third beams.
- 500 points wins.

The model has three parts:

- `FrogBeam` covers the beams.
- `FrogFlies` covers the flies, the capture scan and the particle buffer.
- `FrogGame.Game` covers the global state, the screens and the handlers.

Its invariant says:

- caught flies plus flies still in the array always equal the wave size, and some flies are left;
- the wave size is `5 + 3 (wave - 1)`;
- each power-up is unlocked exactly from its wave on;
- the score is a multiple of five;
- every particle in the buffer has a frame to live.

**Pixel art** (`pixel-art/js/*.js`) is a drawing table. While the mouse is
pressed, the 18-by-18 tile under it is filled. The jam version has an eraser
that the E key toggles.

Every random draw of the sketches is a parameter of the model:

- platform x: `nat -> real`;
- fly height, speed factor and delay: `nat -> FlyDraw`;
- particle size and speed: `nat -> Spark`.

The mouse position and the keys pressed are parameters of the handlers.
p5's `loop()`/`noLoop()` is the session's `looping` flag, and `draw` changes
nothing while it is off. `dist(...) < r` is compared on squares, and `lerp`
is written out, both exactly on reals.

Four behaviours of the sources are worth knowing:

- **Orpheus victory is unreachable.** In `Variation-Jam-2/js/script2.js`, victory needs `platforms[499]`. Pruning keeps the array at most 23 platforms long, so that platform never exists. The session invariant `variant == Orpheus ==> !won` records this. The 500-platform generation cap is likewise never reached.
- **Frogala's in-capture wave reset is dead code.** `checkBeamOverlap` calls `resetWave` when `caughtFlies >= fliesPerWave` right after catching a fly. A fly still in the array means fewer than `fliesPerWave` flies have been caught, so that call never happens. The model asserts this at that point.
- **Icarus cannot restart after a victory in `Variation-Jam-1/js/script.js`.** Its victory screen invites the player to press space, but `keyPressed` restarts only when `gameOver` is set (script.js:233-236). A victory stops the loop without setting it, so the sketch is stuck. The model keeps this: `MayRestart` for Icarus is `gameOver`, and a victory stops the loop.
- **Frogala clicks are not gated by screen.** The start button's area and the beam launch are live on every screen: a click on the title screen launches the beam. The second and third beams launch only when the first beam is idle too.

## Model

| member | source | states |
|---|---|---|
| JumpEngine.NewPlatform | Variation-Jam-1/js/script1.js:394-401 | a new platform has the given position, is 80 by 15, has not scored, and has no jumps counted (Orpheus's `jumpCount`: Variation-Jam-2/js/script2.js:408-416) |
| JumpEngine.Fall | Variation-Jam-2/js/script2.js:356-363 | gravity is added to the velocity before the position moves; the acceleration ends at zero; x past the right edge wraps to 0, and x below 0 wraps to the width (same code: script1.js:348-355, Variation-Jam-3/js/script.js:345-352, Variation-Jam-1/js/script.js:286-293, Variation-Jam-2/js/script.js:145-152) |
| JumpEngine.FirstLanding | Variation-Jam-1/js/script1.js:358-369 | returns the first platform in array order the player lands on, and None exactly when it lands on none |
| JumpEngine.TopLanding | Variation-Jam-2/js/script2.js:366-374 | returns the last platform in array order the player lands on (the topmost-first scan), and None exactly when there is none |
| JumpEngine.Bounce | Variation-Jam-1/js/script1.js:357-370 | a falling player that lands on any platform gets vertical velocity -10, whatever its speed; otherwise nothing changes, and nothing but the vertical velocity ever changes |
| JumpEngine.Stomp | Variation-Jam-2/js/script2.js:376-381 | the landed-on platform's jump count rises by one; at two jumps exactly that platform is removed, otherwise only its count changes |
| JumpEngine.Steer | Variation-Jam-1/js/script1.js:377-387 | a press sets horizontal speed -5 or +5 by direction; a release sets 0 |
| JumpEngine.Player.constructor | Variation-Jam-1/js/script1.js:322-329 | the player starts at the given position and size, at rest |
| JumpEngine.Player.Integrate | Variation-Jam-2/js/script2.js:356-363 | the player's new state is `Fall` of the old one |
| JumpEngine.Player.Update | Variation-Jam-1/js/script1.js:347-371 | integrates, then bounces off the first platform landed on while falling; the platform array is untouched (same code: Variation-Jam-3/js/script.js:344-368, Variation-Jam-1/js/script.js:285-309, Variation-Jam-2/js/script.js:144-168) |
| JumpEngine.Player.UpdateTopFirst | Variation-Jam-2/js/script2.js:355-387 | integrates, then scans from the top platform down; the first platform landed on bounces the player, counts the jump, and is removed at its second jump |
| JumpEngine.Player.Move | Variation-Jam-1/js/script1.js:377-387 | only the horizontal velocity changes, to `Steer` of the key and press (same code in every variant) |
| JumpEngine.Unpruned | Variation-Jam-1/js/script1.js:132-139 | no surviving platform is more than a canvas height below the player, and pruning never adds platforms |
| JumpEngine.UnprunedMembers | Variation-Jam-1/js/script1.js:136-137 | a platform survives pruning exactly when it was in the array and is not below the limit |
| JumpEngine.Prune | Variation-Jam-1/js/script1.js:132-139 | the reverse splice loop leaves exactly `Unpruned`: the platforms not below the limit, in their original order (same code: script2.js:128-135, Variation-Jam-3/js/script.js:131-138, Variation-Jam-1/js/script.js:100-107, Variation-Jam-2/js/script.js:56-63) |
| JumpEngine.UnprunedKeepsTop | Variation-Jam-1/js/script1.js:132-146 | a top platform within a canvas height of the player survives pruning and stays on top, so the generation loop never reads an empty array |
| JumpEngine.UnprunedSpaced | Variation-Jam-1/js/script1.js:132-139 | pruning a spaced array leaves it spaced |
| JumpEngine.Generate | Variation-Jam-2/js/script2.js:138-144 | appends 80×15 platforms, each 60 above the previous top, at the drawn x; stops when the top is `platformBuffer + height` above the player or the cap is reached; the old platforms are kept as a prefix; the array is left alone if it already reached high enough |
| JumpEngine.GeneratedSpaced | Variation-Jam-1/js/script1.js:142-146 | generated platforms keep the array spaced 60 apart |
| JumpEngine.SpacedWindow | Variation-Jam-2/js/script2.js:128-144 | a spaced array between the prune limit and the generation target has at most as many platforms as spacings fit between them |
| JumpEngine.Scroll | Variation-Jam-2/js/script2.js:128-144 | pruning then generation keeps a spaced array of at most 23 platforms spaced, within 23 platforms and below any cap of more than 23, and ends with the top above the generation target |
| JumpEngine.RemovalSpaced | Variation-Jam-2/js/script2.js:379-381 | removing one platform keeps the array spaced |
| JumpEngine.TrampleSparesTop | Variation-Jam-2/js/script2.js:366-386 | the Orpheus landing scan never removes or moves the top platform, never grows the array, and keeps it spaced |
| JumpEngine.StartingPlatforms | Variation-Jam-1/js/script1.js:87-92 | ten platforms at `height - 60 i` with the drawn x values, spaced 60 apart |
| JumpEngine.Marked | Variation-Jam-1/js/script1.js:169-174 | each platform is marked scored once it is below the scoring line; a scored flag is never cleared |
| JumpEngine.ScorePlatforms | Variation-Jam-1/js/script1.js:169-174 | the scoring loop marks the platforms per `Marked`, and the score gain is `NewlyScored` (same code: script2.js:167-172, Variation-Jam-3/js/script.js:175-180, Variation-Jam-1/js/script.js:137-142, Variation-Jam-2/js/script.js:73-78) |
| JumpEngine.ScoreCountsNewFlags | Variation-Jam-1/js/script1.js:169-174 | the score gain equals the growth in the number of scored flags, and a second pass gains nothing, so each platform scores at most once |
| JumpEngine.MarkedSpaced | Variation-Jam-1/js/script1.js:169-174 | scoring moves no platform |
| JumpEngine.FindFragment | Variation-Jam-1/js/script1.js:149-166 | scanning from the last fragment down, returns the first fragment in reach (strictly within radius 30 and within a canvas height), or None exactly when none is in reach |
| JumpRules.IcarusEnding | Variation-Jam-1/js/script1.js:176-193 | game over exactly when the player falls past `height + 100`, or is at the sun barrier within 40 of the centre; victory exactly when four fragments are collected (same rules: Variation-Jam-1/js/script.js:145-161) |
| JumpRules.OrpheusEnding | Variation-Jam-2/js/script2.js:174-194 | game over exactly on the fall; victory exactly when the player lands on platform 500 with four fragments |
| JumpRules.PlainEnding | Variation-Jam-2/js/script.js:80-85 | game over exactly on the fall, and never victory |
| JumpRules.PrometheusEnding | Variation-Jam-3/js/script.js:182-192 | falling with four fragments is victory, and falling with fewer is game over; the two never coincide |
| JumpRules.EndingOf | Variation-Jam-2/js/script2.js:174-194 | falling always ends the game one way or the other; the Plain variant never wins |
| JumpRules.MayRestart | Variation-Jam-3/js/script.js:280 | space restarts exactly after game over, and in Prometheus also after falling with four fragments (the other variants: Variation-Jam-1/js/script1.js:278) |
| JumpRules.StartingFragments | Variation-Jam-1/js/script1.js:99 | four fragments, except in the Plain variant, which has none |
| JumpRules.NextBackground | Variation-Jam-3/js/script.js:165-167 | the background follows the fragment count while there is a background for it, so the index stays below five |
| JumpSession.Session.constructor | Variation-Jam-2/js/script2.js:65-68 | a fresh session satisfies the invariant, with score 0, the loop running and background 0 |
| JumpSession.Session.Initialize | Variation-Jam-2/js/script2.js:73-99 | ten platforms `height - 60 i` apart, the player centred 40 above the top one, the starting fragments, and every counter and flag reset; the background index is kept |
| JumpSession.Session.PlacePlayer | Variation-Jam-1/js/script1.js:87-96 | the starting platforms are spaced, with the player on top and at rest |
| JumpSession.Session.ResetCounters | Variation-Jam-1/js/script1.js:80-101 | score, game over, fragment count, snippet index and story flag are reset, and the fragments restored |
| JumpSession.Session.StepPlayer | Variation-Jam-2/js/script2.js:124 | the player takes `Bounce(Fall(...))`; in Orpheus the platforms become `Trampled`, and otherwise they are unchanged |
| JumpSession.Session.ScrollPlatforms | Variation-Jam-2/js/script2.js:128-144 | the platforms become the pruned array extended by generation, with the top above the generation target |
| JumpSession.Session.PickUp | Variation-Jam-3/js/script.js:148-172 | at most one fragment is collected, the last one in reach. It is spliced out, the count and snippet index rise by one, and the story is shown. In Prometheus the background follows the count. With nothing in reach, nothing changes |
| JumpSession.Session.ScoreFrame | Variation-Jam-2/js/script2.js:167-172 | the platforms are marked and the score rises by exactly the number newly marked |
| JumpSession.Session.CheckEnding | Variation-Jam-2/js/script2.js:174-194 | game over and victory are set exactly as the variant's ending says, and either stops the loop |
| JumpSession.Session.Climb | Variation-Jam-1/js/script1.js:128-146 | the physics step then the platform passes leave the array spaced, within 23 platforms, and topped within reach; score and fragments are untouched |
| JumpSession.Session.Settle | Variation-Jam-1/js/script1.js:148-193 | restores the invariant. The platforms become `Marked` at the scoring line and the score rises by exactly the newly scored ones. At most one fragment is collected, and collecting shows the story. Game over and victory are set exactly as the variant's ending says |
| JumpSession.Session.Advance | Variation-Jam-1/js/script1.js:128-193 | a running frame keeps the invariant; the score never falls; at most one fragment is collected per frame |
| JumpSession.Session.Draw | Variation-Jam-3/js/script.js:107-200 | with the loop stopped, a story shown or (Plain) after game over, nothing changes. Otherwise the invariant is kept, the score never falls and at most one fragment is collected (same entry point: script1.js:108-200, script2.js:104-215, Variation-Jam-1/js/script.js:76-170, Variation-Jam-2/js/script.js:35-86) |
| JumpSession.Session.KeyPressed | Variation-Jam-3/js/script.js:279-292 | space reinitialises exactly when the variant allows a restart: the starting platforms, the player placed on top, the starting fragments, and every counter and flag reset. Lower-case `c` hides the story. The arrows steer unless the game is over. Otherwise everything else is untouched, and the background is never reset (same handler: script1.js:277-290, script2.js:290-303, Variation-Jam-1/js/script.js:233-246, Variation-Jam-2/js/script.js:111-120) |
| JumpSession.Session.KeyReleased | Variation-Jam-1/js/script1.js:296-301 | releasing an arrow stops horizontal motion unless the game is over |
| FrogBeam.Stepped | frogfrogfrog/js/script.js:397-421 | the tip follows the ship's x, and its phase only stays or moves one step along outbound, inbound, idle. An idle beam stays where it is. An outbound tip rises 20 and turns inbound once at or above the top. An inbound tip sinks 20 while above the ship, and goes idle in place once it is not |
| FrogBeam.Launched | frogfrogfrog/js/script.js:635-636 | a launched tip starts 40 above the ship, outbound |
| FrogBeam.LaunchedIfIdle | frogfrogfrog/js/script.js:638-645 | a beam is launched only when idle, and otherwise left as it is |
| FrogBeam.Rising | frogfrogfrog/js/script.js:405-411 | an outbound tip rises 20 a frame while it stays below the top |
| FrogBeam.Sinking | frogfrogfrog/js/script.js:413-419 | an inbound tip sinks 20 a frame while it starts each frame above the ship |
| FrogBeam.Returns | frogfrogfrog/js/script.js:397-421 | with the ship still, a launched beam is busy for 50 frames and idle back at the ship on the 51st |
| FrogBeam.Beam.constructor | frogfrogfrog/js/script.js:39-46 | a beam starts idle with its tip at 480 |
| FrogBeam.Beam.Move | frogfrogfrog/js/script.js:397-421 | the beam's new state is `Stepped` of the old one |
| FrogBeam.Beam.Launch | frogfrogfrog/js/script.js:633-636 | the beam's new state is `LaunchedIfIdle` of the old one |
| FrogFlies.NewFly | frogfrogfrog/js/script.js:158-180 | even flies start at x 0 and odd ones at the width. Both use the drawn height and delay, inactive, uncaptured, size 5. For draws in range, even flies have positive speed and odd ones negative |
| FrogFlies.MakeWave | frogfrogfrog/js/script.js:154-182 | exactly `count` flies, the i-th from draw i, all waiting to spawn, uncaptured and of size 5 |
| FrogFlies.Burst | frogfrogfrog/js/script.js:187-199 | `count` particles, all at the given point with the given lifespan |
| FrogFlies.StepFly | frogfrogfrog/js/script.js:277-305 | a waiting fly's delay drops by exactly one, and it spawns (in place, with particles) once the delay is at most 0. A captured fly covers 5% of its distance to the ship, and docks exactly when within 10. A free fly moves by its speed and grows by at most 0.5, and its speed flips exactly when it leaves the canvas. Captured flies stay captured and active flies stay active |
| FrogFlies.MoveFlies | frogfrogfrog/js/script.js:276-307 | the loop's result is `FlyPass`: each fly stepped in order, docked flies dropped, spawn bursts pushed |
| FrogFlies.FlyPassConserves | frogfrogfrog/js/script.js:289-293 | every fly either stays or docks, and no more flies dock than were captured |
| FrogFlies.FlyPassParticles | frogfrogfrog/js/script.js:281-284 | the pass only pushes onto the particle buffer, and what it pushes is alive |
| FrogFlies.LastCatchable | frogfrogfrog/js/script.js:502-508 | the catch is the highest-index active, uncaptured fly the tip overlaps, and None exactly when there is no such fly |
| FrogFlies.FindCatch | frogfrogfrog/js/script.js:501-520 | the reverse scan stops at `LastCatchable` |
| FrogFlies.Caught | frogfrogfrog/js/script.js:509-514 | a capture changes no fly count |
| FrogFlies.CaughtAtMostOne | frogfrogfrog/js/script.js:508-517 | at most one fly changes, and only the catchable one; a catch raises the captured count by exactly one, and no catch changes nothing |
| FrogFlies.Survivors | frogfrogfrog/js/script.js:204-219 | no particle with a spent lifespan remains, and the buffer never grows |
| FrogFlies.SurvivorsMembers | frogfrogfrog/js/script.js:211-217 | a particle survives exactly when it is the aged copy (moved by its speed, one frame less) of one with more than a frame left |
| FrogFlies.SurvivorsAll | frogfrogfrog/js/script.js:211-217 | when no particle is about to die, every one survives in place, aged by one frame |
| FrogFlies.AgeParticles | frogfrogfrog/js/script.js:204-219 | the reverse splice loop leaves exactly `Survivors` |
| FrogGame.Game.constructor | frogfrogfrog/js/script.js:64-103 | the title screen, counters 0/1/5/0/0 with no power-ups, the first wave of five, idle beams, no particles, and the invariant holds |
| FrogGame.Game.ResetWave | frogfrogfrog/js/script.js:373-385 | caught goes to 0, the wave up by one, the wave size up by three, and the cooldown to 60. A new wave is built. The second beam unlocks exactly at wave 3 and the third at wave 5, and the invariant's wave part is kept |
| FrogGame.Game.MoveFlies | frogfrogfrog/js/script.js:276-307 | the fly pass runs, with five points per docked fly. If flies remain, the caught count grows by the docked ones. If none remain, the next wave starts. The invariant is kept |
| FrogGame.Game.MoveBeams | frogfrogfrog/js/script.js:136-145 | the ship moves to the mouse's x and the first beam steps. The second and third beams step only when unlocked, then hang 30 left and right of the ship (script.js:443, 460) |
| FrogGame.Game.CheckBeam | frogfrogfrog/js/script.js:501-521 | the flies become `Caught`. On a catch the beam turns inbound and a burst is pushed where the fly was; with no catch the beam and the particles are unchanged. The counters are unchanged |
| FrogGame.Game.AgeAll | frogfrogfrog/js/script.js:204-219 | the particle buffer becomes `Survivors` of itself |
| FrogGame.Game.Play | frogfrogfrog/js/script.js:135-148 | the invariant is kept, the ship is at the mouse, and the score never falls |
| FrogGame.Game.Frame | frogfrogfrog/js/script.js:124-149 | at 500 points only the screen changes, to victory. During a cooldown only the cooldown changes, down by one. The score never falls |
| FrogGame.Game.Draw | frogfrogfrog/js/script.js:108-149 | screens other than the game change nothing. On the game screen, 500 points switches to victory and changes nothing else. During a cooldown, only the cooldown counts down. Otherwise the ship goes to the mouse. The invariant is kept, and the score never falls |
| FrogGame.Game.Restart | frogfrogfrog/js/script.js:606-616 | counters 0/1/5/0/0 with no power-ups, the title screen and a first wave; particles and ship untouched |
| FrogGame.Game.ResetCounters | frogfrogfrog/js/script.js:607-614 | the counters and the screen as a restart leaves them |
| FrogGame.Game.Squash | frogfrogfrog/js/script.js:620-628 | twenty particles with lifespan 50 are pushed at the ship, and nothing else changes |
| FrogGame.Game.Fire | frogfrogfrog/js/script.js:633-646 | the first beam launches if idle. The second and third launch only if the first was idle and they are unlocked and idle |
| FrogGame.Game.MousePressed | frogfrogfrog/js/script.js:601-647 | the first matching branch applies. A restart click on the game-over or victory screen resets to the title screen. A click on the ship pushes blood and changes nothing else. The start button switches to the game. Any other click fires. The invariant is kept |
| PixelArt.SnapCoord | pixel-art/js/PixelArtJam.js:41-42 | the snapped coordinate is a multiple of 18 at most one tile below the mouse |
| PixelArt.SnapUnique | pixel-art/js/PixelArtJam.js:41-42 | it is the only such multiple |
| PixelArt.SnapWithinTile | pixel-art/js/PixelArtJam.js:41-42 | every point of a tile snaps to that tile's corner |
| PixelArt.Snap | pixel-art/js/script.js:52-54 | the tile's corner is on the 18-grid and the tile contains the mouse |
| PixelArt.Paint | pixel-art/js/PixelArtJam.js:37-63 | something is painted exactly when the mouse is pressed, on the tile under it; the fill is white exactly when erasing |
| PixelArt.PaintPlain | pixel-art/js/script.js:48-75 | something is painted exactly when the mouse is pressed, on the tile under it, never white |
| PixelArt.Toggled | pixel-art/js/PixelArtJam.js:66-71 | the eraser flips exactly on 'E' or 'e' |
| PixelArt.Jam.constructor | pixel-art/js/PixelArtJam.js:16 | the eraser starts off |
| PixelArt.Jam.KeyPressed | pixel-art/js/PixelArtJam.js:66-71 | the eraser becomes `Toggled` of the old flag and the key |

## Left out

- Rendering is not modelled. This covers images, text, colours, `translate` scrolling, the starfield, the displayed story snippets and the death position, which is only drawn.
- Floating point is not modelled. Positions are exact reals, `dist` is compared on squares, and `lerp` is exact.
- Random draws are parameters; their distributions are not modelled.
- Frogala's `setTimeout` callbacks are not modelled: the squash's delayed switch to the game-over screen and a caught fly's colour flash. The model therefore never enters the game-over screen by itself. The restart from that screen is still modelled.
- Frogala's `moveFlies` splices a docked fly out of the array it is iterating with `for...of`. JavaScript then skips the next fly for that frame. The model removes docked flies as a filter, and every fly takes its step.
- Frogala's wave reset inside the fly loop is moved after the loop. The invariant makes this equivalent: the reset fires only when the last fly docks.
- Frogala beams start with `x` undefined. The model starts them at 0, which is never read before `moveBeam` sets it.
- Fly and particle colours are not modelled, nor the blood particles' red.
- The pixel-art colour picker, the colour-by-mouse mapping and the clear button are not modelled; the canvas's pixels are not state of the model. The `erase` handler of `pixel-art/js/script.js` has an empty body and changes nothing.
- FrogGame.Game.Play: states only the invariant, the ship's position and the score's monotonicity. The exact new state follows from its parts' contracts (`MoveFlies`, `MoveBeams`, `CheckBeam`, `AgeAll`).
- FrogGame.Game.Frame: outside the victory and cooldown cases, states only what `Play` states.
- JumpSession.Session.Advance: states the invariant, score monotonicity and the fragment bound. The exact new state follows from `Climb` and `Settle` and their parts.
- JumpSession.Session.Settle: does not state the new fragment array or background. `PickUp` states those exactly.
- JumpSession.Session.Draw: on a running frame, states only what `Advance` states: the invariant, score monotonicity and the fragment bound.
- FrogGame.Game.Draw: on a running game frame, states only what `Frame` and `Play` state. The exact state follows from `Play`'s parts.
- JumpSession.Session.Climb: states the invariant between passes and the untouched counters. The exact platform array is given by `StepPlayer` and `ScrollPlatforms`.
