# bricks — a verified model of the frame simulation

`bricks` is an arcade game: a paddle bounces balls into a grid of bricks. Powerups fall from destroyed
bricks: split, glue and shooter. The game also has bullets, lives, a score, and a mode machine that runs
from STARTED to OVER or WIN and on to the next level. This project models the simulation in
`src/bricks.cpp` in Dafny and proves properties of the model. The simulation covers the geometry tests,
the entity pools with their swap-remove, `hit_brick`, map loading, settings loading, `new_level`,
`new_game`, and the body of `main`'s frame loop.

Floats are modelled as `real`. `rand32()` becomes an oracle `nat -> real`. The state counts the draws
made so far, and every `rand32()` call the simulation makes reads the next value. The draws come from
sound choices, spawn rolls, and the x and y of each split ball. `normalize(v) * speed` is a parameter.
The model assumes only that it turns a nonzero vector into one of length `speed` (`Geometry.Rescales`).
Sounds become a sequence of events. `dt` and the input flags are state or parameters.

The project has eight modules:

- `Geometry`: vectors and the three geometry routines.
- `Entities`: the constants, the entity records, `new_ball` and `new_powerup`.
- `Pools`: the fixed-capacity arrays with a count, and the growable brick array. Both are classes over
  Dafny arrays, with the source's swap-remove.
- `Level`: `load_map` as a loop over the map text, against a recursive definition of the bricks a text
  makes.
- `Settings`: `load_config` as a loop over pre-split entries.
- `Rules`: one pure function per step of the frame over a `World` value, with the properties proved.
- `Game`: `class GameState`, whose methods update the pools and fields in place. Each method is proved
  to leave exactly the state the matching `Rules` function computes.
- `Wrappers`: `Option`.

The three loops that the source gets wrong are modelled twice: once as written, with a counterexample,
and once corrected (see Findings). `Rules` and `Game` use the corrected loops.

Two details of the code are easy to misread, and the model keeps both as written:

- The paddle-top test (bricks.cpp:1142) compares the ball's bottom, `pos.y - size`, with the paddle top.
- Powerups that fall past the bottom of the screen are never removed; the model keeps them.

## Model

| member | source | states |
|---|---|---|
| Geometry.IsRectInRect | src/bricks.cpp:409-423 | overlap holds iff on both axes the centres are closer than half the summed sizes (strict) |
| Geometry.IsCircleInRect | src/bricks.cpp:426-440 | equals the rectangle test with the circle taken as a square of side 2r |
| Geometry.RectInRectSymmetric | src/bricks.cpp:409-423 | the overlap test is symmetric in its two rectangles |
| Geometry.TouchingRectsDoNotOverlap | src/bricks.cpp:409-423 | rectangles whose edges exactly touch, on either side along either axis, do not overlap |
| Geometry.GetIntersection | src/bricks.cpp:443-465 | for a vertical line x is l0.x, for a horizontal line y is l0.y; the point lies on the line through p0, p1; a result exists iff the divisor component of p1 - p0 is nonzero; a line that is neither vertical nor horizontal is excluded by the precondition |
| Entities.NewBall | src/bricks.cpp:690-699 | `new_ball`: a ball at the given place and direction with the default size |
| Entities.DefaultBall | src/bricks.cpp:691 | `new_ball()` with its default arguments: at the origin, heading straight up |
| Entities.NewPowerup | src/bricks.cpp:702-713 | `new_powerup`: the given type at the given place, of the standard size, falling at the standard speed |
| Entities.NewBullet | src/bricks.cpp:1017-1029 | a new bullet: at the given place with the default size and speed |
| Pools.SwapRemove | src/bricks.cpp:747-748 | one element fewer; slot i holds the former last element; every other slot unchanged |
| Pools.SwapRemoveMultiset | src/bricks.cpp:747-748 | swap-remove takes exactly the removed element out of the contents |
| Pools.Pool.constructor | src/bricks.cpp:134-162 | a fresh array of the given capacity with no live elements |
| Pools.Pool.Push | src/bricks.cpp:1030-1031 | the element is appended to the live contents; only that slot changes |
| Pools.Pool.Set | src/bricks.cpp:1005-1006 | only slot i changes; a dead slot leaves the live contents unchanged |
| Pools.Pool.RemoveAt | src/bricks.cpp:1069 | the live contents are their swap-remove at i; the returned index is i - 1 |
| Pools.Pool.Truncate | src/bricks.cpp:995 | the live contents are cut to their first n elements |
| Pools.BrickArray.constructor | src/bricks.cpp:636-639 | capacity 64, no bricks |
| Pools.BrickArray.Push | src/bricks.cpp:663-676 | the brick is appended; the capacity doubles exactly when the array was full, and the storage is then a fresh array |
| Pools.BrickArray.Set | src/bricks.cpp:726 | only brick i changes |
| Pools.BrickArray.RemoveAt | src/bricks.cpp:747-748 | the bricks are their swap-remove at i, in the same storage; the returned index is i - 1 |
| Level.TileHealth | src/bricks.cpp:654-661 | a brick character gives a health from 1 to BRICK_MAX_HEALTH |
| Level.MapBricks | src/bricks.cpp:647-683 | the bricks a map text defines, read character by character (the reference definition the loop is proved against) |
| Level.MapBricksAreTiles | src/bricks.cpp:647-683 | one brick per character '1'..'5', in file order, with that digit as its health |
| Level.MapBricksPrefix | src/bricks.cpp:647-683 | reading more of the file only appends bricks |
| Level.MapBrickPlacement | src/bricks.cpp:649-682 | the brick from the character at p sits at the column since the last newline and the row given by the newlines before it |
| Level.CapacityBounds | src/bricks.cpp:663-665 | count <= max holds, and max is 64 doubled some number of times, under twice the count once it has grown |
| Level.LoadMap | src/bricks.cpp:632-688 | the loaded bricks are those the map text defines, and the capacity is the one the doubling rule gives |
| Level.GrowAsWrittenOverflows | src/bricks.cpp:663-676 | as written, the 65th brick is written past the end of the 64-slot array, which has been deleted 64 times |
| Level.PushAsWritten | src/bricks.cpp:663-676 | the growth step as written, on the sizes involved: `max` doubles, the storage keeps the old size, and the old array is deleted once per copied brick |
| Settings.ApplyEntry | src/bricks.cpp:582-618 | each known option sets exactly its field; an unknown option is an error naming it; a fractional lives count is an error |
| Settings.ApplyAll | src/bricks.cpp:580-619 | the entries applied in file order, stopping at the first error (the reference definition of the loop) |
| Settings.ApplyAllAppend | src/bricks.cpp:580-619 | applying a file in two parts: the second part starts from the settings the first part left, unless the first part failed |
| Settings.LoadConfig | src/bricks.cpp:568-619 | the loop applies the entries in order from zeroed settings and stops at the first error |
| Settings.UnknownOptionFails | src/bricks.cpp:614-618 | an unknown option anywhere makes loading fail |
| Settings.UnnamedLivesKept | src/bricks.cpp:580-619 | without a lives_count entry the lives setting keeps its value |
| Settings.LastLivesWins | src/bricks.cpp:580-619 | the last lives_count entry decides the setting, wherever it stands, when no later entry names lives_count |
| Rules.NewLevel | src/bricks.cpp:754-777 | mode STARTED; one default ball; no bullets or powerups; effect timer 0; the map's bricks, and the capacity the map's loading grows to (`CapacityFor` of the brick count); the paddle re-placed at (0, -0.85) with default size and speed and the ball caught at slot 0; nothing else changes; every pool capacity holds |
| Rules.NewGame | src/bricks.cpp:781-786 | `new_game`: initial ball speed, the configured lives, score 0 |
| Rules.Start | src/bricks.cpp:800-806 | the first level starts: STARTED, the configured lives, score 0, initial speed, one ball caught by the re-placed paddle, the map's bricks, no draws or sounds |
| Rules.WaitStep | src/bricks.cpp:926-958 | while the timer runs, only the timer moves (and on WIN the paddle rises by 1.1 dt); when it runs out, the speed rises by 0.3 and a new level starts with the pools reset, one caught ball and the paddle re-placed |
| Rules.Wait | src/bricks.cpp:926-941 | the wait timer runs down by dt; on WIN the paddle rises by 1.1 dt |
| Rules.RoundCheck | src/bricks.cpp:960-982 | no balls with lives left: one life fewer and one caught ball at slot 0; no balls and no lives: OVER, wait 2, score 0, initial lives and speed; a cleared map: WIN and score + 1; otherwise unchanged; the frame goes on only with a ball |
| Rules.ExpirePowerup | src/bricks.cpp:987-997 | the effect timer runs down only while positive; a split running out leaves exactly the first ball; nothing else changes |
| Rules.Spawn | src/bricks.cpp:730-745 | the powerup rolls: while the pool has room, each type in turn draws once and spawns on a roll under its chance |
| Rules.SpawnShape | src/bricks.cpp:730-745 | the spawn never exceeds POWERUPS_MAX, adds at most one powerup per type tried, keeps the existing ones, and stacks each new one a powerup size lower, moving straight down; which types spawn is stated by Rules.SpawnFirstRoll |
| Rules.SpawnRanked | src/bricks.cpp:731-745 | types tried in order come out in that order |
| Rules.SpawnFirstRoll | src/bricks.cpp:733-744 | with room in the pool, the first type tried is the first powerup spawned iff its roll is under its chance; with a full pool nothing spawns and no roll is made |
| Rules.SpawnRollHit | src/bricks.cpp:739-743 | a roll under the chance spawns that type first, at the spawn position |
| Rules.SpawnRollMiss | src/bricks.cpp:739 | a roll at or over the chance spawns no powerup of that type first |
| Rules.SpawnOrderIsRanked | src/bricks.cpp:731 | the order is split, glue, shooter |
| Rules.HitBrick | src/bricks.cpp:718-750 | one sound and draw; health drops by exactly the damage; a surviving brick alone changes; a destroyed one is swap-removed, with the index rewound, the other bricks unchanged and the powerups spawned; powerups never exceed their cap |
| Rules.Damage | src/bricks.cpp:721-726 | one sound (one draw) and brick j's health lowered by the damage |
| Rules.Destroy | src/bricks.cpp:728-749 | the spawn only appends powerups and respects the cap |
| Rules.Shoot | src/bricks.cpp:999-1033 | with a caught ball: that ball launches straight up at the ball speed and the catch and the input clear; otherwise two bullets at the paddle's edges, one sound, and SHOOT_RATE more cooldown exactly when the shooter may fire; bullets never exceed BULLETS_MAX |
| Rules.Fire | src/bricks.cpp:1014-1031 | one shot: a bullet at each end of the paddle, one sound (one draw), SHOOT_RATE more cooldown |
| Rules.MovePaddle | src/bricks.cpp:1045-1054 | only the paddle's x changes; a paddle no wider than the screen ends inside it; a move that stays inside is taken exactly; a move past the left wall puts the paddle's left edge on -1, else one past the right wall puts its right edge on 1 |
| Rules.PaddleMove | src/bricks.cpp:1035-1043 | the paddle's move this frame: right wins over left, at the paddle speed times dt |
| Rules.BulletBricks | src/bricks.cpp:1073-1086 | corrected scan: a miss changes nothing; a hit plays one hit sound; brick and powerup caps hold; which brick is hit is stated by Rules.BulletBricksHitIff and Rules.BulletBricksFirstHit |
| Rules.BulletOverlaps | src/bricks.cpp:1079-1080 | the bullet, as a square of its size, overlaps the brick |
| Rules.BulletBricksHitIff | src/bricks.cpp:1073-1086 | the scan reports a hit iff the bullet overlaps some brick from j on |
| Rules.BulletBricksFirstHit | src/bricks.cpp:1073-1086 | the brick hit is the first one the bullet overlaps, and the result is `hit_brick` on it with damage 1 and a shoot-hit sound |
| Rules.Fly | src/bricks.cpp:1061 | a bullet moves up by its speed times dt |
| Rules.BulletStep | src/bricks.cpp:1059-1087 | the bullet moves; it is removed iff it is then past the top or the brick scan hit; a removal is the swap-remove at i with slot i visited again; a kept bullet is the moved one, with the next slot visited; the bricks, powerups and sounds are the scan's |
| Rules.BulletsPass | src/bricks.cpp:1056-1088 | the pass never plays more hit sounds than bullets it removes; it only appends hit sounds; counts never grow; the powerup cap holds |
| Rules.MoveBall | src/bricks.cpp:1109-1119 | an overlapped ball is pushed by the paddle's move and re-aimed; otherwise it moves by dir times dt |
| Rules.ReflectWalls | src/bricks.cpp:1121-1136 | past the top wall the ball is put at 1 - size and dir.y is negated, else y and dir.y are kept; past the right wall it is put at 1 - size, else past the left wall at -1 + size, dir.x negated in both, else x and dir.x are kept; so it ends inside with its speed unchanged |
| Rules.PaddleHitKind | src/bricks.cpp:1146-1188 | a catch iff the glue is on and no ball is caught; otherwise a left (right) side hit iff the ball moves right (left) on a slanted path that crosses the paddle-top line left of the left edge (right of the right edge); straight descent curves |
| Rules.PaddleBounce | src/bricks.cpp:1138-1191 | a ball off the paddle top is unchanged; a catch stops the ball and records it; a curve takes the curved direction from the paddle top; a side hit flips x and sits the ball against that edge; each non-catch hit then moves the ball by its new dir times dt |
| Rules.Curve | src/bricks.cpp:1156-1186 | the curved bounce (both copies in the source): x turned by the offset from the paddle centre, y reversed, rescaled to the ball speed, the ball placed on the paddle top |
| Rules.BrickBounce | src/bricks.cpp:1202-1243 | exactly one component flips, and the speed is kept; axis motion flips along its axis; otherwise the horizontal one flips iff the path crosses the near side within the brick's height on the side it comes from |
| Rules.VerticalCrossing | src/bricks.cpp:443-458 | the intersection with a vertical line is the point of the path at that x |
| Rules.BallBrickStep | src/bricks.cpp:1196-1248 | an overlapped brick is hit: the ball takes BrickBounce's direction and moves by it times dt, then `hit_brick` gives the brick 2 damage with a ball-hit sound; the next index is j after a removal, else j + 1; a missed brick changes nothing; a hit iff the ball overlaps the brick |
| Rules.BallOverlaps | src/bricks.cpp:1199-1200 | the ball overlaps the brick |
| Rules.BallHit | src/bricks.cpp:1202-1247 | a hit: the rebound, then `hit_brick` with damage 2 and a ball-hit sound |
| Rules.Rebound | src/bricks.cpp:1202-1245 | ball i takes BrickBounce's direction off brick j and moves by it times dt |
| Rules.BallBricks | src/bricks.cpp:1193-1249 | the brick scan changes only ball i among the balls, never adds bricks and respects the powerup cap; the hits are stated by the lemmas below |
| Rules.BallBricksSounds | src/bricks.cpp:1193-1249 | the scan only appends sounds |
| Rules.MissesFrom | src/bricks.cpp:1193-1200 | the ball overlaps no brick from j on |
| Rules.BallBricksMiss | src/bricks.cpp:1193-1249 | a scan over bricks the ball misses changes nothing |
| Rules.BallBricksHitIff | src/bricks.cpp:1193-1249 | the scan changes the state, and plays a sound, iff the ball overlaps some brick from j on |
| Rules.BallBricksSoundAt | src/bricks.cpp:1199-1247 | an overlap at j makes the scan play a sound |
| Rules.BallBricksSkip | src/bricks.cpp:1199-1200 | a brick the ball misses is skipped |
| Rules.BallBricksFirstHit | src/bricks.cpp:1193-1249 | the scan reaches the first overlapped brick with the state unchanged |
| Rules.BallBricksHitAt | src/bricks.cpp:1199-1248 | at an overlapped brick the step hits it, adds one ball-hit sound, and the scan goes on from the step's next index |
| Rules.Pin | src/bricks.cpp:1102-1106 | a caught ball sits on the paddle's centre, on its top |
| Rules.BallFly | src/bricks.cpp:1107-1191 | only ball i and possibly the catch change; a catch only when none was caught |
| Rules.BallStep | src/bricks.cpp:1094-1253 | a ball is removed iff its top is below -1, as the swap-remove at i with slot i visited again; the caught ball is pinned to the paddle; any other flies (BallFly) and then scans the bricks (BallBricks); a kept ball is followed by the next slot |
| Rules.BallsPass | src/bricks.cpp:1090-1254 | the paddle changes at most by catching, when none was caught, a ball at a live slot; counts never grow |
| Rules.Cooldown | src/bricks.cpp:1280-1292 | while the shooter runs, a non-positive cooldown becomes 0 and a positive one counts down; otherwise nothing changes |
| Rules.FillBalls | src/bricks.cpp:1339-1347 | the fill ends with exactly BALLS_MAX balls and keeps the existing ones |
| Rules.SplitFill | src/bricks.cpp:1337-1348 | the split fill on the state: FillBalls from the current draw, two draws per new ball |
| Rules.FillBallsShape | src/bricks.cpp:1341-1346 | each new ball starts at the first ball's place and uses the k-th pair of draws |
| Rules.SplitBallsHaveBallSpeed | src/bricks.cpp:1341-1344 | every split ball moves at the ball speed |
| Rules.Pickup | src/bricks.cpp:1320-1360 | the picked type becomes active with its configured duration and one pickup sound; the balls collapse to at most one; split fills to exactly BALLS_MAX only if a ball exists; shooter resets the cooldown to 0 |
| Rules.Collapse | src/bricks.cpp:1323-1330 | leftover split balls collapse to the first |
| Rules.Effect | src/bricks.cpp:1332-1358 | the effect sets the type's duration and touches only balls, cooldown and draws |
| Rules.Picked | src/bricks.cpp:1320-1321 | a powerup, as a circle of half its width, touches the paddle |
| Rules.Advance | src/bricks.cpp:1365 | a powerup moves by its direction times dt |
| Rules.PowerupStep | src/bricks.cpp:1316-1366 | a powerup is removed iff it touches the paddle; then it is picked up (Pickup) and swap-removed at i, with slot i visited again; otherwise it moves by dir times dt, with the next slot visited |
| Rules.PowerupsPass | src/bricks.cpp:1314-1368 | the corrected pass never adds powerups and keeps the balls within BALLS_MAX |
| Rules.KeptSplit | src/bricks.cpp:1314-1368 | the powerups left after the pass are computed front to back |
| Rules.KeptAfterPickup | src/bricks.cpp:1362 | removing a picked powerup loses nothing that stays in play |
| Rules.KeptAfterAdvance | src/bricks.cpp:1365 | advancing an unpicked powerup moves it into the visited part |
| Rules.PowerupsPassKeepsUnpicked | src/bricks.cpp:1314-1368 | the corrected pass leaves exactly the unpicked powerups, each moved once (as a multiset) |
| Rules.StaleBulletCounterexample | src/bricks.cpp:1073-1086 | as written, with bullets over two bricks one map column apart, the first hit swap-removes bullet 0 and the scan goes on with bullet 1 in its slot, which hits the second brick and is removed at slot -1; corrected, bullet 0 hits once and the second brick is untouched |
| Rules.BulletBricksAsWritten | src/bricks.cpp:1073-1086 | the bullet scan as written: after a hit it goes on with the same slot, now another bullet, and removes again at the decremented index, or writes outside the array |
| Rules.PowerupDoubleMoveCounterexample | src/bricks.cpp:1362-1365 | as written, a powerup swapped into a picked one's slot moves twice; corrected, once |
| Rules.PowerupSlotsAsWritten | src/bricks.cpp:1314-1368 | the powerup loop as written on the pool's slots: after a swap-remove, the powerup moved into slot i is advanced and then visited again |
| Rules.Play | src/bricks.cpp:984-1368 | the passes run in the source's order (expire, shoot, paddle, bullets, balls, cooldown, powerups); a running frame keeps every capacity and leaves mode, score, lives and settings alone |
| Rules.Frame | src/bricks.cpp:926-1368 | outside STARTED the wait step runs; a lost ball with lives left costs one life and play goes on; WIN and OVER end the frame; the capacities hold throughout |
| Game.GameState.constructor | src/bricks.cpp:800-806 | the object is the start state of Rules.Start |
| Game.GameState.NewGame | src/bricks.cpp:781-786 | the state is Rules.NewGame of the old state |
| Game.GameState.NewLevel | src/bricks.cpp:754-777 | the state is Rules.NewLevel of the old state, with a freshly loaded brick array |
| Game.GameState.ClearPools | src/bricks.cpp:756-761 | mode STARTED, effect timer 0, all three pools empty, nothing else changes |
| Game.GameState.EmptyPools | src/bricks.cpp:758-760 | all three pools empty |
| Game.GameState.Wait | src/bricks.cpp:926-941 | the state is Rules.Wait of the old state |
| Game.GameState.WaitStep | src/bricks.cpp:926-958 | the state is Rules.WaitStep of the old state |
| Game.GameState.LoseLife | src/bricks.cpp:962-967 | one life fewer and one new ball, caught at slot 0 |
| Game.GameState.GameOver | src/bricks.cpp:969-973 | OVER with the wait time set, then new_game |
| Game.GameState.RoundCheck | src/bricks.cpp:960-982 | the state and the go-on flag are Rules.RoundCheck of the old state |
| Game.GameState.ExpirePowerup | src/bricks.cpp:987-997 | the state is Rules.ExpirePowerup of the old state |
| Game.GameState.Launch | src/bricks.cpp:1002-1008 | the state is Rules.Shoot of the old state when a ball is caught |
| Game.GameState.Fire | src/bricks.cpp:1009-1032 | the state is Rules.Fire of the old state |
| Game.GameState.CountShot | src/bricks.cpp:1014-1015 | one more draw and shoot sound, and SHOOT_RATE more cooldown; nothing else changes |
| Game.GameState.AddBullets | src/bricks.cpp:1030-1031 | the two bullets are appended in order |
| Game.GameState.Shoot | src/bricks.cpp:999-1033 | the state is Rules.Shoot of the old state |
| Game.GameState.MovePaddle | src/bricks.cpp:1045-1054 | the state is Rules.MovePaddle of the old state |
| Game.GameState.DamageBrick | src/bricks.cpp:721-728 | the state is Rules.Damage of the old state; the flag says whether the health reached 0 or below |
| Game.GameState.RollPowerups | src/bricks.cpp:730-745 | the powerup pool and the next draw are Rules.Spawn of the old pool |
| Game.GameState.SpawnPowerups | src/bricks.cpp:730-745 | only the powerups and the draws change, as Rules.Spawn gives |
| Game.GameState.RemoveBrick | src/bricks.cpp:747-748 | the bricks are their swap-remove at j and the index is rewound |
| Game.GameState.DestroyBrick | src/bricks.cpp:728-749 | the state and the index are Rules.Destroy of the old state |
| Game.GameState.HitBrick | src/bricks.cpp:718-750 | the state and the index are Rules.HitBrick of the old state |
| Game.GameState.BulletBricks | src/bricks.cpp:1073-1086 | the state and the hit flag are Rules.BulletBricks of the old state |
| Game.GameState.FlyBullet | src/bricks.cpp:1061 | only bullet i moves, by Rules.Fly |
| Game.GameState.RemoveBullet | src/bricks.cpp:1067-1070 | the bullets are their swap-remove at i |
| Game.GameState.BulletStep | src/bricks.cpp:1059-1087 | the state and the next index are Rules.BulletStep of the old state |
| Game.GameState.BulletsPass | src/bricks.cpp:1056-1088 | the state is Rules.BulletsPass of the old state |
| Game.GameState.BallBrickStep | src/bricks.cpp:1196-1248 | the state and the next index are Rules.BallBrickStep of the old state |
| Game.GameState.BallHitsBrick | src/bricks.cpp:1202-1247 | the state and the next index are Rules.BallHit of the old state |
| Game.GameState.Rebound | src/bricks.cpp:1202-1245 | the state is Rules.Rebound of the old state |
| Game.GameState.BallBricks | src/bricks.cpp:1193-1249 | the state is Rules.BallBricks of the old state |
| Game.GameState.FlyBall | src/bricks.cpp:1107-1191 | the state is Rules.BallFly of the old state |
| Game.GameState.PinBall | src/bricks.cpp:1102-1106 | the state is Rules.BallStep of the old state for the caught ball |
| Game.GameState.RemoveBall | src/bricks.cpp:1096-1100 | the state is Rules.BallStep of the old state for a ball below the screen |
| Game.GameState.FreeBall | src/bricks.cpp:1107-1249 | the state is Rules.BallStep of the old state for a free ball |
| Game.GameState.BallStep | src/bricks.cpp:1094-1253 | the state and the next index are Rules.BallStep of the old state |
| Game.GameState.BallsPass | src/bricks.cpp:1090-1254 | the state is Rules.BallsPass of the old state |
| Game.GameState.Cooldown | src/bricks.cpp:1280-1292 | the state is Rules.Cooldown of the old state |
| Game.GameState.SplitBall | src/bricks.cpp:1341-1346 | one ball appended at the first ball's place, aimed by the two draws at d |
| Game.GameState.AddBall | src/bricks.cpp:1345-1346 | the ball is appended |
| Game.GameState.FillPool | src/bricks.cpp:1339-1347 | the ball pool is Rules.FillBalls of the old pool, using two draws per new ball |
| Game.GameState.SplitFill | src/bricks.cpp:1337-1348 | the state is Rules.SplitFill of the old state |
| Game.GameState.Collapse | src/bricks.cpp:1323-1330 | the state is Rules.Collapse of the old state |
| Game.GameState.Effect | src/bricks.cpp:1332-1358 | the state is Rules.Effect of the old state |
| Game.GameState.Pickup | src/bricks.cpp:1323-1360 | the state is Rules.Pickup of the old state |
| Game.GameState.PowerupStep | src/bricks.cpp:1316-1366 | the state and the next index are Rules.PowerupStep of the old state |
| Game.GameState.PowerupsPass | src/bricks.cpp:1314-1368 | the state is Rules.PowerupsPass of the old state |
| Game.GameState.Play | src/bricks.cpp:984-1368 | the state is Rules.Play of the old state |
| Game.GameState.Frame | src/bricks.cpp:926-1368 | the state is Rules.Frame of the old state |

## Left out

- Drawing: every OpenGL call, the brick colours, the powerup and paddle images, the lives and score display. These are rendering only.
- The blink roll in `draw_paddle`: it is cosmetic, so it consumes no oracle draw in the model.
- The SDL window, event polling, pause and `SDL_GetTicks` timing: `dt` and the input flags are inputs. The key handler's fall-through from the pause key into shooting is part of event handling, so it is not modelled.
- Audio: loading, freeing and playing sounds and music. A sound play is an event appended to `sounds`; only the draw that picks a sample is modelled.
- `load_image`, opening and reading files, and `load_config`'s printing and `exit`: the map is given as text, and the settings as entries already split into a name and a number. A missing value after an option name is not representable.
- `src/vectors.cpp` and `normalize`: `normalize(v) * speed` is a parameter, assumed only to produce a vector of length `speed` from a nonzero one.
- Exact float behaviour: reals have no rounding, infinities or NaN. Where `get_intersection` divides by zero, the model returns `None`. At the paddle, a path parallel to the paddle top then gets the curve bounce.
- `animation_time` of a powerup: only drawing reads it.
- GAME_STARTING: it is never entered after start-up. The model's initial state goes straight to STARTED, as `new_level` does.
- Level.LoadMap: the capacity contract models the corrected growth step. The growth as written is modelled separately under Findings.
- Rules.BulletsPass and Rules.PowerupsPass, and the `Game` methods built on them, model the corrected loops. The loops as written are modelled separately under Findings.
- Rules.SpawnShape: states the shape of a spawn, not which types spawn. Rules.SpawnFirstRoll states that for the first type tried; the later types follow through Spawn's recursion, one roll each.
- Rules.BulletBricks: its own contract gives the frame and the sound. Which brick is hit is stated by Rules.BulletBricksHitIff and Rules.BulletBricksFirstHit.
- Rules.BallBricks: its own contract gives the frame. The hits are stated by Rules.BallBricksHitIff, Rules.BallBricksMiss, Rules.BallBricksFirstHit and Rules.BallBricksHitAt.
- Rules.PaddleHitKind: on a paddle of zero width, `get_intersection` treats the paddle top as a vertical line, so the side hits never occur; the contract's side-hit condition includes a nonzero width for that reason.
- Rules.BallsPass: a newly caught slot is bounded by the ball count before the pass, not after it. A caught index may name a slot that is no longer live, as the source's `caught_ball` can.

## Findings

| source | as written | input that shows it | evidently intended | confidence | as-written member | corrected member |
|---|---|---|---|---|---|---|
| src/bricks.cpp:663-674 | the grown array is never stored in `items`, and the old array is deleted once per copied brick | a map with 65 bricks: the 65th push writes slot 64 of the 64-slot array after 64 deletes | copy the bricks into the doubled array, then make it the storage | high, not executed | Level.GrowAsWrittenOverflows | Pools.BrickArray.Push |
| src/bricks.cpp:1083-1084 | after a hit swap-removes the bullet, the brick scan goes on with the bullet slot (now another bullet) and may remove again at the decremented index | full-health bricks at (0, 0) and (0.22, 0), a bullet at each in slots 0 and 1: bullet 0 hits, bullet 1 is swapped into slot 0, hits the second brick, and bullet slot -1 is written | a bullet hits at most one brick and the scan stops | high, not executed | Rules.StaleBulletCounterexample | Rules.BulletsPass |
| src/bricks.cpp:1362-1365 | after a picked powerup is swap-removed, line 1365 still moves the powerup now in that slot, which the loop then visits again | a picked powerup at slot 0 and a falling one at slot 1: the falling one moves twice in the frame | each powerup not picked moves exactly once per frame | high, not executed | Rules.PowerupDoubleMoveCounterexample | Rules.PowerupsPassKeepsUnpicked |
