# Platformer physics and per-frame evaluation, modelled in Dafny

This project models the core of a small self-learning platformer. A
population of 50 by 50 player sprites runs right across one level of three
fixed platforms. Each frame, every player's fitness is set to its x position
over 100. Its neural network is shown an observation (y / 600, x / 1500, and
the x of the "closest block" / 300). The network's two outputs choose between
stop and go-right and decide whether to attempt a jump. Every player is then
updated: gravity, the horizontal move, a sensor refresh, horizontal collision
resolution, the vertical move and vertical collision resolution. Finally every
player is clamped to the screen.

Modules:

- `Geometry` (geometry.dfy): rectangles, the strict overlap test, and the
  ordered hit list a sprite collision query returns.
- `Levels` (levels.dfy): the Level_01 table `[width, height, x, y]` and the
  `Level` class that builds its platform list once.
- `Physics` (physics.dfy): one frame of `Player.update` as pure functions of a
  `PlayerState` value, with the lemmas that state what a frame guarantees.
- `Players` (players.dfy): the `Player` class with its fields updated in place
  (`Update`, `CalcGrav`, `Jump`, `Stop`, `GoLeft`, `GoRight`). Each method is
  proved to produce the state the `Physics` function gives, and each loop of
  `update` is a method proved against the function that specifies it.
- `Session` (session.dfy): the per-frame block of the main loop over an array
  of players (fitness snapshot, observation, decision, update, screen clamp),
  and the spawning of a cohort.
- `Scenarios` (scenarios.dfy): concrete situations on Level_01.

Units and assumptions:

- Positions and `changeX` are whole pixels, as in the program.
- `changeY` is kept in tenths of a pixel per frame, so gravity is 4, a jump
  sets -100, and the fractional velocity is exact.
- `rect.y += change_y` adds a fractional speed to an integer position. The sum
  is stored into the integer rect, and the model takes that conversion to
  truncate toward zero: `MoveY(y, cy) = trunc((10*y + cy) / 10)`. This is an
  assumption about the graphics library, whose code is not part of this model.
  The sum is truncated, not the speed alone: y = 540 with a speed of -9.6 px
  gives 530.
- Sprite groups iterate in insertion order. So hit lists follow platform-list
  order, and players are updated in cohort order.
- Two rects collide when they overlap strictly: touching edges do not collide.
- The network is a parameter, a pure function from an observation to its first
  two outputs (`Session.Network`), one per player.

Behaviour kept exactly as the code has it:

- `go_left` sets a speed of +5, to the right.
- The `position` argument of the player constructor is ignored, so players
  start at x = 0. The main block then puts them on the floor (y = 550).
- The floor clamp runs inside `calc_grav`, before the vertical move.
- The vertical loop zeroes `change_y` on the first hit. Later hits in the same
  frame therefore do not move the player.
- The closest-block scan compares a distance with a stored absolute x, so it
  does not always pick the nearest platform
  (`Scenarios.ClosestScanIsNotNearest`).
- The observation reads the closest block from the previous update. Its value
  before the first update is 9990.
- Fitness is overwritten every frame with the pre-update x / 100.

## Model

| member | source | states |
|---|---|---|
| `Geometry.Hits` | ai.py:80 | the hit list contains exactly the platforms that overlap the rect, and no more entries than the platform list |
| `Geometry.HitsEmptyIff` | ai.py:137-141 | the hit list is non-empty iff some platform overlaps the rect |
| `Geometry.HitsFirst` | ai.py:106-111 | the first entry of the hit list is the first overlapping platform in list order |
| `Geometry.HitsLast` | ai.py:92-97 | the last entry of the hit list is the last overlapping platform in list order |
| `Levels.PlatformOf` | ai.py:257-259 | a platform's left and top come from the row's x and y, and its size from the row's width and height |
| `Levels.Level01Platforms` | ai.py:247-261 | Level_01 has one platform per table row, in table order |
| `Levels.Level01Rects` | ai.py:247-251 | Level_01's platforms are (200,500,50,100), (700,450,50,150) and (1100,450,50,150) |
| `Levels.Level.Level01` | ai.py:240-261 | building the level by appending one platform per row yields exactly the Level_01 platform list |
| `Physics.Gravity` | ai.py:118-128 | both branches raise the speed by exactly 0.4 px unless the floor snap fires; only y = 550 or the old y can result; ending at or below the floor while not rising means y = 550 and speed 0; above the floor, or while the new speed is upward (rising), nothing is snapped and the speed is the old one plus 0.4 px; together these determine the result |
| `Physics.TruncTenths` | ai.py:103 | the integer position is the fractional sum truncated toward zero, within one pixel of it and on the same side of zero |
| `Physics.HorizontalResolution` | ai.py:92-100 | with no hits or no sideways speed x is unchanged; moving right, the right edge ends on the left edge of the last hit; moving left, the left edge ends on the right edge of the last hit |
| `Physics.ResolveYAtRest` | ai.py:107-116 | once the vertical speed is 0, further hits in the same loop move nothing |
| `Physics.VerticalResolution` | ai.py:103-116 | with no hits nothing changes; after any hit the speed is 0; falling, the bottom ends on the top of the FIRST hit; rising, the top ends on its bottom |
| `Physics.ClosestBlockScan` | ai.py:87-91 | the result is 1500 when no platform has x greater than the player's; otherwise it is 1500 or the x of a platform strictly to the right; it is certainly such an x when one lies less than 1500 px to the right |
| `Physics.NearestTop` | ai.py:77 | the chosen cache entry is in the cache and no entry is nearer to the player's bottom |
| `Physics.NearestTopIsFirst` | ai.py:77 | among equally near entries the first one is chosen |
| `Physics.BlockTopsRefresh` | ai.py:73-77 | after the refresh, entries of platforms right of the player hold their tops and the rest are unchanged; the nearest-top field is the entry nearest the bottom, the first such entry on ties (it equals `NearestTop` of the new cache), or unchanged when no platform lies to the right |
| `Physics.Zeros` | ai.py:69-70 | the freshly allocated cache has one zero entry per platform |
| `Physics.HorizontalPhase` | ai.py:63-100 | after the first half of update the cache is allocated with one entry per platform, the horizontal speed is unchanged, and y and the vertical speed are those `Gravity` gives, so the floor clamp happens before the vertical move |
| `Physics.Updated` | ai.py:61-116 | update keeps the cache well formed and allocated, never re-allocates an existing cache, and never changes the horizontal speed |
| `Physics.UpdateHorizontal` | ai.py:66-100 | a player with no sideways speed keeps its x; with no hit it moves by its speed; with hits it ends flush against the last one in the direction of travel |
| `Physics.UpdateVertical` | ai.py:102-116 | if the vertically moved rect hits platforms, the player ends at speed 0, flush against the first hit; otherwise it keeps the moved y and its speed |
| `Physics.FallingAccelerates` | ai.py:103-128 | a player above the floor whose vertically moved rect touches no platform ends the frame 0.4 px per frame faster downward, at the moved y |
| `Physics.RestingOnFloor` | ai.py:103-128 | a player on the floor at rest whose moved rect touches no platform keeps y = 550 and speed 0, and moves by its horizontal speed |
| `Physics.UpdateSensors` | ai.py:66-91 | closest_block is the scan at the moved x; the cache has one entry per platform (zeros when new); when the player moves, right-side entries hold their tops and the nearest-top field is the entry nearest the bottom, the first such entry on ties (`NearestTop` of the new cache); otherwise both are unchanged |
| `Physics.JumpGate` | ai.py:130-142 | the jump probe succeeds iff a platform overlaps the rect moved 2 px down or the player is at or below y = 550 |
| `Players.Player.constructor` | ai.py:33-59 | a new player sits at the origin at rest, with closest_block 9990, an empty unallocated cache and nearest-top 1500; the position argument is not used |
| `Players.Player.CalcGrav` | ai.py:118-128 | y and the vertical speed become what gravity and the floor snap give; nothing else changes |
| `Players.Player.Update` | ai.py:61-116 | the new state is one frame of motion applied to the old state, and the cache stays well formed |
| `Players.Player.MoveHorizontally` | ai.py:63-100 | in-place gravity, horizontal move, cache allocation and refresh, closest-block scan and horizontal resolution give the first-half state |
| `Players.Player.MoveVertically` | ai.py:102-116 | the in-place vertical move and vertical resolution give the second-half state |
| `Players.Player.Jump` | ai.py:130-142 | the rect is left exactly as found; the vertical speed becomes -10 px iff the probe succeeds, and is otherwise unchanged |
| `Players.Player.Stop` | ai.py:145-147 | sets the horizontal speed to 0 and changes nothing else |
| `Players.Player.GoLeft` | ai.py:149-151 | sets the horizontal speed to +5 and changes nothing else |
| `Players.Player.GoRight` | ai.py:153-155 | sets the horizontal speed to 10 and changes nothing else |
| `Players.AppendZeros` | ai.py:68-71 | the allocation loop appends exactly one zero per platform |
| `Players.RefreshTops` | ai.py:73-77 | the refresh loop computes the cache refresh function |
| `Players.ScanClosestBlock` | ai.py:87-91 | the scan loop computes the closest-block scan function |
| `Players.ResolveHorizontal` | ai.py:92-100 | the horizontal hit loop computes horizontal resolution, last hit wins |
| `Players.ResolveVertical` | ai.py:106-116 | the vertical hit loop computes vertical resolution, first hit wins |
| `Session.Observe` | ai.py:362 | the observation is y / 600, x / 1500 and closest_block / 300, and its first two components lie in [0, 1) for an on-screen player |
| `Session.Fitness` | ai.py:360 | fitness times 100 is the x position; it is non-negative for a non-negative x |
| `Session.Decided` | ai.py:367-372 | the speed ends at 0 iff the first output is positive, else 10; the jump speed is set iff the second output exceeds 0.5 and the probe succeeds; nothing else changes |
| `Session.ClampX` | ai.py:382-388 | the clamped x lies in [0, 1150], equals the old x when already there, and is 1150 or 0 when out of bounds |
| `Session.FrameOutcome` | ai.py:356-388 | after a frame the cache is well formed, the horizontal speed is 0 or 10 as the first output says (never negative), and 0 <= x <= 1150 |
| `Session.SentinelObservation` | ai.py:87-91 | after a move that leaves every platform at or left of the player, the next observation's third value is 1500 / 300 = 5 for any layout |
| `Session.Frame` | ai.py:356-388 | every fitness is the pre-update x / 100, overwritten rather than accumulated; each player's new state is decision, then update, then screen clamp of its old state |
| `Session.DecideAll` | ai.py:356-372 | the decision loop writes each fitness and applies each player's decision, player by player |
| `Session.UpdateAll` | ai.py:376 | every player's state becomes its updated state, with no effect on the other players |
| `Session.ClampAll` | ai.py:382-388 | every player's x is clamped to the screen and nothing else changes |
| `Session.SpawnCohort` | ai.py:275-301 | one fresh, distinct player per genome on the shared level, each with fitness 0 and placed on the floor at x = 0 |
| `Scenarios.FallOntoTallPlatform` | ai.py:249 | a player at x = 710 falling onto the platform (700, 450, 50, 150) ends with its bottom at 450 and speed 0 |
| `Scenarios.ClosestScanIsNotNearest` | ai.py:87-91 | at x = 500 on Level_01 the scan yields 1100 although 700 is nearer |
| `Scenarios.JumpOnlyFromSupport` | ai.py:130-142 | on Level_01 a player on the floor may jump and a player in the air at (400, 300) may not |
| `Scenarios.SpawnedPlayerStaysPut` | ai.py:299-300 | a freshly spawned player with no speed stays at x = 0 on the floor at rest after an update |

## Left out

- Rendering: `Level.draw`, the colour fill of the player image, the display flip and the font set-up are presentation only.
- Keyboard events and the window-close path (ai.py:313-335) are human input and process exit.
- The neural networks: network creation, `activate`, `Population`, `run`, `replay_genome` and the pickle save and load are library calls and file I/O. A network is a function parameter instead.
- The time budget (ai.py:264, 338-353) counts down by 1 / fps, using the library's wall-clock frame rate and float arithmetic. Its shape is not modelled: the decrement is skipped while the measured rate reads 0, and once the budget reaches 0 the loop exits before that frame's fitness and physics.
- Floating point: the vertical speed, the observation and the fitness are floats. The model uses exact tenths and exact reals, so rounding in a sum of 0.4 steps (a speed that should be 0 but is not) is not captured.
- Unused or no-op parts: `enemy_list`, `Level.update` (a no-op group update), the `GEN` and `done` globals, and the unused `position` and `block.player` fields. Also left out: the second entry of `closest_block` (only drawing reads it) and `xtra` (computed and never used).
- Aliasing: the frame methods require the players to be distinct objects, which they are when spawned (`SpawnCohort`). The players share one level, whose platform list is an immutable sequence, so that sharing has no observable effect.
