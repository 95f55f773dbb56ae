# KiloMan shooter core in Dafny

A model of the simulation core of the KiloMan arcade shooter: the game component
`app/components/Game/GameCanvas.tsx`. That file holds the wave director
(`generateWave`), the enemy factory (`createEnemy`), the spawn helpers
(`playerShoot`, `enemyShoot`, `spawnPowerUp`), the collision test
(`rectsOverlap`), the per-frame `update` without its drawing, the ship-hit and
pickup procedures (`playerHit`, `applyPowerUp`), the wave scheduler
(`startWave`), the run reset and the frame clock of the animation loop.

The model comes in two layers:

- **Values.** `Simulation` describes one frame as a pure function `Frame` on a
  `World` value. The frame is a chain of phases, one function per phase, in
  the order `update` runs them: ship movement, gun, timers, bullets, enemies,
  escapes, power-up drift, player bullets against enemies, enemy bullets
  against the ship, body contact, pickups, waves and the high score.
  `WaveDirector`, `SpawnSchedule`, `EnemyFactory` and `Collision` hold the
  helpers those phases call.
- **State.** `GameLoop.Game` is a class whose fields are the component's refs.
  Its methods change them in place with the source's loops. Each method is
  proved to leave the game in exactly the state the matching `Simulation`
  function computes. `Game.Update` is proved equal to `Frame`.

The properties are stated on the functions and proved as lemmas, mostly in
`FrameProps`. They cover:

- the boss-wave rule and the wave manifests;
- the timed spawn queue built by `startWave`: sorted, starting at 0, in
  manifest order;
- release of that queue in order;
- the first-match collision rules, damage and kills;
- the invincibility gate and the one-hit shield;
- the semantics of `playerHit`, and what happens when two hits land in one frame;
- pickups;
- an invariant that every frame keeps: nothing is owed below 0, the queue stays
  sorted, and every enemy on the field is alive, worth points and moving down;
- the prune after the bullet pass removes exactly the enemies whose health
  reached 0;
- a score and a high score that never drop.

Behaviour modelled as the code does it, where it may surprise a reader:

- Power-up and invincibility timers count down by `dt` only while positive and
  are not clamped at 0. A timer that runs out ends between `-dt` and 0
  (`FrameProps.TimersCountDown`).
- A fatal `playerHit` grants no invincibility and does not strip the power-ups.
  Only a non-fatal hit does both (`FrameProps.PlayerHitRules`). So on the last
  life, a bullet hit and a body contact in the same frame each cost a life, and
  lives reach -1 (`FrameProps.FatalDoubleHit`). With lives to spare, the first
  hit's invincibility blocks the contact (`FrameProps.NonFatalHitBlocksContact`).
- The shield used up by a bullet does not also cover a contact in the same frame
  (`FrameProps.ShieldThenContact`).
- The switch to game over is a request to the host. The rest of the frame still
  runs: pickups, waves and the high score (`Simulation.CollisionPhases`). Only the
  next frame sees the game-over state and does nothing (`FrameProps.GameOverIsFinal`).
- A spent player bullet is parked at y = -100 with vy = 9999. The next bounds
  filter drops it whenever the step is at most 80/9999 or at least
  (height + 120)/9999 frames (`FrameProps.SpentPlayerShotLeaves`). A step in
  between can put it back in the field: this is proved for one concrete case
  only, a step of 0.05 on an 800 by 600 canvas with the bullet at x = 100,
  which brings it to y = 399.95 (`FrameProps.SpentPlayerShotCanReturn`).
- The high score is raised to the score at the end of every frame (phase 13)
  without being saved. `playerHit` saves only a score above the high score, so
  a record reached in an earlier frame is never written to storage when the
  run ends; only points scored in the fatal frame itself are saved
  (`FrameProps.OldRecordNotSaved`).
- The boss group's delay of 60 is never used. `startWave` pushes each entry at
  the running time and adds the delay after the push, so the boss enters
  20 frames after the last escort (`FrameProps.BossArrival`).

Collaborators outside the core are parameters or effects:

- `Math.random()` draws are inputs of subtype `Unit` = [0, 1). Each draw is
  indexed by the position of what consumes it:
  - shot speeds by enemy index;
  - drop rolls by bullet index;
  - spawn draws by release index.
- `Math.sin` is an arbitrary function `sine`.
- The four sounds and the high-score write to local storage are `Effect`s
  appended to an effect log.
- The stored high score read by `createDefaultGameData` is a parameter.

## Model

| member | source | states |
|---|---|---|
| GameTypes.Clamp | app/components/Game/GameCanvas.tsx:467-468 | the clamp `max(lo, min(hi, v))` is at least lo, at most hi when lo <= hi, and leaves a value already in range unchanged |
| WaveDirector.GenerateWave | app/components/Game/GameCanvas.tsx:122-167 | a manifest is a boss wave iff the index is positive and divisible by 5; it has at least one group; every group has a count of at least 1 and a positive delay; a boss group appears exactly on boss waves and is one boss with delay 60 |
| WaveDirector.IsBossWave | app/components/Game/GameCanvas.tsx:123 | definition of the boss-wave test; a boss wave is never earlier than wave 5; its full behaviour is stated by `GenerateWave` and `FirstBossWave` |
| WaveDirector.Difficulty | app/components/Game/GameCanvas.tsx:124 | the difficulty is floor(n/2): twice it is at most n and at least n - 1 |
| WaveDirector.Templates | app/components/Game/GameCanvas.tsx:137-164 | there are four non-boss templates; each has at least one group, and every group has a count of at least 1, a positive delay and no boss |
| WaveDirector.BossWaveManifest | app/components/Game/GameCanvas.tsx:122-135 | a boss wave's manifest is a group of 2 + floor(n/2) basic enemies with delay 20, then one boss group with delay 60 (a delay the schedule never uses); every other wave asks for no boss |
| WaveDirector.TemplateCountsGrow | app/components/Game/GameCanvas.tsx:137-166 | two non-boss waves in the same slot of the four-template rotation have the same group types and delays, and the later one never has a smaller group |
| WaveDirector.SlotGrows | app/components/Game/GameCanvas.tsx:137-164 | a slot of the template rotation at a higher difficulty has the same group types and delays, and no smaller group |
| WaveDirector.EscortGrows | app/components/Game/GameCanvas.tsx:124-131 | the escort of a later boss wave is never smaller |
| WaveDirector.FirstBossWave | app/components/Game/GameCanvas.tsx:123 | wave 5 is the first boss wave; waves 0, 4 and 6 are not boss waves |
| EnemyFactory.CreateEnemy | app/components/Game/GameCanvas.tsx:169-227 | a new enemy has the requested type, the pattern that type implies, full health of at least 1, positive points and size and speed, starts above the screen with both timers at 0 and its start x at its x; a non-boss spawns within 50 pixels of each side and shoots every 50 to 150 frames; the boss is centred and shoots every 20 frames |
| EnemyFactory.PatternOf | app/components/Game/GameCanvas.tsx:185-220 | basic enemies and tanks fly straight, the boss has the boss pattern, and no other type has either; its use is stated by `CreateEnemy` |
| EnemyFactory.AdvanceEnemy | app/components/Game/GameCanvas.tsx:501-531 | one frame of movement advances both timers by dt, changes nothing but position and timers, moves a straight enemy down by speed times dt, and clamps x onto the screen |
| EnemyFactory.Reloaded | app/components/Game/GameCanvas.tsx:533-537 | an enemy whose shoot timer has reached its interval while below the top edge restarts the timer at 0; otherwise it is unchanged |
| EnemyFactory.EnemyShots | app/components/Game/GameCanvas.tsx:416-436 | `enemyShoot` adds five shots from a boss, with horizontal speeds -3 to 3 in steps of 1.5, and one shot otherwise; every shot is hostile, deals 1 damage, starts at the enemy's bottom edge and falls at 4 to 6 pixels a frame |
| EnemyFactory.BossShot | app/components/Game/GameCanvas.tsx:422-428 | shot i of the boss spread is hostile, deals 1 damage, starts at the given bottom edge, falls at 4, is centred 20·i pixels from the boss centre and moves sideways at 1.5·i |
| EnemyFactory.Fires | app/components/Game/GameCanvas.tsx:534-536 | definition of the firing test; an enemy above the top edge never fires; its effect is stated by `Reloaded` and `ShotsOf` |
| EnemyFactory.ShotsOf | app/components/Game/GameCanvas.tsx:534-536 | an enemy that does not fire adds no shot; one that fires adds five as a boss and one otherwise; every shot is hostile with damage 1 |
| EnemyFactory.ShotsIgnoreTimer | app/components/Game/GameCanvas.tsx:534-536 | resetting the shoot timer before `enemyShoot` does not change the shots |
| Collision.OverlapSymmetric | app/components/Game/GameCanvas.tsx:439-444 | `rectsOverlap` gives the same answer with its two boxes swapped |
| Collision.RectsOverlap | app/components/Game/GameCanvas.tsx:439-444 | two boxes overlap when each starts before the other ends on both axes; boxes whose widths, or whose heights, add up to at most 0 never overlap |
| Collision.AboveIsApart | app/components/Game/GameCanvas.tsx:439-444 | a box wholly above another never overlaps it |
| Collision.FirstStruck | app/components/Game/GameCanvas.tsx:565-588 | the enemy a player bullet hits is the first in list order that it overlaps; no earlier enemy overlaps it |
| Collision.FirstEnemyBullet | app/components/Game/GameCanvas.tsx:594-607 | the bullet that hits the ship is the first enemy bullet in list order that overlaps it |
| Collision.FirstContact | app/components/Game/GameCanvas.tsx:612-623 | the enemy the ship collides with is the first in list order that it overlaps |
| Collision.FirstStruckAt | app/components/Game/GameCanvas.tsx:565-588 | a scan that found no overlap before j and stops at j, on a hit or at the end, stopped where FirstStruck says |
| Collision.FirstEnemyBulletAt | app/components/Game/GameCanvas.tsx:594-607 | a scan that stops at the first enemy bullet overlapping the ship stopped where FirstEnemyBullet says |
| Collision.FirstContactAt | app/components/Game/GameCanvas.tsx:612-623 | a scan that stops at the first enemy the ship overlaps stopped where FirstContact says |
| Collision.PoweredUp | app/components/Game/GameCanvas.tsx:693-700 | `applyPowerUp` sets only the picked timer to 600 frames, or adds a life capped at 5; nothing else about the ship changes |
| Collision.PowerUpDrop | app/components/Game/GameCanvas.tsx:382-389 | `spawnPowerUp` adds nothing when the roll exceeds 0.25; otherwise it adds one 20 by 20 power-up of the type `PickType` draws, centred horizontally on cx with its top at cy, drifting down at 1.5 |
| Collision.PickType | app/components/Game/GameCanvas.tsx:384-385 | the type drawn is spread below 0.25, shield from 0.25 below 0.5, speed from 0.5 below 0.75, and an extra life from 0.75: four equal shares of [0, 1) |
| Simulation.FrameDelta | app/components/Game/GameCanvas.tsx:1164-1168 | the frame step is the elapsed time in 16.667 ms frames, capped at 3; the first frame of a run has step 0 |
| Simulation.DefaultPlayer | app/components/Game/GameCanvas.tsx:255-263 | the starting ship is centred on the given x with its top at the given y, has 3 lives, no invincibility and no power-ups |
| Simulation.DefaultGameData | app/components/Game/GameCanvas.tsx:265-278 | a run starts at wave 0 with no score, nothing owed, an empty queue, the stored high score and a 60-frame countdown to the first wave |
| Simulation.NewRun | app/components/Game/GameCanvas.tsx:348-363 | a reset run is playing, has no bullets, enemies or power-ups, the ship centred 80 pixels above the bottom with 3 lives, score 0, wave 0, the stored high score, an empty queue, a 60-frame countdown, cooldown 0 and frame 0 |
| Simulation.Steer | app/components/Game/GameCanvas.tsx:459-468 | the moved ship changes only position; x stays within the canvas and y within the lower 70% of it, 10 pixels clear of the bottom |
| Simulation.MoveSpeed | app/components/Game/GameCanvas.tsx:460 | the ship steps speed·dt, or 1.6 times that while the speed boost lasts |
| Simulation.Steered | app/components/Game/GameCanvas.tsx:456-468 | phase 1 counts the frame and the thruster animation once and changes nothing but the ship's position; lives and power-ups stay; the ship ends inside the left edge and the upper bound of its band |
| Simulation.PlayerShots | app/components/Game/GameCanvas.tsx:396-408 | a trigger pull adds three shots during spread shot and one otherwise; all are the player's, deal 1 damage, fly up at 10 pixels a frame from 10 pixels above the ship, and the first is centred and straight |
| Simulation.Trigger | app/components/Game/GameCanvas.tsx:391-414 | `playerShoot` changes only the cooldown, the bullets and the effect log |
| Simulation.Fire | app/components/Game/GameCanvas.tsx:470-474 | the cooldown step and the trigger change only the cooldown, the bullets and the effect log |
| Simulation.TickTimers | app/components/Game/GameCanvas.tsx:476-480 | the timer phase changes only the power-up timers and the invincibility timer |
| Simulation.Tick | app/components/Game/GameCanvas.tsx:477-480 | a stopped timer (at most 0) stays put; a running one never rises for dt >= 0 and ends above -dt, so it is not clamped at 0; the per-timer values are stated by `FrameProps.TimersCountDown` |
| Simulation.MovedBullets | app/components/Game/GameCanvas.tsx:492-495 | every bullet moves by its velocity times dt, and no bullet is added or lost |
| Simulation.FlyBullets | app/components/Game/GameCanvas.tsx:491-498 | the bullets kept are exactly the moved bullets within 20 pixels of the canvas; none is added |
| Simulation.MovedEnemies | app/components/Game/GameCanvas.tsx:501-538 | enemy i of the moved list is enemy i moved and reloaded; the count is kept |
| Simulation.AdvanceEnemies | app/components/Game/GameCanvas.tsx:500-538 | the enemy phase changes only the enemies and the bullets; it keeps the number of enemies and keeps the existing bullets as a prefix, adding the shots after them |
| Simulation.Volley | app/components/Game/GameCanvas.tsx:533-536 | the shots of one frame number at most five per enemy; that each is hostile with damage 1 is stated by `FrameProps.VolleyIsHostile`, and `GameLoop.Game.StepEnemies` gathers them in place |
| Simulation.MovedInPlace | app/components/Game/GameCanvas.tsx:501-538 | replacing enemy i in place by its moved self extends the moved prefix by one |
| Simulation.VolleyStep | app/components/Game/GameCanvas.tsx:534-536 | visiting enemy i appends that enemy's shots after those of the enemies before it |
| Simulation.FloorSub | app/components/Game/GameCanvas.tsx:541-544 | n decrements of the owed count, each floored at 0, leave it unchanged when n is 0 and at max(0, count - n) otherwise |
| Simulation.DropEscaped | app/components/Game/GameCanvas.tsx:540-545 | the enemies kept are exactly those not more than 100 pixels below the canvas; the owed count drops once per escaped enemy, floored at 0; nothing else changes |
| Simulation.MovedPowerUps | app/components/Game/GameCanvas.tsx:548 | every power-up drifts down by its speed times dt, and none is added or lost |
| Simulation.DriftPowerUps | app/components/Game/GameCanvas.tsx:547-549 | the power-ups kept are exactly the moved ones less than 30 pixels below the canvas; none is added |
| Simulation.StrikeBullet | app/components/Game/GameCanvas.tsx:564-589 | one bullet's pass changes only the bullets, enemies, score, owed count, power-ups and effects; only bullet i changes, and enemies change only in health and y |
| Simulation.PlayerVolley | app/components/Game/GameCanvas.tsx:564-589 | the pass over the first k bullets keeps both list lengths and changes only the score and the owed count of the game data |
| Simulation.ResolvePlayerBullets | app/components/Game/GameCanvas.tsx:560-590 | the player-bullet phase keeps the bullet count, never adds an enemy, changes only score and owed count in the game data, and leaves no enemy marked destroyed |
| Simulation.HitPlayer | app/components/Game/GameCanvas.tsx:670-691 | `playerHit` costs exactly one life and touches only the ship, the game state, the game data and the effect log |
| Simulation.ShieldSpent | app/components/Game/GameCanvas.tsx:598-599 | a shield that absorbs a hit drops to 0 and nothing else about the ship changes; its uses are stated by `FrameProps.ShieldAbsorbsBullet` and `FrameProps.ShieldAbsorbsContact` |
| Simulation.ResolveEnemyBullets | app/components/Game/GameCanvas.tsx:592-608 | an invincible ship changes nothing; otherwise the phase changes only the bullets, the ship, the game state, the game data and the effects, keeps the bullet count and costs at most one life |
| Simulation.ResolveContact | app/components/Game/GameCanvas.tsx:610-624 | an invincible ship, or one touching no enemy, changes nothing; otherwise only the ship, the game state, the game data and the effects change, at the cost of at most one life |
| Simulation.Collect | app/components/Game/GameCanvas.tsx:627-636 | collecting power-ups changes only the ship's power-up timers and lives |
| Simulation.CollectStep | app/components/Game/GameCanvas.tsx:627-636 | one step of the backward pickup loop: the power-up at i is applied after those behind it and is removed iff the ship overlaps it |
| Simulation.SpliceStep | app/components/Game/GameCanvas.tsx:627-634 | the splice of the backward pickup loop cuts power-up i out exactly when the ship touches it, and the ship tested has the box it had before any pickup |
| Simulation.Chimes | app/components/Game/GameCanvas.tsx:632 | n pickups play n power-up sounds |
| Simulation.CollectPowerUps | app/components/Game/GameCanvas.tsx:626-636 | the power-ups kept are exactly those the ship does not touch; only the ship, the power-ups and the effects change, and the effect log only grows |
| Simulation.StartedWave | app/components/Game/GameCanvas.tsx:702-717 | `startWave` changes only the queue, the owed count and the wave clock, which it sets to 0 |
| Simulation.Released | app/components/Game/GameCanvas.tsx:648-650 | one enemy is created per released entry |
| Simulation.ReleasedAt | app/components/Game/GameCanvas.tsx:648-650 | release k is the enemy created for entry k's type |
| Simulation.ReleasedStep | app/components/Game/GameCanvas.tsx:648-650 | creating entry k's enemy appends it after those released before it |
| Simulation.WaveTick | app/components/Game/GameCanvas.tsx:638-660 | between waves only the game data changes; otherwise only the enemies and the game data change; existing enemies stay as a prefix; score and high score are kept; the owed count changes only when a wave starts; the wave number grows by at most one |
| Simulation.KeepHighScore | app/components/Game/GameCanvas.tsx:662-665 | the high score becomes the larger of itself and the score; nothing else changes |
| Simulation.MovementPhases | app/components/Game/GameCanvas.tsx:456-549 | phases 1 to 7 count the frame and the thruster animation once; that they keep the invariants is stated by `FrameProps.MovementKeepsSound` and `FrameProps.MovementKeepsStaged` |
| Simulation.CollisionPhases | app/components/Game/GameCanvas.tsx:560-665 | phases 8 to 13 leave both counters alone; what they do is stated by `FrameProps.DestroyedArePruned`, `FrameProps.HitPhasesKeepBooks`, `FrameProps.PickupRemovesTouched`, `FrameProps.WaveTickKeepsSound` and `Simulation.KeepHighScore` |
| Simulation.Frame | app/components/Game/GameCanvas.tsx:447-668 | a frame outside play changes nothing; a played frame counts itself and the thruster animation once. What a played frame does beyond that is stated by `FrameProps.FrameKeepsSound`, `FrameProps.FrameKeepsStaged` and `FrameProps.PruneMatchesHealth`, and `GameLoop.Game.Update` performs it in place |
| SpawnSchedule.Repeat | app/components/Game/GameCanvas.tsx:708-712 | a group of n enemies gives n slots, all of the group's type and delay |
| SpawnSchedule.Slots | app/components/Game/GameCanvas.tsx:707-713 | the flattened manifest has one slot per enemy of the total count |
| SpawnSchedule.Schedule | app/components/Game/GameCanvas.tsx:704-713 | the queue has one entry per slot |
| SpawnSchedule.WaveQueue | app/components/Game/GameCanvas.tsx:704-716 | the queue of a manifest has one entry per enemy of the manifest and is sorted by spawn time; its entries are stated by `ScheduleEntry` and `GroupBlock` |
| SpawnSchedule.ScheduleEntry | app/components/Game/GameCanvas.tsx:707-712 | queue entry k has slot k's type and the sum of the delays of all earlier slots as its time |
| SpawnSchedule.DelaySumGrows | app/components/Game/GameCanvas.tsx:710 | the running time never decreases |
| SpawnSchedule.ScheduleSorted | app/components/Game/GameCanvas.tsx:704-713 | the queue is sorted by time and its first entry is at time 0 |
| SpawnSchedule.SlotsPrefix | app/components/Game/GameCanvas.tsx:707-713 | the enemies of the first m groups are a prefix of the whole manifest |
| SpawnSchedule.GroupBlock | app/components/Game/GameCanvas.tsx:707-713 | the queue keeps manifest order: the entries of group i form one contiguous block after those of all earlier groups |
| SpawnSchedule.ScheduleSnoc | app/components/Game/GameCanvas.tsx:709-710 | pushing one slot appends one entry at the running time, which then grows by the slot's delay |
| SpawnSchedule.RepeatSnoc | app/components/Game/GameCanvas.tsx:708-712 | one more iteration of the inner loop appends an entry of the group's type at the running time and advances the time by the group's delay |
| SpawnSchedule.SlotsSnoc | app/components/Game/GameCanvas.tsx:707-713 | one more iteration of the outer loop appends the group's enemies and adds its count to the total |
| SpawnSchedule.RepeatPrefix | app/components/Game/GameCanvas.tsx:708 | the first k enemies of a group are the first k of any longer run of it |
| SpawnSchedule.DelaySumRepeat | app/components/Game/GameCanvas.tsx:710 | n enemies of a group take n times its delay |
| SpawnSchedule.SlotsFromGroups | app/components/Game/GameCanvas.tsx:707-713 | every queued type is the type of some group of the manifest |
| SpawnSchedule.CountAtLeastLast | app/components/Game/GameCanvas.tsx:711 | the total count is at least the last group's count |
| SpawnSchedule.ReleasePartitions | app/components/Game/GameCanvas.tsx:647-652 | every queue entry is either released (time at most the clock) or kept (time after it), never both and never lost |
| SpawnSchedule.Due | app/components/Game/GameCanvas.tsx:648 | the released entries are queue entries whose time is at most the clock, and no more than the queue holds; that they are all such entries, in order, is stated by `ReleasePartitions` and `FrameProps.ReleaseInOrder` |
| SpawnSchedule.Pending | app/components/Game/GameCanvas.tsx:652 | the kept entries are queue entries whose time is after the clock, and no more than the queue holds; the split is stated by `ReleasePartitions` |
| SpawnSchedule.SortedReleaseIsPrefix | app/components/Game/GameCanvas.tsx:647-652 | on a sorted queue the released entries are a prefix and the kept ones the rest |
| SpawnSchedule.DueHead | app/components/Game/GameCanvas.tsx:647-652 | a due head entry is released before the split of the rest |
| SpawnSchedule.SortedTail | app/components/Game/GameCanvas.tsx:651 | the tail of a sorted queue is sorted |
| SpawnSchedule.NothingDueAfterLateHead | app/components/Game/GameCanvas.tsx:647-652 | on a sorted queue whose head is not due, nothing is released and everything is kept |
| SpawnSchedule.PendingSorted | app/components/Game/GameCanvas.tsx:651 | what stays queued from a sorted queue is sorted |
| Seqs.Filter | app/components/Game/GameCanvas.tsx:496-498 | filtering never lengthens a list |
| Seqs.FilterMembers | app/components/Game/GameCanvas.tsx:496-498 | an element survives a filter iff it was in the list and passes the test |
| Seqs.FilterPasses | app/components/Game/GameCanvas.tsx:496-498 | every element a filter keeps passes its test |
| Seqs.FilterAppend | app/components/Game/GameCanvas.tsx:411-413 | filtering a concatenation filters each part |
| Seqs.FilterSplit | app/components/Game/GameCanvas.tsx:541-545 | a filter and its complement split a list, with nothing lost |
| Seqs.FilterKeepsAll | app/components/Game/GameCanvas.tsx:411-413 | a filter that every element passes keeps the list as it is |
| Seqs.FilterKeepsNone | app/components/Game/GameCanvas.tsx:647 | a filter that no element passes gives the empty list |
| Seqs.FilterAgree | app/components/Game/GameCanvas.tsx:590 | two tests that agree on every element filter a list alike |
| Seqs.FilterCons | app/components/Game/GameCanvas.tsx:647-651 | filtering a list is its head, kept or not, followed by the filtered tail |
| FrameProps.FireCadence | app/components/Game/GameCanvas.tsx:471-474 | with the cooldown between 0 and 8, the gun fires (restarting the cooldown at 8, playing the laser, adding the shots) exactly when the cooldown is at most 1; otherwise only the cooldown drops by one |
| FrameProps.FreshShotsKept | app/components/Game/GameCanvas.tsx:402-413 | for a ship inside the canvas the sideways filter never drops the new shots, which come after the surviving old bullets |
| FrameProps.TimersCountDown | app/components/Game/GameCanvas.tsx:476-480 | each timer drops by exactly dt while positive and stays put otherwise; a timer that runs out ends above -dt, not at 0 |
| FrameProps.SteerMovesByStep | app/components/Game/GameCanvas.tsx:460-468 | when the unclamped move stays in bounds, the ship moves by exactly its step along each held direction |
| FrameProps.FlownBulletsInField | app/components/Game/GameCanvas.tsx:491-498 | after the bullet phase every bullet is within 20 pixels of the canvas, and none is added |
| FrameProps.SpentEnemyShotLeaves | app/components/Game/GameCanvas.tsx:597 | an enemy bullet parked at y = -100 is dropped by the next bounds filter for every step up to 3 |
| FrameProps.SpentPlayerShotLeaves | app/components/Game/GameCanvas.tsx:569-570 | a spent player bullet is dropped by the next bounds filter when the step is at most 80/9999 or at least (height + 120)/9999 |
| FrameProps.SpentPlayerShotCanReturn | app/components/Game/GameCanvas.tsx:569-570 | one concrete case: a step of 0.05 on an 800 by 600 canvas brings a spent player bullet at x = 100 back into the field at y = 399.95 |
| FrameProps.VolleyIsHostile | app/components/Game/GameCanvas.tsx:416-436 | enemy fire is never a player bullet and always deals 1 damage |
| FrameProps.EnemyMovesKeepStats | app/components/Game/GameCanvas.tsx:501-538 | the enemy phase changes only position and timers; health, points, type and interval are kept, and x ends on screen |
| FrameProps.EscapeAccounting | app/components/Game/GameCanvas.tsx:540-545 | the escape phase keeps exactly the enemies at most 100 pixels below the canvas, and lowers the owed count by the number escaped, floored at 0 |
| FrameProps.StrikeRules | app/components/Game/GameCanvas.tsx:564-589 | an enemy bullet or a miss changes nothing. A hit does these things: it spends the bullet; it takes exactly the bullet's damage from the first enemy overlapped; the enemy is destroyed iff its health reaches 0. A destroyed enemy is scored, no longer owed, may drop a power-up, plays the explosion and is marked; otherwise only the hit sound plays |
| FrameProps.StrikeKeepsBooks | app/components/Game/GameCanvas.tsx:564-589 | one bullet's pass keeps every dead enemy marked, the owed count non-negative and the score from dropping |
| FrameProps.VolleyKeepsBooks | app/components/Game/GameCanvas.tsx:564-589 | the same holds across any number of bullets |
| FrameProps.StrikeKeepsHarm | app/components/Game/GameCanvas.tsx:564-589 | one bullet's pass changes no bullet's damage |
| FrameProps.VolleyKeepsHarm | app/components/Game/GameCanvas.tsx:564-589 | the pass over any number of bullets changes no bullet's damage |
| FrameProps.StrikeKeepsTags | app/components/Game/GameCanvas.tsx:564-589 | with no healing bullet, one bullet's pass keeps every enemy that still has health above the destroyed mark |
| FrameProps.VolleyKeepsTags | app/components/Game/GameCanvas.tsx:564-589 | the same holds across any number of bullets |
| FrameProps.VolleyStepTags | app/components/Game/GameCanvas.tsx:564-589 | one more bullet of the pass keeps every enemy with health above the destroyed mark |
| FrameProps.DestroyedArePruned | app/components/Game/GameCanvas.tsx:564-590 | the prune removes an enemy exactly when the pass marked it destroyed, and every survivor has health; when every enemy with health starts above the mark and no bullet heals, exactly the enemies at health <= 0 are removed |
| FrameProps.PlayerHitRules | app/components/Game/GameCanvas.tsx:670-691 | a hit costs one life and plays an explosion. With lives left, the ship respawns at the bottom centre, invincible for 120 frames and without power-ups. Otherwise the game is over, the ship keeps its place and power-ups, the high score becomes max(high score, score), and the score is saved only when it is above the high score at that moment; a record already copied by phase 13 of an earlier frame is not saved (`FrameProps.OldRecordNotSaved`) |
| FrameProps.InvincibilityGate | app/components/Game/GameCanvas.tsx:593-624 | while invincible, neither enemy bullets nor enemy bodies change anything |
| FrameProps.ShieldAbsorbsBullet | app/components/Game/GameCanvas.tsx:593-607 | with a shield, the first enemy bullet on the ship is spent, the shield drops to 0, no life is lost and the hit sound plays |
| FrameProps.ShieldAbsorbsContact | app/components/Game/GameCanvas.tsx:611-623 | with a shield, a body contact only drops the shield to 0 |
| FrameProps.ContactDependsOnBox | app/components/Game/GameCanvas.tsx:612-614 | which enemy the ship touches depends only on the ship's box |
| FrameProps.ShieldThenContact | app/components/Game/GameCanvas.tsx:593-624 | a bullet and a contact in the same frame against a shielded ship cost one life: the shield covers only the first |
| FrameProps.FatalDoubleHit | app/components/Game/GameCanvas.tsx:593-624 | on the last life without a shield, a bullet and a contact in the same frame take lives to -1 and end the game |
| FrameProps.NonFatalHitBlocksContact | app/components/Game/GameCanvas.tsx:593-624 | with more than one life, a bullet hit makes the ship invincible, so a contact in the same frame costs nothing |
| FrameProps.OldRecordNotSaved | app/components/Game/GameCanvas.tsx:663-684 | when the score is at most the high score, as every played frame leaves it (`FrameProps.FrameKeepsSound`), the enemy-bullet and contact phases leave the game data alone and log no save, even if the run ends |
| FrameProps.PicksCons | app/components/Game/GameCanvas.tsx:627-636 | the ship overlaps a power-up of a type in a list iff it overlaps the head of that type or one in the tail |
| FrameProps.CollectRules | app/components/Game/GameCanvas.tsx:627-636 | after pickups, each power-up timer is 600 iff a power-up of its type was touched and unchanged otherwise; lives grow by the extra lives touched, capped at 5 |
| FrameProps.PickupRemovesTouched | app/components/Game/GameCanvas.tsx:627-636 | the pickup phase removes exactly the touched power-ups, keeps the rest in order, plays one sound per pickup, and changes nothing else but the ship |
| FrameProps.WaveHasEnemies | app/components/Game/GameCanvas.tsx:122-167 | every manifest asks for at least one enemy |
| FrameProps.StartedWaveRules | app/components/Game/GameCanvas.tsx:702-717 | the started wave owes exactly one enemy per queue entry, at least one; the queue is sorted and starts at time 0; a boss entry appears only on a boss wave; nothing else changes |
| FrameProps.BossArrival | app/components/Game/GameCanvas.tsx:702-717 | on a boss wave the queue is basic enemies at times 0, 20, 40, ... followed by the boss 20 frames after the last of them |
| FrameProps.CountdownStartsWave | app/components/Game/GameCanvas.tsx:639-644 | between waves only the game data changes: when the countdown is over the next wave's queue starts, otherwise only the countdown moves |
| FrameProps.WaveAdvancesWhenCleared | app/components/Game/GameCanvas.tsx:645-660 | during a wave only the enemies and the game data change: the clock advances by dt and the due entries are released and removed; the wave number goes up and a 120-frame countdown starts exactly when the queue is empty, nothing is owed and no enemy is left; no other field changes |
| FrameProps.ReleaseInOrder | app/components/Game/GameCanvas.tsx:647-652 | on a sorted queue the release takes a prefix and leaves a sorted suffix, so enemies enter in queue order across frames |
| FrameProps.SoundIsMarked | app/components/Game/GameCanvas.tsx:564-590 | the frame invariant implies the bookkeeping invariant of the bullet pass |
| FrameProps.NewRunIsSound | app/components/Game/GameCanvas.tsx:348-363 | a reset run satisfies the frame invariant and has no enemy marked destroyed and no healing bullet |
| FrameProps.MovementKeepsSound | app/components/Game/GameCanvas.tsx:456-549 | the movement phases keep the frame invariant and change no game data but the owed count |
| FrameProps.ReleasedAreAlive | app/components/Game/GameCanvas.tsx:648-650 | every released enemy has health and non-negative points |
| FrameProps.WaveTickKeepsSound | app/components/Game/GameCanvas.tsx:638-660 | the wave phase keeps the frame invariant and leaves the score and high score alone |
| FrameProps.HitPhasesKeepBooks | app/components/Game/GameCanvas.tsx:592-636 | the hit and pickup phases leave the enemies and the wave bookkeeping alone and never lower the high score |
| FrameProps.FrameKeepsSound | app/components/Game/GameCanvas.tsx:447-668 | every frame keeps the invariant (no negative owed count, a sorted queue, every enemy alive, worth points and moving down); the score and high score never drop; a played frame ends with the high score at least the score, even when the run ends in it |
| FrameProps.AdvanceNeverRises | app/components/Game/GameCanvas.tsx:505-528 | with a non-negative step, an enemy moving down never moves up, in every movement pattern |
| FrameProps.MovementKeepsHarm | app/components/Game/GameCanvas.tsx:456-549 | the movement phases add only shots of damage 1 and change no bullet's damage |
| FrameProps.MovementKeepsStaged | app/components/Game/GameCanvas.tsx:456-549 | with a non-negative step, the movement phases leave no enemy at or below the destroyed mark |
| FrameProps.PruneMatchesHealth | app/components/Game/GameCanvas.tsx:447-590 | in a frame with a non-negative step, the prune after the bullet pass removes exactly the enemies whose health is at most 0 |
| FrameProps.HitPhasesKeepHarm | app/components/Game/GameCanvas.tsx:592-636 | the hit and pickup phases change no bullet's damage |
| FrameProps.BulletPassStaged | app/components/Game/GameCanvas.tsx:560-590 | the player-bullet phase ends with no enemy marked destroyed and no healing bullet |
| FrameProps.WaveTickKeepsStaged | app/components/Game/GameCanvas.tsx:638-660 | the wave phase adds only enemies above the destroyed mark |
| FrameProps.FrameKeepsStaged | app/components/Game/GameCanvas.tsx:447-668 | whatever its step, every frame ends with no enemy marked destroyed and no healing bullet |
| FrameProps.GameOverIsFinal | app/components/Game/GameCanvas.tsx:448 | once the game is over, a frame changes nothing |
| GameLoop.Game.constructor | app/components/Game/GameCanvas.tsx:348-363 | a new game is the reset run |
| GameLoop.Game.Restart | app/components/Game/GameCanvas.tsx:348-363 | restarting gives the reset run whatever came before; only the effect log is kept |
| GameLoop.Game.Update | app/components/Game/GameCanvas.tsx:447-668 | one `update` call leaves the game in the state `Frame` computes |
| GameLoop.Game.MovePlayer | app/components/Game/GameCanvas.tsx:456-468 | the frame counters and the ship move as `Steered` says |
| GameLoop.Game.PlayerShoot | app/components/Game/GameCanvas.tsx:391-414 | the shot pushes and the sideways filter give `Trigger` |
| GameLoop.Game.CountDownTimers | app/components/Game/GameCanvas.tsx:476-480 | the four timer statements give `TickTimers`, nothing else changes |
| GameLoop.Game.MoveBullets | app/components/Game/GameCanvas.tsx:491-498 | the in-place move loop and the bounds filter give `FlyBullets`, nothing else changes |
| GameLoop.Game.MoveEnemies | app/components/Game/GameCanvas.tsx:500-538 | the enemy loop gives `AdvanceEnemies`: moved enemies and their shots, in enemy order, after the existing bullets |
| GameLoop.Game.StepEnemies | app/components/Game/GameCanvas.tsx:501-538 | the loop replaces each enemy in place by its moved self and gathers the volley in enemy order |
| GameLoop.Game.StepEnemy | app/components/Game/GameCanvas.tsx:502-537 | one enemy's turn yields its moved and reloaded self and its shots |
| GameLoop.Game.EnemyShoot | app/components/Game/GameCanvas.tsx:416-436 | the boss loop from -2 to 2, or the single shot, yields `EnemyShots` |
| GameLoop.Game.RemoveEscapedEnemies | app/components/Game/GameCanvas.tsx:540-545 | the floored decrement loop and the filter give `DropEscaped` |
| GameLoop.Game.MovePowerUps | app/components/Game/GameCanvas.tsx:547-549 | the drift loop and the filter give `DriftPowerUps`, nothing else changes |
| GameLoop.Game.SpawnPowerUp | app/components/Game/GameCanvas.tsx:382-389 | the power-up list grows by exactly `PowerUpDrop`, nothing else changes |
| GameLoop.Game.StrikeWith | app/components/Game/GameCanvas.tsx:565-588 | the inner scan over the enemies, with its early break, gives `StrikeBullet` |
| GameLoop.Game.DamageEnemy | app/components/Game/GameCanvas.tsx:568-585 | once a player bullet has found the first enemy it overlaps, the damage, the spent mark, and either the kill (score, owed count, explosion, drop, destroyed mark) or the hit sound give `StrikeBullet` |
| GameLoop.Game.DestroyEnemy | app/components/Game/GameCanvas.tsx:572-580 | a destroyed enemy adds its points to the score, lowers the owed count floored at 0, plays the explosion, adds the drop of `PowerUpDrop` at its centre and is marked for removal; nothing else changes |
| GameLoop.Game.PlayerBulletsVsEnemies | app/components/Game/GameCanvas.tsx:560-590 | the outer loop over the bullets and the prune give `ResolvePlayerBullets` |
| GameLoop.Game.PlayerHit | app/components/Game/GameCanvas.tsx:670-691 | the procedure gives `HitPlayer` |
| GameLoop.Game.EnemyBulletsVsPlayer | app/components/Game/GameCanvas.tsx:592-608 | the gated scan with its early break gives `ResolveEnemyBullets` |
| GameLoop.Game.EnemiesVsPlayer | app/components/Game/GameCanvas.tsx:610-624 | the gated scan with its early break gives `ResolveContact` |
| GameLoop.Game.ApplyPowerUp | app/components/Game/GameCanvas.tsx:693-700 | the switch changes only the ship, as `PoweredUp` says |
| GameLoop.Game.PlayerVsPowerUps | app/components/Game/GameCanvas.tsx:626-636 | the backward loop with its splice gives `CollectPowerUps` |
| GameLoop.Game.StartWave | app/components/Game/GameCanvas.tsx:702-717 | the game data becomes `StartedWave`, nothing else changes |
| GameLoop.Game.BuildQueue | app/components/Game/GameCanvas.tsx:704-713 | the nested loops build exactly the schedule of the manifest and count its enemies |
| GameLoop.Game.ManageWaves | app/components/Game/GameCanvas.tsx:638-660 | the wave phase gives `WaveTick` |
| GameLoop.Game.CountDownToWave | app/components/Game/GameCanvas.tsx:639-644 | the between-wave branch gives `WaveTick` |
| GameLoop.Game.SpawnFromQueue | app/components/Game/GameCanvas.tsx:645-660 | the in-wave branch gives `WaveTick` |
| GameLoop.Game.CreateDue | app/components/Game/GameCanvas.tsx:648-650 | the spawn loop creates the released enemies in queue order |
| GameLoop.Game.UpdateHighScore | app/components/Game/GameCanvas.tsx:662-665 | the high-score step gives `KeepHighScore`, nothing else changes |

## Left out

- Drawing is not modelled: the canvas, the HUD, the start and game-over screens, and colours.
- Particles and stars are not modelled. They are cosmetic and nothing in the simulation reads them.
- The Web Audio engine is not modelled. Its four sounds are `Effect` values.
- Local storage is not modelled. The high-score write is an `Effect`, and the value read at reset is a parameter. `parseInt` of a corrupt stored value, which gives `NaN`, is not modelled.
- React, keyboard listeners and resize handling are not modelled. The keys held and the canvas size are inputs of each frame. A change of canvas size during play restarts the run in the source, because the size is a dependency of the reset effect (GameCanvas.tsx:363); the model does not restart on its own, but `GameLoop.Game.Restart` is that reset.
- The host's scheduling after `setGameState('gameover')` is not modelled. The model runs the rest of the frame and treats the next frame as seeing the new state.
- `app/components/Game/GameContainer.tsx` and `app/layout.tsx` are not part of this model.
- JavaScript numbers are exact reals here. Floating-point rounding is not modelled.
- The exact sequence of `Math.random()` calls is not modelled. The particle effects interleave their own draws. The model gives each consumer its own indexed draw instead: it keeps which draw decides what, but not their order in one global stream.
- `Math.sin` is an arbitrary function, so no property depends on its values.
- Simulation.MovedEnemies: the shots of the enemy pass are gathered and appended after the pass rather than pushed during it. Nothing reads the bullet list during the pass, so the resulting list is the same.
