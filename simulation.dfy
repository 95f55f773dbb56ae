/** One frame of the shooter as a pure function of the world: the non-drawing
    body of `update` (GameCanvas.tsx:447-668), its helpers `playerShoot`,
    `spawnPowerUp`, `playerHit` and `startWave`, the run reset
    (GameCanvas.tsx:255-278, 348-363) and the frame clock (GameCanvas.tsx:1164-1168).

    Each phase of the frame is a function from world to world, in the order the
    source runs them; `Frame` composes them. The class in game.dfy performs the
    same phases in place and is proved equal to these functions.

    Sounds and the high-score write to storage are `Effect`s appended to the
    world's effect log. `Math.random()` draws are supplied by the frame input,
    indexed by the position of the entity that consumes them; `Math.sin` is the
    input's `sine`. */
module Simulation {
  import opened GameTypes
  import opened Seqs
  import opened WaveDirector
  import opened SpawnSchedule
  import opened EnemyFactory
  import opened Collision

  /** Everything `update` reads and writes: the game state, the entity lists,
      the game data, the shot cooldown, the frame counter and the effect log. */
  datatype World = World(
    state: GameState,
    player: PlayerShip,
    bullets: seq<Bullet>,
    enemies: seq<Enemy>,
    powerUps: seq<PowerUp>,
    gd: GameData,
    shootCooldown: int,
    frame: int,
    effects: seq<Effect>)

  /** What one frame depends on besides the world: the time step, the keys
      held, the canvas size, the sine function and the random draws (shot
      speeds by enemy index, drop rolls by bullet index, spawn draws by
      release index). The step `dt` is what `FrameDelta` computes from the
      animation timestamps. */
  datatype FrameInput = FrameInput(
    dt: real,
    keys: Keys,
    width: real,
    height: real,
    sine: real -> real,
    shotDraws: nat -> Unit,
    dropDraws: nat -> DropDraws,
    spawnDraws: nat -> EnemyDraws)

  // ===== the run =====

  /** The frame step: the elapsed time in 60 Hz frames, capped at 3; the very
      first frame of a run (no previous timestamp, stored as 0) has step 0. */
  function FrameDelta(timestamp: real, lastTime: real): (dt: real)
    ensures dt <= 3.0
    ensures lastTime == 0.0 ==> dt == 0.0
    ensures lastTime != 0.0 && timestamp >= lastTime ==> dt >= 0.0
    ensures lastTime != 0.0 && timestamp - lastTime <= 3.0 * 16.667 ==> dt == (timestamp - lastTime) / 16.667
  {
    var last := if lastTime == 0.0 then timestamp else lastTime;
    Min((timestamp - last) / 16.667, 3.0)
  }

  /** The ship a run starts with, centred on (cx, ...) with its top at cy. */
  function DefaultPlayer(cx: real, cy: real): (p: PlayerShip)
    ensures p.x + p.width / 2.0 == cx && p.y == cy
    ensures p.lives == 3 && p.invincibleTimer == 0.0 && p.powerUps == ActivePowerUps(0.0, 0.0, 0.0)
  {
    PlayerShip(x := cx - 20.0, y := cy, width := 40.0, height := 44.0, speed := 5.0,
               health := 3, maxHealth := 3, lives := 3, invincibleTimer := 0.0,
               powerUps := ActivePowerUps(0.0, 0.0, 0.0), thrusterFrame := 0)
  }

  /** The game data a run starts with; the stored high score is a parameter.
      A run starts at wave 0 with nothing scored or owed, waiting on the
      between-wave countdown of 60 frames. */
  function DefaultGameData(storedHighScore: int): (gd: GameData)
    ensures gd.score == 0 && gd.wave == 0 && gd.highScore == storedHighScore
    ensures gd.waveEnemiesRemaining == 0 && gd.waveSpawnQueue == []
    ensures gd.betweenWaves && gd.betweenWaveTimer == 60.0
  {
    GameData(score := 0, wave := 0, highScore := storedHighScore, waveEnemiesRemaining := 0,
             waveSpawnQueue := [], waveTimer := 0.0, betweenWaves := true, betweenWaveTimer := 60.0)
  }

  /** The world when the game state turns to playing: a fresh ship centred
      near the bottom, no entities, wave 0 waiting on a 60-frame countdown. */
  function NewRun(width: real, height: real, storedHighScore: int): (w: World)
    ensures w.state == Playing && w.bullets == [] && w.enemies == [] && w.powerUps == []
    ensures w.player.x + w.player.width / 2.0 == width / 2.0 && w.player.y == height - 80.0
    ensures w.player.lives == 3 && w.player.invincibleTimer == 0.0
    ensures w.gd.score == 0 && w.gd.wave == 0 && w.gd.highScore == storedHighScore
    ensures w.gd.betweenWaves && w.gd.betweenWaveTimer == 60.0 && w.gd.waveSpawnQueue == []
    ensures w.shootCooldown == 0 && w.frame == 0 && w.effects == []
  {
    World(state := Playing, player := DefaultPlayer(width / 2.0, height - 80.0),
          bullets := [], enemies := [], powerUps := [], gd := DefaultGameData(storedHighScore),
          shootCooldown := 0, frame := 0, effects := [])
  }

  // ===== movement of the ship =====

  /** The ship's step this frame: its speed, 1.6 times faster while boosted. */
  function MoveSpeed(p: PlayerShip, dt: real): (s: real)
    ensures p.powerUps.speedBoost <= 0.0 ==> s == p.speed * dt
    ensures p.powerUps.speedBoost > 0.0 ==> s == 1.6 * (p.speed * dt)
  {
    p.speed * (if p.powerUps.speedBoost > 0.0 then 1.6 else 1.0) * dt
  }

  /** The ship after the movement keys and the clamp: x within the canvas, y
      within the lower 70% of it, 10 pixels clear of the bottom edge. */
  function Steer(p: PlayerShip, keys: Keys, dt: real, width: real, height: real): (r: PlayerShip)
    ensures r == p.(x := r.x, y := r.y)
    ensures 0.0 <= r.x && (p.width <= width ==> r.x <= width - p.width)
    ensures height * 0.3 <= r.y && (height * 0.3 <= height - p.height - 10.0 ==> r.y <= height - p.height - 10.0)
  {
    var s := MoveSpeed(p, dt);
    var x1 := if keys.left then p.x - s else p.x;
    var x2 := if keys.right then x1 + s else x1;
    var y1 := if keys.up then p.y - s else p.y;
    var y2 := if keys.down then y1 + s else y1;
    p.(x := Clamp(0.0, width - p.width, x2), y := Clamp(height * 0.3, height - p.height - 10.0, y2))
  }

  /** Phase 1: count the frame and move the ship. */
  function Steered(w: World, keys: Keys, dt: real, width: real, height: real): (r: World)
    ensures r == w.(frame := r.frame, player := r.player)
    ensures r.frame == w.frame + 1 && r.player.thrusterFrame == w.player.thrusterFrame + 1
    ensures r.player.lives == w.player.lives && r.player.powerUps == w.player.powerUps
    ensures 0.0 <= r.player.x && height * 0.3 <= r.player.y
  {
    var p := w.player.(thrusterFrame := w.player.thrusterFrame + 1);
    w.(frame := w.frame + 1, player := Steer(p, keys, dt, width, height))
  }

  // ===== the ship's gun =====

  /** The bullets one trigger pull adds: one straight up from the ship's
      centre, or three (straight and two angled) while spread shot lasts. */
  function PlayerShots(p: PlayerShip): (r: seq<Bullet>)
    ensures |r| == if p.powerUps.spreadShot > 0.0 then 3 else 1
    ensures forall b :: b in r ==> b.isPlayerBullet && b.damage == 1 && b.vy == -10.0 && b.y == p.y - 10.0
    ensures r[0].x + r[0].width / 2.0 == p.x + p.width / 2.0 && r[0].vx == 0.0
  {
    var cx := p.x + p.width / 2.0;
    var shot := Bullet(x := cx - 2.0, y := p.y - 10.0, vx := 0.0, vy := -10.0,
                       width := 4.0, height := 12.0, damage := 1, isPlayerBullet := true);
    if p.powerUps.spreadShot > 0.0 then [shot, shot.(x := cx - 12.0, vx := -2.0), shot.(x := cx + 8.0, vx := 2.0)]
    else [shot]
  }

  predicate InLane(b: Bullet, width: real) {
    b.x > -20.0 && b.x < width + 20.0
  }

  function LaneTest(width: real): Bullet -> bool {
    b => InLane(b, width)
  }

  /** `playerShoot`: nothing while the cooldown runs; otherwise the cooldown
      restarts, the laser plays, the shots are added and bullets that have
      left the canvas sideways are dropped. */
  function Trigger(w: World, width: real): (r: World)
    ensures r == w.(shootCooldown := r.shootCooldown, bullets := r.bullets, effects := r.effects)
  {
    if w.shootCooldown > 0 then w
    else w.(shootCooldown := PLAYER_SHOOT_COOLDOWN, effects := w.effects + [PlayLaser],
            bullets := Filter(w.bullets + PlayerShots(w.player), LaneTest(width)))
  }

  /** Phase 2: the cooldown counts down, then the gun is triggered (auto-fire
      is always on). */
  function Fire(w: World, width: real): (r: World)
    ensures r == w.(shootCooldown := r.shootCooldown, bullets := r.bullets, effects := r.effects)
  {
    var c := if w.shootCooldown > 0 then w.shootCooldown - 1 else w.shootCooldown;
    Trigger(w.(shootCooldown := c), width)
  }

  // ===== timers =====

  /** A timer counts down only while it is positive; it is not clamped at 0. */
  function Tick(t: real, dt: real): (r: real)
    ensures t <= 0.0 ==> r == t
    ensures t > 0.0 && dt >= 0.0 ==> -dt < r <= t
  {
    if t > 0.0 then t - dt else t
  }

  /** Phase 3: the three power-up timers and the invincibility timer. */
  function TickTimers(p: PlayerShip, dt: real): (r: PlayerShip)
    ensures r == p.(powerUps := r.powerUps, invincibleTimer := r.invincibleTimer)
  {
    p.(powerUps := ActivePowerUps(Tick(p.powerUps.spreadShot, dt), Tick(p.powerUps.shield, dt),
                                  Tick(p.powerUps.speedBoost, dt)),
       invincibleTimer := Tick(p.invincibleTimer, dt))
  }

  // ===== bullets =====

  function MoveBullet(b: Bullet, dt: real): Bullet {
    b.(x := b.x + b.vx * dt, y := b.y + b.vy * dt)
  }

  function MovedBullets(bs: seq<Bullet>, dt: real): (r: seq<Bullet>)
    ensures |r| == |bs|
    ensures forall i :: 0 <= i < |bs| ==> r[i] == MoveBullet(bs[i], dt)
  {
    seq(|bs|, i requires 0 <= i < |bs| => MoveBullet(bs[i], dt))
  }

  /** A bullet is kept while it is within 20 pixels of the canvas. */
  predicate InField(b: Bullet, width: real, height: real) {
    b.y > -20.0 && b.y < height + 20.0 && b.x > -20.0 && b.x < width + 20.0
  }

  function FieldTest(width: real, height: real): Bullet -> bool {
    b => InField(b, width, height)
  }

  /** Phase 4: every bullet moves, then those out of the field are dropped. */
  function FlyBullets(bs: seq<Bullet>, dt: real, width: real, height: real): (r: seq<Bullet>)
    ensures |r| <= |bs|
    ensures forall b :: b in r <==> b in MovedBullets(bs, dt) && InField(b, width, height)
  {
    FilterMembers(MovedBullets(bs, dt), FieldTest(width, height));
    Filter(MovedBullets(bs, dt), FieldTest(width, height))
  }

  // ===== enemies =====

  /** One enemy after its movement and its firing check. */
  function MovedEnemy(e: Enemy, dt: real, width: real, sine: real -> real): Enemy {
    Reloaded(AdvanceEnemy(e, dt, width, sine))
  }

  function MovedEnemies(es: seq<Enemy>, dt: real, width: real, sine: real -> real): (r: seq<Enemy>)
    ensures |r| == |es|
    ensures forall i :: 0 <= i < |es| ==> r[i] == MovedEnemy(es[i], dt, width, sine)
  {
    seq(|es|, i requires 0 <= i < |es| => MovedEnemy(es[i], dt, width, sine))
  }

  /** Moving enemy i in place extends the moved prefix by one. */
  lemma MovedInPlace(es: seq<Enemy>, i: nat, dt: real, width: real, sine: real -> real)
    requires i < |es|
    ensures (MovedEnemies(es[..i], dt, width, sine) + es[i..])[i := MovedEnemy(es[i], dt, width, sine)]
         == MovedEnemies(es[..i + 1], dt, width, sine) + es[i + 1..]
  {
  }

  /** The enemy shots of one frame, in enemy order; enemy i uses draw i. */
  function Volley(es: seq<Enemy>, dt: real, width: real, sine: real -> real, draws: nat -> Unit): (r: seq<Bullet>)
    ensures |r| <= 5 * |es|
  {
    if es == [] then []
    else
      var last := |es| - 1;
      Volley(es[..last], dt, width, sine, draws) + ShotsOf(AdvanceEnemy(es[last], dt, width, sine), draws(last))
  }

  lemma VolleyStep(es: seq<Enemy>, i: nat, dt: real, width: real, sine: real -> real, draws: nat -> Unit)
    requires i < |es|
    ensures Volley(es[..i + 1], dt, width, sine, draws)
         == Volley(es[..i], dt, width, sine, draws) + ShotsOf(AdvanceEnemy(es[i], dt, width, sine), draws(i))
  {
    assert es[..i + 1][..i] == es[..i];
  }

  /** Phase 5: the enemies move and those that are due fire. */
  function AdvanceEnemies(w: World, dt: real, width: real, sine: real -> real, draws: nat -> Unit): (r: World)
    ensures r == w.(enemies := r.enemies, bullets := r.bullets)
    ensures |r.enemies| == |w.enemies| && |r.bullets| >= |w.bullets| && r.bullets[..|w.bullets|] == w.bullets
  {
    w.(enemies := MovedEnemies(w.enemies, dt, width, sine),
       bullets := w.bullets + Volley(w.enemies, dt, width, sine, draws))
  }

  /** An enemy more than 100 pixels below the canvas has escaped. */
  predicate Escaped(e: Enemy, height: real) {
    e.y > height + 100.0
  }

  function EscapedTest(height: real): Enemy -> bool {
    e => Escaped(e, height)
  }

  function StayTest(height: real): Enemy -> bool {
    e => !Escaped(e, height)
  }

  /** The owed count after n decrements floored at 0: unchanged when n is 0,
      otherwise n less but never below 0. */
  function FloorSub(remaining: int, n: nat): (r: int)
    ensures r == if n == 0 then remaining else MaxInt(0, remaining - n)
  {
    if n == 0 then remaining else MaxInt(0, FloorSub(remaining, n - 1) - 1)
  }

  /** Phase 6: escaped enemies are dropped, each one no longer owed. */
  function DropEscaped(w: World, height: real): (r: World)
    ensures r == w.(gd := r.gd, enemies := r.enemies)
    ensures r.gd == w.gd.(waveEnemiesRemaining := r.gd.waveEnemiesRemaining)
    ensures forall e :: e in r.enemies <==> e in w.enemies && !Escaped(e, height)
    ensures |r.enemies| <= |w.enemies|
    ensures r.gd.waveEnemiesRemaining == FloorSub(w.gd.waveEnemiesRemaining, |w.enemies| - |r.enemies|)
  {
    FilterMembers(w.enemies, StayTest(height));
    FilterSplit(w.enemies, StayTest(height), EscapedTest(height));
    var escaped := Filter(w.enemies, EscapedTest(height));
    w.(gd := w.gd.(waveEnemiesRemaining := FloorSub(w.gd.waveEnemiesRemaining, |escaped|)),
       enemies := Filter(w.enemies, StayTest(height)))
  }

  // ===== power-ups in flight =====

  function MovePowerUp(u: PowerUp, dt: real): PowerUp {
    u.(y := u.y + u.vy * dt)
  }

  function MovedPowerUps(us: seq<PowerUp>, dt: real): (r: seq<PowerUp>)
    ensures |r| == |us|
    ensures forall i :: 0 <= i < |us| ==> r[i] == MovePowerUp(us[i], dt)
  {
    seq(|us|, i requires 0 <= i < |us| => MovePowerUp(us[i], dt))
  }

  /** A power-up is kept until it is 30 pixels below the canvas. */
  predicate AboveBottom(u: PowerUp, height: real) {
    u.y < height + 30.0
  }

  function AboveBottomTest(height: real): PowerUp -> bool {
    u => AboveBottom(u, height)
  }

  /** Phase 7: power-ups drift down and are dropped 30 pixels below the canvas. */
  function DriftPowerUps(us: seq<PowerUp>, dt: real, height: real): (r: seq<PowerUp>)
    ensures |r| <= |us|
    ensures forall u :: u in r <==> u in MovedPowerUps(us, dt) && AboveBottom(u, height)
  {
    FilterMembers(MovedPowerUps(us, dt), AboveBottomTest(height));
    Filter(MovedPowerUps(us, dt), AboveBottomTest(height))
  }

  // ===== phase 8: player bullets against enemies =====

  /** Bullet i against the enemies: a player bullet damages the first enemy it
      overlaps and is marked spent; the enemy is destroyed (scored, no longer
      owed, possibly dropping a power-up, marked for removal) once its health
      reaches 0. */
  function StrikeBullet(w: World, i: nat, d: DropDraws): (r: World)
    requires i < |w.bullets|
    ensures r == w.(bullets := r.bullets, enemies := r.enemies, gd := r.gd, powerUps := r.powerUps, effects := r.effects)
    ensures |r.bullets| == |w.bullets| && |r.enemies| == |w.enemies|
    ensures r.gd == w.gd.(score := r.gd.score, waveEnemiesRemaining := r.gd.waveEnemiesRemaining)
    ensures forall k :: 0 <= k < |w.bullets| && k != i ==> r.bullets[k] == w.bullets[k]
    ensures forall k :: 0 <= k < |w.enemies| ==>
      r.enemies[k] == w.enemies[k].(health := r.enemies[k].health, y := r.enemies[k].y)
  {
    var b := w.bullets[i];
    if !b.isPlayerBullet then w
    else
      var j := FirstStruck(b, w.enemies);
      if j == |w.enemies| then w
      else
        var e := w.enemies[j];
        var health := e.health - b.damage;
        var spent := w.bullets[i := b.(vy := 9999.0, y := SPENT_Y)];
        if health <= 0 then
          w.(bullets := spent,
             enemies := w.enemies[j := e.(health := health, y := DESTROYED_Y)],
             gd := w.gd.(score := w.gd.score + e.points,
                         waveEnemiesRemaining := MaxInt(0, w.gd.waveEnemiesRemaining - 1)),
             powerUps := w.powerUps + PowerUpDrop(e.x + e.width / 2.0, e.y + e.height / 2.0, d),
             effects := w.effects + [PlayExplosion])
        else
          w.(bullets := spent, enemies := w.enemies[j := e.(health := health)], effects := w.effects + [PlayHit])
  }

  /** The first k bullets, in list order, against the enemies; bullet i uses drop draw i. */
  function PlayerVolley(w: World, k: nat, drops: nat -> DropDraws): (r: World)
    requires k <= |w.bullets|
    ensures r == w.(bullets := r.bullets, enemies := r.enemies, gd := r.gd, powerUps := r.powerUps, effects := r.effects)
    ensures |r.bullets| == |w.bullets| && |r.enemies| == |w.enemies|
    ensures r.gd == w.gd.(score := r.gd.score, waveEnemiesRemaining := r.gd.waveEnemiesRemaining)
  {
    if k == 0 then w else StrikeBullet(PlayerVolley(w, k - 1, drops), k - 1, drops(k - 1))
  }

  /** An enemy not marked destroyed. */
  predicate NotDestroyed(e: Enemy) {
    e.y > -9000.0
  }

  function NotDestroyedTest(): Enemy -> bool {
    e => NotDestroyed(e)
  }

  /** Phase 8: all bullets against the enemies, then destroyed enemies are removed. */
  function ResolvePlayerBullets(w: World, drops: nat -> DropDraws): (r: World)
    ensures r == w.(bullets := r.bullets, enemies := r.enemies, gd := r.gd, powerUps := r.powerUps, effects := r.effects)
    ensures |r.bullets| == |w.bullets| && |r.enemies| <= |w.enemies|
    ensures r.gd == w.gd.(score := r.gd.score, waveEnemiesRemaining := r.gd.waveEnemiesRemaining)
    ensures forall e :: e in r.enemies ==> NotDestroyed(e)
  {
    var v := PlayerVolley(w, |w.bullets|, drops);
    FilterMembers(v.enemies, NotDestroyedTest());
    v.(enemies := Filter(v.enemies, NotDestroyedTest()))
  }

  // ===== the ship being hit =====

  /** `playerHit`: a life is lost. With lives left the ship respawns at the
      bottom centre, invincible, without power-ups; otherwise the run is over
      and a new high score is recorded and saved. */
  function HitPlayer(w: World, width: real, height: real): (r: World)
    ensures r == w.(player := r.player, state := r.state, gd := r.gd, effects := r.effects)
    ensures r.player.lives == w.player.lives - 1
    ensures r.player.thrusterFrame == w.player.thrusterFrame
  {
    var p := w.player.(lives := w.player.lives - 1);
    var effects := w.effects + [PlayExplosion];
    if p.lives <= 0 then
      var record := w.gd.score > w.gd.highScore;
      w.(player := p, state := GameOver,
         gd := if record then w.gd.(highScore := w.gd.score) else w.gd,
         effects := effects + (if record then [SaveHighScore(w.gd.score)] else []))
    else
      w.(player := p.(invincibleTimer := INVINCIBILITY_FRAMES, x := width / 2.0 - p.width / 2.0,
                      y := height - 80.0, powerUps := ActivePowerUps(0.0, 0.0, 0.0)),
         effects := effects)
  }

  /** The ship after a shield absorbs a hit: the shield is gone and nothing
      else about the ship changes. */
  function ShieldSpent(p: PlayerShip): (r: PlayerShip)
    ensures r == p.(powerUps := r.powerUps)
    ensures r.powerUps == p.powerUps.(shield := r.powerUps.shield) && r.powerUps.shield == 0.0
  {
    p.(powerUps := p.powerUps.(shield := 0.0))
  }

  /** Phase 9: unless invincible, the first enemy bullet overlapping the ship
      is marked spent and either breaks the shield or costs a life. */
  function ResolveEnemyBullets(w: World, width: real, height: real): (r: World)
    ensures w.player.invincibleTimer > 0.0 ==> r == w
    ensures r == w.(bullets := r.bullets, player := r.player, state := r.state, gd := r.gd, effects := r.effects)
    ensures |r.bullets| == |w.bullets|
    ensures r.player.lives == w.player.lives || r.player.lives == w.player.lives - 1
  {
    if w.player.invincibleTimer > 0.0 then w
    else
      var i := FirstEnemyBullet(w.bullets, w.player);
      if i == |w.bullets| then w
      else
        var w1 := w.(bullets := w.bullets[i := w.bullets[i].(y := SPENT_Y)]);
        if w1.player.powerUps.shield > 0.0 then
          w1.(player := ShieldSpent(w1.player), effects := w1.effects + [PlayHit])
        else HitPlayer(w1, width, height)
  }

  /** Phase 10: unless invincible, touching an enemy breaks the shield
      (silently) or costs a life; the enemy is not harmed. */
  function ResolveContact(w: World, width: real, height: real): (r: World)
    ensures w.player.invincibleTimer > 0.0 || FirstContact(w.player, w.enemies) == |w.enemies| ==> r == w
    ensures r == w.(player := r.player, state := r.state, gd := r.gd, effects := r.effects)
    ensures r.player.lives == w.player.lives || r.player.lives == w.player.lives - 1
  {
    if w.player.invincibleTimer > 0.0 then w
    else if FirstContact(w.player, w.enemies) == |w.enemies| then w
    else if w.player.powerUps.shield > 0.0 then w.(player := ShieldSpent(w.player))
    else HitPlayer(w, width, height)
  }

  // ===== phase 11: pickups =====

  /** The ship after collecting every power-up it overlaps; the source visits
      the list from the back, so the last one is applied first. */
  function Collect(p: PlayerShip, us: seq<PowerUp>): (r: PlayerShip)
    ensures r == p.(powerUps := r.powerUps, lives := r.lives)
  {
    if us == [] then p
    else
      var q := Collect(p, us[1..]);
      if TouchesPowerUp(q, us[0]) then PoweredUp(q, us[0].kind) else q
  }

  function MissTest(p: PlayerShip): PowerUp -> bool {
    u => !TouchesPowerUp(p, u)
  }

  function TouchTest(p: PlayerShip): PowerUp -> bool {
    u => TouchesPowerUp(p, u)
  }

  /** One step of the backward pickup scan: the suffix from i is the
      power-up at i followed by the suffix from i + 1. */
  lemma CollectStep(ship: PlayerShip, us: seq<PowerUp>, i: nat)
    requires i < |us|
    ensures Collect(ship, us[i..]) ==
      (var q := Collect(ship, us[i + 1..]); if TouchesPowerUp(q, us[i]) then PoweredUp(q, us[i].kind) else q)
    ensures Filter(us[i..], MissTest(ship)) ==
      (if TouchesPowerUp(ship, us[i]) then [] else [us[i]]) + Filter(us[i + 1..], MissTest(ship))
    ensures |Filter(us[i..], TouchTest(ship))| ==
      (if TouchesPowerUp(ship, us[i]) then 1 else 0) + |Filter(us[i + 1..], TouchTest(ship))|
  {
    assert us[i..][1..] == us[i + 1..];
    FilterCons(us[i..], MissTest(ship));
    FilterCons(us[i..], TouchTest(ship));
  }

  /** The splice of the backward loop: power-up i is cut out of the list
      exactly when the ship touches it, and the ship it is tested against has
      the same box as the ship before any pickup. */
  lemma SpliceStep(ship: PlayerShip, ups: seq<PowerUp>, us: seq<PowerUp>, i: nat)
    requires i < |ups|
    requires us == ups[..i + 1] + Filter(ups[i + 1..], MissTest(ship))
    ensures us[i] == ups[i]
    ensures TouchesPowerUp(Collect(ship, ups[i + 1..]), ups[i]) == TouchesPowerUp(ship, ups[i])
    ensures (if TouchesPowerUp(ship, ups[i]) then us[..i] + us[i + 1..] else us)
         == ups[..i] + Filter(ups[i..], MissTest(ship))
  {
    CollectStep(ship, ups, i);
    assert ups[..i + 1] == ups[..i] + [ups[i]];
  }

  /** n pickup sounds. */
  function Chimes(n: nat): (r: seq<Effect>)
    ensures |r| == n && forall k :: 0 <= k < n ==> r[k] == PlayPowerUp
  {
    if n == 0 then [] else Chimes(n - 1) + [PlayPowerUp]
  }

  /** Phase 11: every overlapping power-up is applied and removed, with a sound each. */
  function CollectPowerUps(w: World): (r: World)
    ensures r == w.(player := r.player, powerUps := r.powerUps, effects := r.effects)
    ensures forall u :: u in r.powerUps <==> u in w.powerUps && !TouchesPowerUp(w.player, u)
    ensures |r.effects| >= |w.effects| && r.effects[..|w.effects|] == w.effects
  {
    FilterMembers(w.powerUps, MissTest(w.player));
    w.(player := Collect(w.player, w.powerUps),
       powerUps := Filter(w.powerUps, MissTest(w.player)),
       effects := w.effects + Chimes(|Filter(w.powerUps, TouchTest(w.player))|))
  }

  // ===== phase 12: waves =====

  /** `startWave`: the queue of the current wave's manifest, the wave clock at
      0 and every enemy of the wave owed. */
  function StartedWave(gd: GameData): (r: GameData)
    ensures r == gd.(waveSpawnQueue := r.waveSpawnQueue, waveTimer := 0.0,
                     waveEnemiesRemaining := r.waveEnemiesRemaining)
  {
    var groups := GenerateWave(gd.wave).enemies;
    gd.(waveSpawnQueue := WaveQueue(groups), waveTimer := 0.0, waveEnemiesRemaining := TotalCount(groups))
  }

  /** The enemies created for the released entries, in queue order; the k-th
      release uses spawn draw k. */
  function Released(due: seq<SpawnEntry>, width: real, draws: nat -> EnemyDraws): (r: seq<Enemy>)
    ensures |r| == |due|
  {
    if due == [] then []
    else
      var last := |due| - 1;
      Released(due[..last], width, draws) + [CreateEnemy(due[last].kind, width, draws(last))]
  }

  /** Release k is the enemy created for entry k with spawn draw k. */
  lemma {:induction false} ReleasedAt(due: seq<SpawnEntry>, k: nat, width: real, draws: nat -> EnemyDraws)
    requires k < |due|
    ensures Released(due, width, draws)[k] == CreateEnemy(due[k].kind, width, draws(k))
  {
    var last := |due| - 1;
    if k < last {
      ReleasedAt(due[..last], k, width, draws);
    }
  }

  lemma ReleasedStep(due: seq<SpawnEntry>, k: nat, width: real, draws: nat -> EnemyDraws)
    requires k < |due|
    ensures Released(due[..k + 1], width, draws) == Released(due[..k], width, draws) + [CreateEnemy(due[k].kind, width, draws(k))]
  {
    assert due[..k + 1][..k] == due[..k];
  }

  /** Phase 12: between waves the countdown runs and, when it is over, the
      next wave starts; during a wave the clock advances, due entries are
      released, and a cleared wave moves on to the next countdown. */
  function WaveTick(w: World, dt: real, width: real, draws: nat -> EnemyDraws): (r: World)
    ensures w.gd.betweenWaves ==> r == w.(gd := r.gd)
    ensures r == w.(enemies := r.enemies, gd := r.gd)
    ensures |r.enemies| >= |w.enemies| && r.enemies[..|w.enemies|] == w.enemies
    ensures r.gd == w.gd.(waveTimer := r.gd.waveTimer, waveSpawnQueue := r.gd.waveSpawnQueue, wave := r.gd.wave,
                          betweenWaves := r.gd.betweenWaves, betweenWaveTimer := r.gd.betweenWaveTimer,
                          waveEnemiesRemaining := r.gd.waveEnemiesRemaining)
    ensures !w.gd.betweenWaves ==> r.gd.waveEnemiesRemaining == w.gd.waveEnemiesRemaining
    ensures r.gd.wave == w.gd.wave || r.gd.wave == w.gd.wave + 1
  {
    if w.gd.betweenWaves then
      var t := w.gd.betweenWaveTimer - dt;
      if t <= 0.0 then w.(gd := StartedWave(w.gd.(betweenWaveTimer := t, betweenWaves := false)))
      else w.(gd := w.gd.(betweenWaveTimer := t))
    else
      var clock := w.gd.waveTimer + dt;
      var enemies := w.enemies + Released(Due(w.gd.waveSpawnQueue, clock), width, draws);
      var gd := w.gd.(waveTimer := clock, waveSpawnQueue := Pending(w.gd.waveSpawnQueue, clock));
      if gd.waveSpawnQueue == [] && gd.waveEnemiesRemaining <= 0 && enemies == [] then
        w.(enemies := enemies, gd := gd.(wave := gd.wave + 1, betweenWaves := true, betweenWaveTimer := BETWEEN_WAVE_DELAY))
      else w.(enemies := enemies, gd := gd)
  }

  /** Phase 13: the high score follows the score. */
  function KeepHighScore(gd: GameData): (r: GameData)
    ensures r == gd.(highScore := r.highScore)
    ensures r.highScore >= gd.highScore && r.highScore >= gd.score
    ensures r.highScore == gd.highScore || r.highScore == gd.score
  {
    if gd.score > gd.highScore then gd.(highScore := gd.score) else gd
  }

  // ===== the frame =====

  /** Phases 1 to 7: the movement half of the frame. */
  function MovementPhases(w: World, input: FrameInput): (r: World)
    ensures r.frame == w.frame + 1 && r.player.thrusterFrame == w.player.thrusterFrame + 1
  {
    var w1 := Steered(w, input.keys, input.dt, input.width, input.height);
    var w2 := Fire(w1, input.width);
    var w3 := w2.(player := TickTimers(w2.player, input.dt));
    var w4 := w3.(bullets := FlyBullets(w3.bullets, input.dt, input.width, input.height));
    var w5 := AdvanceEnemies(w4, input.dt, input.width, input.sine, input.shotDraws);
    var w6 := DropEscaped(w5, input.height);
    w6.(powerUps := DriftPowerUps(w6.powerUps, input.dt, input.height))
  }

  /** Phases 8 to 13: collisions, waves and the high score. A game over
      reached in phase 9 or 10 does not stop the rest of the frame. */
  function CollisionPhases(w: World, input: FrameInput): (r: World)
    ensures r.frame == w.frame && r.player.thrusterFrame == w.player.thrusterFrame
  {
    var w8 := ResolvePlayerBullets(w, input.dropDraws);
    var w9 := ResolveEnemyBullets(w8, input.width, input.height);
    var w10 := ResolveContact(w9, input.width, input.height);
    var w11 := CollectPowerUps(w10);
    var w12 := WaveTick(w11, input.dt, input.width, input.spawnDraws);
    w12.(gd := KeepHighScore(w12.gd))
  }

  /** `update`: nothing happens unless the game is being played. What a
      played frame does is stated by the lemmas about it: it keeps the
      invariants (`FrameProps.FrameKeepsSound`, `FrameProps.FrameKeepsStaged`),
      its prune removes exactly the enemies at health 0 or below
      (`FrameProps.PruneMatchesHealth`), and `GameLoop.Game.Update` performs it
      in place. */
  function Frame(w: World, input: FrameInput): (r: World)
    ensures w.state != Playing ==> r == w
    ensures w.state == Playing ==> r.frame == w.frame + 1 && r.player.thrusterFrame == w.player.thrusterFrame + 1
  {
    if w.state != Playing then w else CollisionPhases(MovementPhases(w, input), input)
  }
}
