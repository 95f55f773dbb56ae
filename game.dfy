/** The game component's mutable state and its per-frame update, as the source
    runs it: the refs of GameCanvas.tsx:243-254 are fields that the methods
    change in place, phase by phase, with the loops of `update`
    (GameCanvas.tsx:447-668), `playerShoot`, `spawnPowerUp`, `playerHit`,
    `applyPowerUp` and `startWave`. Every method is proved to leave the game
    in the state the matching function of `Simulation` computes. */
module GameLoop {
  import opened GameTypes
  import opened Seqs
  import opened WaveDirector
  import opened SpawnSchedule
  import opened EnemyFactory
  import opened Collision
  import opened Simulation

  class Game {
    var state: GameState
    var player: PlayerShip
    var bullets: seq<Bullet>
    var enemies: seq<Enemy>
    var powerUps: seq<PowerUp>
    var gd: GameData
    var shootCooldown: int
    var frame: int
    /** Sounds played and high scores saved, oldest first. */
    var effects: seq<Effect>

    /** The game as a value. */
    function Snapshot(): World
      reads this
    {
      World(state, player, bullets, enemies, powerUps, gd, shootCooldown, frame, effects)
    }

    /** A game whose state has just turned to playing. */
    constructor (width: real, height: real, storedHighScore: int)
      ensures Snapshot() == NewRun(width, height, storedHighScore)
    {
      state := Playing;
      player := DefaultPlayer(width / 2.0, height - 80.0);
      bullets := [];
      enemies := [];
      powerUps := [];
      gd := DefaultGameData(storedHighScore);
      shootCooldown := 0;
      frame := 0;
      effects := [];
    }

    /** The reset run when the game state turns to playing (a new game from
        the start screen or after a game over). The effect log is kept. */
    method Restart(width: real, height: real, storedHighScore: int)
      modifies this
      ensures Snapshot() == NewRun(width, height, storedHighScore).(effects := old(effects))
    {
      state := Playing;
      player := DefaultPlayer(width / 2.0, height - 80.0);
      bullets := [];
      enemies := [];
      powerUps := [];
      gd := DefaultGameData(storedHighScore);
      shootCooldown := 0;
      frame := 0;
    }

    /** One call of `update`. */
    method Update(input: FrameInput)
      modifies this
      ensures Snapshot() == Frame(old(Snapshot()), input)
    {
      if state != Playing {
        return;
      }
      var dt, width, height := input.dt, input.width, input.height;
      MovePlayer(input.keys, dt, width, height);
      if shootCooldown > 0 {
        shootCooldown := shootCooldown - 1;
      }
      PlayerShoot(width);
      CountDownTimers(dt);
      MoveBullets(dt, width, height);
      MoveEnemies(dt, width, input.sine, input.shotDraws);
      RemoveEscapedEnemies(height);
      MovePowerUps(dt, height);
      ghost var moved := Snapshot();
      assert moved == MovementPhases(old(Snapshot()), input);
      PlayerBulletsVsEnemies(input.dropDraws);
      EnemyBulletsVsPlayer(width, height);
      EnemiesVsPlayer(width, height);
      PlayerVsPowerUps();
      ManageWaves(dt, width, input.spawnDraws);
      UpdateHighScore();
    }

    /** Phase 1: the frame counters and the movement keys, then the clamp. */
    method MovePlayer(keys: Keys, dt: real, width: real, height: real)
      modifies this
      ensures Snapshot() == Steered(old(Snapshot()), keys, dt, width, height)
    {
      var p := player.(thrusterFrame := player.thrusterFrame + 1);
      var moveSpeed := MoveSpeed(p, dt);
      var x, y := p.x, p.y;
      if keys.left { x := x - moveSpeed; }
      if keys.right { x := x + moveSpeed; }
      if keys.up { y := y - moveSpeed; }
      if keys.down { y := y + moveSpeed; }
      x := Max(0.0, Min(width - p.width, x));
      y := Max(height * 0.3, Min(height - p.height - 10.0, y));
      frame := frame + 1;
      player := p.(x := x, y := y);
    }

    /** `playerShoot`. */
    method PlayerShoot(width: real)
      modifies this
      ensures Snapshot() == Trigger(old(Snapshot()), width)
    {
      if shootCooldown > 0 {
        return;
      }
      shootCooldown := PLAYER_SHOOT_COOLDOWN;
      effects := effects + [PlayLaser];
      var cx := player.x + player.width / 2.0;
      var base := Bullet(x := cx - 2.0, y := player.y - 10.0, vx := 0.0, vy := -10.0,
                         width := 4.0, height := 12.0, damage := 1, isPlayerBullet := true);
      var bs := bullets;
      if player.powerUps.spreadShot > 0.0 {
        bs := bs + [base];
        bs := bs + [base.(x := cx - 12.0, vx := -2.0)];
        bs := bs + [base.(x := cx + 8.0, vx := 2.0)];
      } else {
        bs := bs + [base];
      }
      assert bs == old(bullets) + PlayerShots(player);
      bullets := Filter(bs, LaneTest(width));
    }

    /** Phase 3: each timer counts down while positive. */
    method CountDownTimers(dt: real)
      modifies this
      ensures Snapshot() == old(Snapshot()).(player := TickTimers(old(player), dt))
    {
      if player.powerUps.spreadShot > 0.0 {
        player := player.(powerUps := player.powerUps.(spreadShot := player.powerUps.spreadShot - dt));
      }
      if player.powerUps.shield > 0.0 {
        player := player.(powerUps := player.powerUps.(shield := player.powerUps.shield - dt));
      }
      if player.powerUps.speedBoost > 0.0 {
        player := player.(powerUps := player.powerUps.(speedBoost := player.powerUps.speedBoost - dt));
      }
      if player.invincibleTimer > 0.0 {
        player := player.(invincibleTimer := player.invincibleTimer - dt);
      }
    }

    /** Phase 4: every bullet moves, then those out of the field are dropped. */
    method MoveBullets(dt: real, width: real, height: real)
      modifies this
      ensures Snapshot() == old(Snapshot()).(bullets := FlyBullets(old(bullets), dt, width, height))
    {
      var bs := bullets;
      var i := 0;
      while i < |bs|
        invariant 0 <= i <= |bs| == |bullets|
        invariant forall k :: 0 <= k < i ==> bs[k] == MoveBullet(bullets[k], dt)
        invariant forall k :: i <= k < |bs| ==> bs[k] == bullets[k]
      {
        var b := bs[i];
        b := b.(x := b.x + b.vx * dt);
        b := b.(y := b.y + b.vy * dt);
        bs := bs[i := b];
        i := i + 1;
      }
      assert bs == MovedBullets(bullets, dt);
      bullets := Filter(bs, FieldTest(width, height));
    }

    /** Phase 5: every enemy moves and, when due, fires; enemy i uses draw i.
        The shots are gathered in enemy order and appended to the bullet list
        after the pass, which nothing in between reads. */
    method MoveEnemies(dt: real, width: real, sine: real -> real, draws: nat -> Unit)
      modifies this
      ensures Snapshot() == AdvanceEnemies(old(Snapshot()), dt, width, sine, draws)
    {
      var es, shots := StepEnemies(enemies, dt, width, sine, draws);
      enemies := es;
      bullets := bullets + shots;
    }

    /** The pass over the enemy list: each enemy is replaced in place by its
        moved self, and its shots join the volley. */
    static method StepEnemies(start: seq<Enemy>, dt: real, width: real, sine: real -> real, draws: nat -> Unit)
      returns (es: seq<Enemy>, shots: seq<Bullet>)
      ensures es == MovedEnemies(start, dt, width, sine)
      ensures shots == Volley(start, dt, width, sine, draws)
    {
      es := start;
      shots := [];
      var i := 0;
      while i < |es|
        invariant 0 <= i <= |es| == |start|
        invariant es == MovedEnemies(start[..i], dt, width, sine) + start[i..]
        invariant shots == Volley(start[..i], dt, width, sine, draws)
      {
        var e, fired := StepEnemy(start[i], dt, width, sine, draws(i));
        VolleyStep(start, i, dt, width, sine, draws);
        MovedInPlace(start, i, dt, width, sine);
        es := es[i := e];
        shots := shots + fired;
        i := i + 1;
      }
      assert start[..i] == start;
    }

    /** One enemy's turn in phase 5: it moves and, when its timer has reached
        its interval while on screen, restarts the timer and fires. */
    static method StepEnemy(e: Enemy, dt: real, width: real, sine: real -> real, draw: Unit)
      returns (r: Enemy, fired: seq<Bullet>)
      ensures r == MovedEnemy(e, dt, width, sine)
      ensures fired == ShotsOf(AdvanceEnemy(e, dt, width, sine), draw)
    {
      var moved := AdvanceEnemy(e, dt, width, sine);
      r := moved;
      fired := [];
      if r.shootTimer >= r.shootInterval && r.y > 0.0 {
        r := r.(shootTimer := 0.0);
        ShotsIgnoreTimer(moved, 0.0, draw);
        fired := EnemyShoot(r, draw);
      }
    }

    /** `enemyShoot`: the boss's five-way spread or a single shot. */
    static method EnemyShoot(e: Enemy, draw: Unit) returns (shots: seq<Bullet>)
      ensures shots == EnemyShots(e, draw)
    {
      var cx := e.x + e.width / 2.0;
      var cy := e.y + e.height;
      if e.isBoss {
        shots := [];
        for i := -2 to 3
          invariant shots == seq(i + 2, k => BossShot(cx, cy, k - 2))
        {
          shots := shots + [BossShot(cx, cy, i)];
        }
      } else {
        shots := [Bullet(x := cx - 3.0, y := cy, vx := 0.0, vy := 4.0 + draw * 2.0,
                         width := 6.0, height := 6.0, damage := 1, isPlayerBullet := false)];
      }
    }

    /** Phase 6: one owed enemy less (floored at 0) per escaped enemy, then
        the escaped ones are dropped. */
    method RemoveEscapedEnemies(height: real)
      modifies this
      ensures Snapshot() == DropEscaped(old(Snapshot()), height)
    {
      var escaped := Filter(enemies, EscapedTest(height));
      var remaining := gd.waveEnemiesRemaining;
      for i := 0 to |escaped|
        invariant remaining == FloorSub(gd.waveEnemiesRemaining, i)
      {
        remaining := MaxInt(0, remaining - 1);
      }
      gd := gd.(waveEnemiesRemaining := remaining);
      enemies := Filter(enemies, StayTest(height));
    }

    /** Phase 7: power-ups drift down, then those below the canvas are dropped. */
    method MovePowerUps(dt: real, height: real)
      modifies this
      ensures Snapshot() == old(Snapshot()).(powerUps := DriftPowerUps(old(powerUps), dt, height))
    {
      var us := powerUps;
      var i := 0;
      while i < |us|
        invariant 0 <= i <= |us| == |powerUps|
        invariant forall k :: 0 <= k < i ==> us[k] == MovePowerUp(powerUps[k], dt)
        invariant forall k :: i <= k < |us| ==> us[k] == powerUps[k]
      {
        us := us[i := us[i].(y := us[i].y + us[i].vy * dt)];
        i := i + 1;
      }
      assert us == MovedPowerUps(powerUps, dt);
      powerUps := Filter(us, AboveBottomTest(height));
    }

    /** `spawnPowerUp`: a drop roll, then a power-up of a picked type. */
    method SpawnPowerUp(cx: real, cy: real, d: DropDraws)
      modifies this
      ensures Snapshot() == old(Snapshot()).(powerUps := old(powerUps) + PowerUpDrop(cx, cy, d))
    {
      if d.roll > POWER_UP_DROP_CHANCE {
        return;
      }
      var kind := PickType(d.pick);
      powerUps := powerUps + [PowerUp(x := cx - 10.0, y := cy, width := 20.0, height := 20.0, kind := kind, vy := 1.5)];
    }

    /** Bullet i against the enemies: the inner loop of phase 8. */
    method StrikeWith(i: nat, d: DropDraws)
      requires i < |bullets|
      modifies this
      ensures Snapshot() == StrikeBullet(old(Snapshot()), i, d)
    {
      var b := bullets[i];
      if !b.isPlayerBullet {
        return;
      }
      var j := 0;
      while j < |enemies| && !BulletHitsEnemy(b, enemies[j])
        invariant 0 <= j <= |enemies|
        invariant forall k :: 0 <= k < j ==> !BulletHitsEnemy(b, enemies[k])
      {
        j := j + 1;
      }
      FirstStruckAt(b, enemies, j);
      if j == |enemies| {
        return;
      }
      DamageEnemy(i, j, d);
    }

    /** The body of the inner loop once player bullet i has hit enemy j, the
        first it overlaps: damage, the spent mark, and the kill or the flash. */
    method DamageEnemy(i: nat, j: nat, d: DropDraws)
      requires i < |bullets| && bullets[i].isPlayerBullet
      requires j < |enemies| && j == FirstStruck(bullets[i], enemies)
      modifies this
      ensures Snapshot() == StrikeBullet(old(Snapshot()), i, d)
    {
      var b := bullets[i];
      var e := enemies[j].(health := enemies[j].health - b.damage);
      bullets := bullets[i := b.(vy := 9999.0, y := SPENT_Y)];
      if e.health <= 0 {
        DestroyEnemy(j, e, d);
      } else {
        effects := effects + [PlayHit];
        enemies := enemies[j := e];
      }
    }

    /** Enemy j, now e, is destroyed: it is scored, no longer owed, may drop
        a power-up, and is marked for removal. */
    method DestroyEnemy(j: nat, e: Enemy, d: DropDraws)
      requires j < |enemies|
      modifies this
      ensures Snapshot() == old(Snapshot()).(
        enemies := old(enemies)[j := e.(y := DESTROYED_Y)],
        gd := old(gd).(score := old(gd.score) + e.points, waveEnemiesRemaining := MaxInt(0, old(gd.waveEnemiesRemaining) - 1)),
        powerUps := old(powerUps) + PowerUpDrop(e.x + e.width / 2.0, e.y + e.height / 2.0, d),
        effects := old(effects) + [PlayExplosion])
    {
      gd := gd.(score := gd.score + e.points, waveEnemiesRemaining := MaxInt(0, gd.waveEnemiesRemaining - 1));
      effects := effects + [PlayExplosion];
      SpawnPowerUp(e.x + e.width / 2.0, e.y + e.height / 2.0, d);
      enemies := enemies[j := e.(y := DESTROYED_Y)];
    }

    /** Phase 8: every player bullet against the enemies in list order, then
        destroyed enemies are removed. */
    method PlayerBulletsVsEnemies(drops: nat -> DropDraws)
      modifies this
      ensures Snapshot() == ResolvePlayerBullets(old(Snapshot()), drops)
    {
      var i := 0;
      while i < |bullets|
        invariant 0 <= i <= |bullets| == |old(bullets)|
        invariant Snapshot() == PlayerVolley(old(Snapshot()), i, drops)
      {
        StrikeWith(i, drops(i));
        i := i + 1;
      }
      enemies := Filter(enemies, NotDestroyedTest());
    }

    /** `playerHit`. */
    method PlayerHit(width: real, height: real)
      modifies this
      ensures Snapshot() == HitPlayer(old(Snapshot()), width, height)
    {
      player := player.(lives := player.lives - 1);
      effects := effects + [PlayExplosion];
      if player.lives <= 0 {
        if gd.score > gd.highScore {
          gd := gd.(highScore := gd.score);
          effects := effects + [SaveHighScore(gd.highScore)];
        }
        state := GameOver;
      } else {
        player := player.(invincibleTimer := INVINCIBILITY_FRAMES);
        player := player.(x := width / 2.0 - player.width / 2.0);
        player := player.(y := height - 80.0);
        player := player.(powerUps := ActivePowerUps(0.0, 0.0, 0.0));
      }
    }

    /** Phase 9: the first enemy bullet on the ship, unless invincible. */
    method EnemyBulletsVsPlayer(width: real, height: real)
      modifies this
      ensures Snapshot() == ResolveEnemyBullets(old(Snapshot()), width, height)
    {
      if player.invincibleTimer > 0.0 {
        return;
      }
      var i := 0;
      while i < |bullets| && !BulletHitsPlayer(bullets[i], player)
        invariant 0 <= i <= |bullets|
        invariant forall k :: 0 <= k < i ==> !BulletHitsPlayer(bullets[k], player)
      {
        i := i + 1;
      }
      FirstEnemyBulletAt(bullets, player, i);
      if i == |bullets| {
        return;
      }
      bullets := bullets[i := bullets[i].(y := SPENT_Y)];
      if player.powerUps.shield > 0.0 {
        player := player.(powerUps := player.powerUps.(shield := 0.0));
        effects := effects + [PlayHit];
      } else {
        PlayerHit(width, height);
      }
    }

    /** Phase 10: the first enemy the ship touches, unless invincible. */
    method EnemiesVsPlayer(width: real, height: real)
      modifies this
      ensures Snapshot() == ResolveContact(old(Snapshot()), width, height)
    {
      if player.invincibleTimer > 0.0 {
        return;
      }
      var j := 0;
      while j < |enemies| && !TouchesEnemy(player, enemies[j])
        invariant 0 <= j <= |enemies|
        invariant forall k :: 0 <= k < j ==> !TouchesEnemy(player, enemies[k])
      {
        j := j + 1;
      }
      FirstContactAt(player, enemies, j);
      if j == |enemies| {
        return;
      }
      if player.powerUps.shield > 0.0 {
        player := player.(powerUps := player.powerUps.(shield := 0.0));
      } else {
        PlayerHit(width, height);
      }
    }

    /** `applyPowerUp`. */
    method ApplyPowerUp(kind: PowerUpType)
      modifies this
      ensures Snapshot() == old(Snapshot()).(player := PoweredUp(old(player), kind))
    {
      match kind
      case Spread => player := player.(powerUps := player.powerUps.(spreadShot := POWER_UP_DURATION));
      case Shield => player := player.(powerUps := player.powerUps.(shield := POWER_UP_DURATION));
      case Speed => player := player.(powerUps := player.powerUps.(speedBoost := POWER_UP_DURATION));
      case Life => player := player.(lives := MinInt(player.lives + 1, MAX_LIVES));
    }

    /** Phase 11: the power-ups from last to first; each one the ship
        overlaps is applied, chimed and spliced out. */
    method PlayerVsPowerUps()
      modifies this
      ensures Snapshot() == CollectPowerUps(old(Snapshot()))
    {
      ghost var ship := player;
      var us := powerUps;
      var fx := effects;
      var i := |us|;
      while i > 0
        invariant 0 <= i <= |old(powerUps)|
        invariant player == Collect(ship, old(powerUps)[i..])
        invariant us == old(powerUps)[..i] + Filter(old(powerUps)[i..], MissTest(ship))
        invariant fx == old(effects) + Chimes(|Filter(old(powerUps)[i..], TouchTest(ship))|)
        invariant Snapshot() == old(Snapshot()).(player := player)
      {
        i := i - 1;
        CollectStep(ship, old(powerUps), i);
        SpliceStep(ship, old(powerUps), us, i);
        var u := us[i];
        if TouchesPowerUp(player, u) {
          ApplyPowerUp(u.kind);
          fx := fx + [PlayPowerUp];
          us := us[..i] + us[i + 1..];
        }
      }
      assert old(powerUps)[0..] == old(powerUps);
      powerUps := us;
      effects := fx;
    }

    /** `startWave`: the manifest of the current wave flattened into a timed
        queue, group by group, enemy by enemy. */
    method StartWave()
      modifies this
      ensures Snapshot() == old(Snapshot()).(gd := StartedWave(old(gd)))
    {
      var queue, totalEnemies := BuildQueue(GenerateWave(gd.wave).enemies);
      gd := gd.(waveSpawnQueue := queue, waveTimer := 0.0, waveEnemiesRemaining := totalEnemies);
    }

    /** The two loops of `startWave`: every enemy of every group is queued at
        the running time, which then advances by the group's delay. */
    static method BuildQueue(groups: seq<WaveGroup>) returns (queue: seq<SpawnEntry>, totalEnemies: int)
      ensures queue == WaveQueue(groups)
      ensures totalEnemies == TotalCount(groups)
    {
      queue := [];
      var time: int := 0;
      totalEnemies := 0;
      for g := 0 to |groups|
        invariant queue == Schedule(Slots(groups[..g]))
        invariant time == DelaySum(Slots(groups[..g]))
        invariant totalEnemies == TotalCount(groups[..g])
      {
        var group := groups[g];
        ghost var done := Slots(groups[..g]);
        assert done + Repeat(group, 0) == done;
        for i := 0 to group.count
          invariant queue == Schedule(done + Repeat(group, i))
          invariant time == DelaySum(done + Repeat(group, i))
          invariant totalEnemies == TotalCount(groups[..g]) + i
        {
          RepeatSnoc(done, group, i);
          queue := queue + [SpawnEntry(group.kind, time)];
          time := time + group.delay;
          totalEnemies := totalEnemies + 1;
        }
        SlotsSnoc(groups, g);
      }
      assert groups[..|groups|] == groups;
    }

    /** Phase 12: the between-wave countdown, or the spawn queue and the
        cleared-wave check. */
    method ManageWaves(dt: real, width: real, draws: nat -> EnemyDraws)
      modifies this
      ensures Snapshot() == WaveTick(old(Snapshot()), dt, width, draws)
    {
      if gd.betweenWaves {
        CountDownToWave(dt, width, draws);
      } else {
        SpawnFromQueue(dt, width, draws);
      }
    }

    /** Between waves: the countdown runs and, once over, the next wave starts. */
    method CountDownToWave(dt: real, width: real, draws: nat -> EnemyDraws)
      requires gd.betweenWaves
      modifies this
      ensures Snapshot() == WaveTick(old(Snapshot()), dt, width, draws)
    {
      gd := gd.(betweenWaveTimer := gd.betweenWaveTimer - dt);
      if gd.betweenWaveTimer <= 0.0 {
        gd := gd.(betweenWaves := false);
        StartWave();
      }
    }

    /** During a wave: the clock advances, every due entry becomes an enemy
        (release k uses spawn draw k), the rest stays queued, and a cleared
        wave starts the between-wave countdown. */
    method SpawnFromQueue(dt: real, width: real, draws: nat -> EnemyDraws)
      requires !gd.betweenWaves
      modifies this
      ensures Snapshot() == WaveTick(old(Snapshot()), dt, width, draws)
    {
      var g := gd.(waveTimer := gd.waveTimer + dt);
      var toSpawn := Due(g.waveSpawnQueue, g.waveTimer);
      var spawned := CreateDue(toSpawn, width, draws);
      var es := enemies + spawned;
      g := g.(waveSpawnQueue := Pending(g.waveSpawnQueue, g.waveTimer));
      if |g.waveSpawnQueue| == 0 && g.waveEnemiesRemaining <= 0 && |es| == 0 {
        g := g.(wave := g.wave + 1);
        g := g.(betweenWaves := true);
        g := g.(betweenWaveTimer := BETWEEN_WAVE_DELAY);
      }
      enemies := es;
      gd := g;
    }

    /** The enemies released this frame, created in queue order (release k
        uses spawn draw k). */
    static method CreateDue(toSpawn: seq<SpawnEntry>, width: real, draws: nat -> EnemyDraws)
      returns (spawned: seq<Enemy>)
      ensures spawned == Released(toSpawn, width, draws)
    {
      spawned := [];
      for k := 0 to |toSpawn|
        invariant spawned == Released(toSpawn[..k], width, draws)
      {
        var e := CreateEnemy(toSpawn[k].kind, width, draws(k));
        ReleasedStep(toSpawn, k, width, draws);
        spawned := spawned + [e];
      }
      assert toSpawn[..|toSpawn|] == toSpawn;
    }

    /** Phase 13. */
    method UpdateHighScore()
      modifies this
      ensures Snapshot() == old(Snapshot()).(gd := KeepHighScore(old(gd)))
    {
      if gd.score > gd.highScore {
        gd := gd.(highScore := gd.score);
      }
    }
  }
}
