/** What the frame promises: properties of the phases of `Simulation` and of
    the whole frame, each stated for all worlds and inputs. */
module FrameProps {
  import opened GameTypes
  import opened Seqs
  import opened WaveDirector
  import opened SpawnSchedule
  import opened EnemyFactory
  import opened Collision
  import opened Simulation

  // ===== the gun =====

  /** The cooldown runs from 8 down to 1; the gun fires exactly on the frames
      where it would reach 0, and a frame without a shot changes nothing but
      the cooldown. */
  lemma FireCadence(w: World, width: real)
    requires 0 <= w.shootCooldown <= PLAYER_SHOOT_COOLDOWN
    ensures 1 <= Fire(w, width).shootCooldown <= PLAYER_SHOOT_COOLDOWN
    ensures w.shootCooldown <= 1 ==>
      Fire(w, width) == w.(shootCooldown := PLAYER_SHOOT_COOLDOWN, effects := w.effects + [PlayLaser],
                           bullets := Filter(w.bullets + PlayerShots(w.player), LaneTest(width)))
    ensures w.shootCooldown > 1 ==> Fire(w, width) == w.(shootCooldown := w.shootCooldown - 1)
  {
  }

  /** A ship inside the canvas never has its own fresh shots dropped by the
      sideways bounds filter: they are appended after the survivors. */
  lemma FreshShotsKept(w: World, width: real)
    requires 0.0 <= w.player.width && 0.0 <= w.player.x && w.player.x + w.player.width <= width
    ensures Filter(w.bullets + PlayerShots(w.player), LaneTest(width))
         == Filter(w.bullets, LaneTest(width)) + PlayerShots(w.player)
  {
    var shots := PlayerShots(w.player);
    FilterAppend(w.bullets, shots, LaneTest(width));
    FilterKeepsAll(shots, LaneTest(width));
  }

  // ===== timers =====

  /** Each timer drops by exactly dt while positive and stays put otherwise;
      a timer that runs out ends between -dt and 0, not at 0. */
  lemma TimersCountDown(p: PlayerShip, dt: real)
    requires dt >= 0.0
    ensures var r := TickTimers(p, dt);
      (p.invincibleTimer > 0.0 ==> r.invincibleTimer == p.invincibleTimer - dt && r.invincibleTimer > -dt) &&
      (p.invincibleTimer <= 0.0 ==> r.invincibleTimer == p.invincibleTimer) &&
      (p.powerUps.shield > 0.0 ==> r.powerUps.shield == p.powerUps.shield - dt && r.powerUps.shield > -dt) &&
      (p.powerUps.shield <= 0.0 ==> r.powerUps.shield == p.powerUps.shield) &&
      (p.powerUps.spreadShot > 0.0 ==> r.powerUps.spreadShot == p.powerUps.spreadShot - dt) &&
      (p.powerUps.spreadShot <= 0.0 ==> r.powerUps.spreadShot == p.powerUps.spreadShot) &&
      (p.powerUps.speedBoost > 0.0 ==> r.powerUps.speedBoost == p.powerUps.speedBoost - dt) &&
      (p.powerUps.speedBoost <= 0.0 ==> r.powerUps.speedBoost == p.powerUps.speedBoost)
  {
  }

  // ===== the ship =====

  /** When the unclamped move stays inside the allowed box, the ship moves by
      exactly its step along each axis whose keys are held. */
  lemma SteerMovesByStep(p: PlayerShip, keys: Keys, dt: real, width: real, height: real)
    requires var s := MoveSpeed(p, dt);
      var x := p.x - (if keys.left then s else 0.0) + (if keys.right then s else 0.0);
      var y := p.y - (if keys.up then s else 0.0) + (if keys.down then s else 0.0);
      0.0 <= x <= width - p.width && height * 0.3 <= y <= height - p.height - 10.0
    ensures var s := MoveSpeed(p, dt);
      Steer(p, keys, dt, width, height).x == p.x - (if keys.left then s else 0.0) + (if keys.right then s else 0.0) &&
      Steer(p, keys, dt, width, height).y == p.y - (if keys.up then s else 0.0) + (if keys.down then s else 0.0)
  {
  }

  // ===== bullets =====

  /** After the bullet phase every bullet is within 20 pixels of the canvas,
      and no bullet is created. */
  lemma FlownBulletsInField(bs: seq<Bullet>, dt: real, width: real, height: real)
    ensures |FlyBullets(bs, dt, width, height)| <= |bs|
    ensures forall b :: b in FlyBullets(bs, dt, width, height) ==> InField(b, width, height)
  {
    FilterPasses(MovedBullets(bs, dt), FieldTest(width, height));
  }

  /** A spent enemy bullet (at y = -100, falling slower than 6 pixels a frame)
      is dropped by the next frame's bounds filter, whatever the step up to 3. */
  lemma SpentEnemyShotLeaves(b: Bullet, dt: real, width: real, height: real)
    requires b.y == SPENT_Y && b.vy < 6.0 && 0.0 <= dt <= 3.0
    ensures !InField(MoveBullet(b, dt), width, height)
  {
    if b.vy >= 0.0 {
      NonNegativeProduct(6.0 - b.vy, dt);
      assert b.vy * dt <= 18.0;
    } else {
      assert b.vy * dt <= 0.0;
    }
  }

  lemma NonNegativeProduct(a: real, b: real)
    requires a >= 0.0 && b >= 0.0
    ensures a * b >= 0.0
  {
  }

  /** A spent player bullet (y = -100, vy = 9999) is dropped by the next
      frame's bounds filter unless that frame's step lands it back in the
      field: steps of at most 80/9999 leave it above, steps of at least
      (height + 120)/9999 put it below. */
  lemma SpentPlayerShotLeaves(b: Bullet, dt: real, width: real, height: real)
    requires b.y == SPENT_Y && b.vy == 9999.0
    requires 9999.0 * dt <= 80.0 || 9999.0 * dt >= height + 120.0
    ensures !InField(MoveBullet(b, dt), width, height)
  {
  }

  /** The steps in between do put it back: with a 600-pixel canvas, a step of
      0.05 frames brings the spent bullet to y = 399.95, inside the field. */
  lemma SpentPlayerShotCanReturn()
    ensures var b := Bullet(x := 100.0, y := SPENT_Y, vx := 0.0, vy := 9999.0, width := 4.0, height := 12.0,
                            damage := 1, isPlayerBullet := true);
      InField(MoveBullet(b, 0.05), 800.0, 600.0) && MoveBullet(b, 0.05).y == 399.95
  {
  }

  // ===== enemies =====

  /** Enemy fire is never a player bullet, so it never damages an enemy. */
  lemma {:induction false} VolleyIsHostile(es: seq<Enemy>, dt: real, width: real, sine: real -> real, draws: nat -> Unit)
    ensures forall b :: b in Volley(es, dt, width, sine, draws) ==> !b.isPlayerBullet && b.damage == 1
  {
    if es != [] {
      var last := |es| - 1;
      VolleyIsHostile(es[..last], dt, width, sine, draws);
    }
  }

  /** Movement changes only an enemy's position and timers: health, points,
      type and shot interval are kept, and x ends on screen. */
  lemma EnemyMovesKeepStats(es: seq<Enemy>, dt: real, width: real, sine: real -> real)
    ensures forall i :: 0 <= i < |es| ==>
      var r := MovedEnemies(es, dt, width, sine)[i];
      r == es[i].(x := r.x, y := r.y, patternTimer := r.patternTimer, shootTimer := r.shootTimer) &&
      0.0 <= r.x && (es[i].width <= width ==> r.x <= width - es[i].width)
  {
    forall i | 0 <= i < |es| ensures
      var r := MovedEnemies(es, dt, width, sine)[i];
      r == es[i].(x := r.x, y := r.y, patternTimer := r.patternTimer, shootTimer := r.shootTimer) &&
      0.0 <= r.x && (es[i].width <= width ==> r.x <= width - es[i].width)
    {
      var a := AdvanceEnemy(es[i], dt, width, sine);
      assert MovedEnemies(es, dt, width, sine)[i] == Reloaded(a);
    }
  }

  /** The escape phase splits the enemies into those kept and those escaped,
      keeps none below the line, and lowers the owed count by the number
      escaped, floored at 0. */
  lemma EscapeAccounting(w: World, height: real)
    ensures var r := DropEscaped(w, height);
      var escaped := Filter(w.enemies, EscapedTest(height));
      |r.enemies| + |escaped| == |w.enemies| &&
      (forall e :: e in r.enemies <==> e in w.enemies && !Escaped(e, height)) &&
      r.gd.waveEnemiesRemaining == (if |escaped| == 0 then w.gd.waveEnemiesRemaining
                                    else MaxInt(0, w.gd.waveEnemiesRemaining - |escaped|)) &&
      r == w.(enemies := r.enemies, gd := w.gd.(waveEnemiesRemaining := r.gd.waveEnemiesRemaining))
  {
    FilterSplit(w.enemies, StayTest(height), EscapedTest(height));
    FilterMembers(w.enemies, StayTest(height));
  }

  // ===== player bullets =====

  /** One bullet's pass, case by case: enemy bullets and misses change
      nothing; a hit spends the bullet and takes exactly its damage from the
      first enemy it overlaps; the enemy is destroyed iff its health reaches
      0, and only then is it scored, no longer owed and marked for removal. */
  lemma StrikeRules(w: World, i: nat, d: DropDraws)
    requires i < |w.bullets|
    ensures var b := w.bullets[i];
      var j := FirstStruck(b, w.enemies);
      var r := StrikeBullet(w, i, d);
      ((!b.isPlayerBullet || j == |w.enemies|) ==> r == w) &&
      (b.isPlayerBullet && j < |w.enemies| ==>
        var e := w.enemies[j];
        var health := e.health - b.damage;
        r.bullets == w.bullets[i := b.(vy := 9999.0, y := SPENT_Y)] &&
        (forall k :: 0 <= k < |w.enemies| && k != j ==> r.enemies[k] == w.enemies[k]) &&
        r.enemies[j].health == health &&
        (health <= 0 ==>
          r.enemies[j].y == DESTROYED_Y &&
          r.gd.score == w.gd.score + e.points &&
          r.gd.waveEnemiesRemaining == MaxInt(0, w.gd.waveEnemiesRemaining - 1) &&
          r.effects == w.effects + [PlayExplosion] &&
          r.powerUps == w.powerUps + PowerUpDrop(e.x + e.width / 2.0, e.y + e.height / 2.0, d)) &&
        (health > 0 ==>
          r.enemies[j] == e.(health := health) &&
          r.gd == w.gd && r.powerUps == w.powerUps && r.effects == w.effects + [PlayHit]))
  {
  }

  /** The bookkeeping invariant of the bullet pass: points and speeds are
      never negative and an enemy at or below 0 health is marked destroyed. */
  predicate Marked(es: seq<Enemy>) {
    forall k :: 0 <= k < |es| ==>
      es[k].points >= 0 && es[k].speed >= 0.0 && (es[k].health <= 0 ==> es[k].y == DESTROYED_Y)
  }

  lemma StrikeKeepsBooks(w: World, i: nat, d: DropDraws)
    requires i < |w.bullets| && Marked(w.enemies) && w.gd.waveEnemiesRemaining >= 0
    ensures var r := StrikeBullet(w, i, d);
      Marked(r.enemies) && r.gd.waveEnemiesRemaining >= 0 && r.gd.score >= w.gd.score
  {
    var r := StrikeBullet(w, i, d);
    StrikeRules(w, i, d);
    var b := w.bullets[i];
    var j := FirstStruck(b, w.enemies);
    if b.isPlayerBullet && j < |w.enemies| {
      forall k | 0 <= k < |r.enemies|
        ensures r.enemies[k].points >= 0 && r.enemies[k].speed >= 0.0
             && (r.enemies[k].health <= 0 ==> r.enemies[k].y == DESTROYED_Y)
      {
        if k != j {
          assert r.enemies[k] == w.enemies[k];
        }
      }
    }
  }

  /** The invariant holds across the first k bullets, the score never drops
      and the owed count never goes negative. */
  lemma {:induction false} VolleyKeepsBooks(w: World, k: nat, drops: nat -> DropDraws)
    requires k <= |w.bullets| && Marked(w.enemies) && w.gd.waveEnemiesRemaining >= 0
    ensures var r := PlayerVolley(w, k, drops);
      Marked(r.enemies) && r.gd.waveEnemiesRemaining >= 0 && r.gd.score >= w.gd.score
  {
    if k > 0 {
      VolleyKeepsBooks(w, k - 1, drops);
      StrikeKeepsBooks(PlayerVolley(w, k - 1, drops), k - 1, drops(k - 1));
    }
  }

  /** Every enemy that still has health is above the destroyed mark. */
  predicate Tagged(es: seq<Enemy>) {
    forall k :: 0 <= k < |es| ==> es[k].health > 0 ==> NotDestroyed(es[k])
  }

  /** No bullet heals what it hits. */
  predicate Harmful(bs: seq<Bullet>) {
    forall b :: b in bs ==> b.damage >= 0
  }

  predicate Alive(e: Enemy) {
    e.health > 0
  }

  function AliveTest(): Enemy -> bool {
    e => Alive(e)
  }

  /** One bullet's pass changes no bullet's damage. */
  lemma StrikeKeepsHarm(w: World, i: nat, d: DropDraws)
    requires i < |w.bullets| && Harmful(w.bullets)
    ensures Harmful(StrikeBullet(w, i, d).bullets)
  {
    var r := StrikeBullet(w, i, d);
    StrikeRules(w, i, d);
    forall c | c in r.bullets ensures c.damage >= 0 {
      var k :| 0 <= k < |r.bullets| && r.bullets[k] == c;
      assert w.bullets[k] in w.bullets;
    }
  }

  lemma {:induction false} VolleyKeepsHarm(w: World, k: nat, drops: nat -> DropDraws)
    requires k <= |w.bullets| && Harmful(w.bullets)
    ensures Harmful(PlayerVolley(w, k, drops).bullets)
  {
    if k > 0 {
      VolleyKeepsHarm(w, k - 1, drops);
      StrikeKeepsHarm(PlayerVolley(w, k - 1, drops), k - 1, drops(k - 1));
    }
  }

  /** One bullet's pass keeps every enemy with health above the mark: a hit
      that leaves health moves nothing, and one that does not marks it. */
  lemma StrikeKeepsTags(w: World, i: nat, d: DropDraws)
    requires i < |w.bullets| && Marked(w.enemies) && Tagged(w.enemies) && Harmful(w.bullets)
    ensures Tagged(StrikeBullet(w, i, d).enemies)
  {
    var r := StrikeBullet(w, i, d);
    StrikeRules(w, i, d);
    var b := w.bullets[i];
    var j := FirstStruck(b, w.enemies);
    if b.isPlayerBullet && j < |w.enemies| {
      assert b in w.bullets;
      forall k | 0 <= k < |r.enemies| && r.enemies[k].health > 0 ensures NotDestroyed(r.enemies[k]) {
        if k == j {
          assert w.enemies[j].health > 0;
        }
      }
    }
  }

  /** The same across the first k bullets. */
  lemma {:induction false} VolleyKeepsTags(w: World, k: nat, drops: nat -> DropDraws)
    requires k <= |w.bullets| && Marked(w.enemies) && w.gd.waveEnemiesRemaining >= 0
    requires Tagged(w.enemies) && Harmful(w.bullets)
    ensures Tagged(PlayerVolley(w, k, drops).enemies)
  {
    if k > 0 {
      VolleyKeepsTags(w, k - 1, drops);
      VolleyKeepsBooks(w, k - 1, drops);
      VolleyKeepsHarm(w, k - 1, drops);
      VolleyStepTags(w, k, drops);
    }
  }

  lemma VolleyStepTags(w: World, k: nat, drops: nat -> DropDraws)
    requires 0 < k <= |w.bullets|
    requires var v := PlayerVolley(w, k - 1, drops);
      Marked(v.enemies) && Tagged(v.enemies) && Harmful(v.bullets)
    ensures Tagged(PlayerVolley(w, k, drops).enemies)
  {
    StrikeKeepsTags(PlayerVolley(w, k - 1, drops), k - 1, drops(k - 1));
  }

  /** After the bullet pass an enemy is removed exactly when it is marked
      destroyed, and every survivor still has health. When every enemy with
      health started above the mark and no bullet heals, the enemies removed
      are exactly those whose health reached 0. */
  lemma DestroyedArePruned(w: World, drops: nat -> DropDraws)
    requires Marked(w.enemies) && w.gd.waveEnemiesRemaining >= 0
    ensures var v := PlayerVolley(w, |w.bullets|, drops);
      var r := ResolvePlayerBullets(w, drops);
      (forall e :: e in r.enemies <==> e in v.enemies && NotDestroyed(e)) &&
      (forall e :: e in r.enemies ==> e.health > 0 && e.points >= 0 && e.speed >= 0.0) &&
      r.gd.waveEnemiesRemaining >= 0 && r.gd.score >= w.gd.score &&
      (Tagged(w.enemies) && Harmful(w.bullets) ==> r.enemies == Filter(v.enemies, AliveTest()))
  {
    var v := PlayerVolley(w, |w.bullets|, drops);
    VolleyKeepsBooks(w, |w.bullets|, drops);
    FilterMembers(v.enemies, NotDestroyedTest());
    forall e | e in Filter(v.enemies, NotDestroyedTest()) ensures e.health > 0 && e.points >= 0 && e.speed >= 0.0 {
      var k :| 0 <= k < |v.enemies| && v.enemies[k] == e;
    }
    if Tagged(w.enemies) && Harmful(w.bullets) {
      VolleyKeepsTags(w, |w.bullets|, drops);
      forall e | e in v.enemies ensures NotDestroyedTest()(e) == AliveTest()(e) {
        var k :| 0 <= k < |v.enemies| && v.enemies[k] == e;
      }
      FilterAgree(v.enemies, NotDestroyedTest(), AliveTest());
    }
  }

  // ===== the ship being hit =====

  /** `playerHit`: one life less and an explosion. With lives left the ship
      respawns at the bottom centre, invincible for 120 frames, without
      power-ups, and the game goes on; otherwise the game is over, the ship
      stays where it is with its power-ups, and a score above the high score
      becomes the high score and is saved. */
  lemma PlayerHitRules(w: World, width: real, height: real)
    ensures var r := HitPlayer(w, width, height);
      var p := w.player.(lives := w.player.lives - 1);
      r.bullets == w.bullets && r.enemies == w.enemies && r.powerUps == w.powerUps &&
      (p.lives > 0 ==>
        r.state == w.state && r.gd == w.gd && r.effects == w.effects + [PlayExplosion] &&
        r.player == p.(invincibleTimer := INVINCIBILITY_FRAMES, x := width / 2.0 - p.width / 2.0,
                       y := height - 80.0, powerUps := ActivePowerUps(0.0, 0.0, 0.0))) &&
      (p.lives <= 0 ==>
        r.state == GameOver && r.player == p &&
        r.gd == w.gd.(highScore := MaxInt(w.gd.highScore, w.gd.score)) &&
        r.effects == w.effects + [PlayExplosion] +
                     (if w.gd.score > w.gd.highScore then [SaveHighScore(w.gd.score)] else []))
  {
  }

  /** While invincible, neither enemy bullets nor enemies touch the ship. */
  lemma InvincibilityGate(w: World, width: real, height: real)
    requires w.player.invincibleTimer > 0.0
    ensures ResolveEnemyBullets(w, width, height) == w
    ensures ResolveContact(w, width, height) == w
  {
  }

  /** A shield absorbs the first enemy bullet that hits: the shield is gone,
      no life is lost, the bullet is spent and the hit sound plays. */
  lemma ShieldAbsorbsBullet(w: World, width: real, height: real)
    requires w.player.invincibleTimer <= 0.0 && w.player.powerUps.shield > 0.0
    requires FirstEnemyBullet(w.bullets, w.player) < |w.bullets|
    ensures var i := FirstEnemyBullet(w.bullets, w.player);
      ResolveEnemyBullets(w, width, height)
        == w.(player := ShieldSpent(w.player), bullets := w.bullets[i := w.bullets[i].(y := SPENT_Y)],
              effects := w.effects + [PlayHit])
  {
  }

  /** A shield absorbs a collision with an enemy, silently. */
  lemma ShieldAbsorbsContact(w: World, width: real, height: real)
    requires w.player.invincibleTimer <= 0.0 && w.player.powerUps.shield > 0.0
    requires FirstContact(w.player, w.enemies) < |w.enemies|
    ensures ResolveContact(w, width, height) == w.(player := ShieldSpent(w.player))
  {
  }

  /** Whether the ship touches an enemy depends only on its box. */
  lemma {:induction false} ContactDependsOnBox(p: PlayerShip, q: PlayerShip, es: seq<Enemy>)
    requires p.x == q.x && p.y == q.y && p.width == q.width && p.height == q.height
    ensures FirstContact(p, es) == FirstContact(q, es)
  {
    if es != [] {
      ContactDependsOnBox(p, q, es[1..]);
    }
  }

  /** The shield is used up by the bullet and the contact of the same frame
      then costs a life: one shield does not cover both. */
  lemma ShieldThenContact(w: World, width: real, height: real)
    requires w.player.invincibleTimer <= 0.0 && w.player.powerUps.shield > 0.0
    requires FirstEnemyBullet(w.bullets, w.player) < |w.bullets|
    requires FirstContact(w.player, w.enemies) < |w.enemies|
    ensures var r := ResolveContact(ResolveEnemyBullets(w, width, height), width, height);
      r.player.lives == w.player.lives - 1 && r.player.powerUps.shield == 0.0
  {
    var w9 := ResolveEnemyBullets(w, width, height);
    ShieldAbsorbsBullet(w, width, height);
    ContactDependsOnBox(w9.player, w.player, w.enemies);
  }

  /** On the last life, a bullet and a contact in the same frame each cost a
      life: a fatal hit grants no invincibility, so lives reach -1. */
  lemma FatalDoubleHit(w: World, width: real, height: real)
    requires w.player.invincibleTimer <= 0.0 && w.player.powerUps.shield <= 0.0 && w.player.lives == 1
    requires FirstEnemyBullet(w.bullets, w.player) < |w.bullets|
    requires FirstContact(w.player, w.enemies) < |w.enemies|
    ensures var r := ResolveContact(ResolveEnemyBullets(w, width, height), width, height);
      r.player.lives == -1 && r.state == GameOver
  {
    var w9 := ResolveEnemyBullets(w, width, height);
    var i := FirstEnemyBullet(w.bullets, w.player);
    PlayerHitRules(w.(bullets := w.bullets[i := w.bullets[i].(y := SPENT_Y)]), width, height);
    ContactDependsOnBox(w9.player, w.player, w.enemies);
    PlayerHitRules(w9, width, height);
  }

  /** With lives to spare, a bullet hit grants invincibility, so a contact
      in the same frame costs nothing: at most one life is lost per frame. */
  lemma NonFatalHitBlocksContact(w: World, width: real, height: real)
    requires w.player.invincibleTimer <= 0.0 && w.player.powerUps.shield <= 0.0 && w.player.lives > 1
    requires FirstEnemyBullet(w.bullets, w.player) < |w.bullets|
    ensures var w9 := ResolveEnemyBullets(w, width, height);
      ResolveContact(w9, width, height) == w9 && w9.player.lives == w.player.lives - 1 &&
      w9.player.invincibleTimer == INVINCIBILITY_FRAMES && w9.state == w.state
  {
    var i := FirstEnemyBullet(w.bullets, w.player);
    PlayerHitRules(w.(bullets := w.bullets[i := w.bullets[i].(y := SPENT_Y)]), width, height);
  }

  /** A score that an earlier frame already copied into the high score is
      never saved: with the score at most the high score, the two hit phases
      leave the game data alone and log no save, even when the run ends. */
  lemma OldRecordNotSaved(w: World, width: real, height: real)
    requires w.gd.score <= w.gd.highScore
    ensures var r := ResolveContact(ResolveEnemyBullets(w, width, height), width, height);
      r.gd == w.gd && |w.effects| <= |r.effects| && r.effects[..|w.effects|] == w.effects &&
      forall k :: |w.effects| <= k < |r.effects| ==> !r.effects[k].SaveHighScore?
  {
    var w9 := ResolveEnemyBullets(w, width, height);
    if w.player.invincibleTimer <= 0.0 && FirstEnemyBullet(w.bullets, w.player) < |w.bullets| {
      var i := FirstEnemyBullet(w.bullets, w.player);
      PlayerHitRules(w.(bullets := w.bullets[i := w.bullets[i].(y := SPENT_Y)]), width, height);
    }
    PlayerHitRules(w9, width, height);
  }

  // ===== pickups =====

  /** The ship overlaps a power-up of this type in the list. */
  predicate Picks(p: PlayerShip, us: seq<PowerUp>, kind: PowerUpType) {
    exists k :: 0 <= k < |us| && us[k].kind == kind && TouchesPowerUp(p, us[k])
  }

  function LifeTest(p: PlayerShip): PowerUp -> bool {
    u => TouchesPowerUp(p, u) && u.kind == Life
  }

  /** Lives after n extra-life pickups, each capped at 5. */
  function LivesAfter(lives: int, n: nat): int {
    if n == 0 then lives else MinInt(lives + n, MAX_LIVES)
  }

  lemma PicksCons(p: PlayerShip, us: seq<PowerUp>, kind: PowerUpType)
    requires us != []
    ensures Picks(p, us, kind) <==> (us[0].kind == kind && TouchesPowerUp(p, us[0])) || Picks(p, us[1..], kind)
  {
    if Picks(p, us[1..], kind) {
      var k :| 0 <= k < |us[1..]| && us[1..][k].kind == kind && TouchesPowerUp(p, us[1..][k]);
      assert us[k + 1] == us[1..][k];
    }
    if Picks(p, us, kind) && !(us[0].kind == kind && TouchesPowerUp(p, us[0])) {
      var k :| 0 <= k < |us| && us[k].kind == kind && TouchesPowerUp(p, us[k]);
      assert us[1..][k - 1] == us[k];
    }
  }

  /** Collecting every overlapping power-up sets each timer to 600 frames iff
      one of its type was touched, and adds the extra lives one by one up to 5. */
  lemma {:induction false} CollectRules(p: PlayerShip, us: seq<PowerUp>)
    ensures var r := Collect(p, us);
      r.powerUps.spreadShot == (if Picks(p, us, Spread) then POWER_UP_DURATION else p.powerUps.spreadShot) &&
      r.powerUps.shield == (if Picks(p, us, Shield) then POWER_UP_DURATION else p.powerUps.shield) &&
      r.powerUps.speedBoost == (if Picks(p, us, Speed) then POWER_UP_DURATION else p.powerUps.speedBoost) &&
      r.lives == LivesAfter(p.lives, |Filter(us, LifeTest(p))|)
  {
    if us != [] {
      var u, rest := us[0], us[1..];
      CollectRules(p, rest);
      PicksCons(p, us, Spread);
      PicksCons(p, us, Shield);
      PicksCons(p, us, Speed);
      FilterCons(us, LifeTest(p));
      var q := Collect(p, rest);
      assert TouchesPowerUp(q, u) == TouchesPowerUp(p, u);
    }
  }

  /** The pickup phase removes exactly the touched power-ups, keeps the rest
      in order, and plays one sound per power-up collected. */
  lemma PickupRemovesTouched(w: World)
    ensures var r := CollectPowerUps(w);
      var touched := Filter(w.powerUps, TouchTest(w.player));
      |r.powerUps| + |touched| == |w.powerUps| &&
      (forall u :: u in r.powerUps <==> u in w.powerUps && !TouchesPowerUp(w.player, u)) &&
      r.effects == w.effects + Chimes(|touched|) &&
      r == w.(player := r.player, powerUps := r.powerUps, effects := r.effects)
  {
    FilterSplit(w.powerUps, MissTest(w.player), TouchTest(w.player));
    FilterMembers(w.powerUps, MissTest(w.player));
  }

  // ===== waves =====

  /** Every manifest queues at least one enemy. */
  lemma WaveHasEnemies(waveNum: nat)
    ensures TotalCount(GenerateWave(waveNum).enemies) >= 1
  {
    var groups := GenerateWave(waveNum).enemies;
    CountAtLeastLast(groups);
    assert groups[|groups| - 1] in groups;
  }

  /** `startWave` sets the queue, the wave clock and the owed count and
      nothing else; the queue is sorted, starts at time 0, holds one entry per
      enemy owed (at least one), and has a boss entry only on a boss wave. */
  lemma StartedWaveRules(gd: GameData)
    ensures var r := StartedWave(gd);
      var q := r.waveSpawnQueue;
      r == gd.(waveSpawnQueue := q, waveTimer := 0.0, waveEnemiesRemaining := |q|) &&
      q == WaveQueue(GenerateWave(gd.wave).enemies) &&
      |q| >= 1 && q[0].spawnAt == 0 && Sorted(q) &&
      (forall k :: 0 <= k < |q| && q[k].kind == Boss ==> IsBossWave(gd.wave))
  {
    var groups := GenerateWave(gd.wave).enemies;
    var slots := Slots(groups);
    WaveHasEnemies(gd.wave);
    ScheduleSorted(slots);
    SlotsFromGroups(groups);
    forall k | 0 <= k < |slots| && WaveQueue(groups)[k].kind == Boss ensures IsBossWave(gd.wave) {
      ScheduleEntry(slots, k);
      assert slots[k] in slots;
      var g :| g in groups && g.kind == slots[k].kind;
    }
  }

  /** On a boss wave the queue is the escort, one basic enemy every 20 frames
      from time 0, then the boss 20 frames after the last of them. */
  lemma BossArrival(waveNum: nat)
    requires IsBossWave(waveNum)
    ensures var q := WaveQueue(GenerateWave(waveNum).enemies);
      var escort := 2 + waveNum / 2;
      |q| == escort + 1 &&
      (forall k :: 0 <= k < escort ==> q[k] == SpawnEntry(Basic, 20 * k)) &&
      q[escort] == SpawnEntry(Boss, 20 * escort)
  {
    BossWaveManifest(waveNum);
    BossSchedule(2 + waveNum / 2);
  }

  /** The schedule of an escort of n basic enemies 20 apart and one boss. */
  lemma BossSchedule(escort: nat)
    ensures var q := WaveQueue([WaveGroup(Basic, escort, 20), WaveGroup(Boss, 1, 60)]);
      |q| == escort + 1 &&
      (forall k :: 0 <= k < escort ==> q[k] == SpawnEntry(Basic, 20 * k)) &&
      q[escort] == SpawnEntry(Boss, 20 * escort)
  {
    var e, b := WaveGroup(Basic, escort, 20), WaveGroup(Boss, 1, 60);
    var groups := [e, b];
    assert groups[..1] == [e];
    assert [e][..0] == [];
    var slots := Slots(groups);
    assert Slots([e]) == Repeat(e, escort);
    assert slots == Repeat(e, escort) + Repeat(b, 1);
    forall k | 0 <= k < escort ensures Schedule(slots)[k] == SpawnEntry(Basic, 20 * k) {
      ScheduleEntry(slots, k);
      assert slots[..k] == Repeat(e, escort)[..k];
      RepeatPrefix(e, escort, k);
      DelaySumRepeat(e, k);
    }
    ScheduleEntry(slots, escort);
    assert slots[..escort] == Repeat(e, escort);
    DelaySumRepeat(e, escort);
  }

  /** Between waves nothing spawns; when the countdown runs out the next wave
      starts (with an empty field left as it is), otherwise only the countdown
      moves. */
  lemma CountdownStartsWave(w: World, dt: real, width: real, draws: nat -> EnemyDraws)
    requires w.gd.betweenWaves
    ensures var r := WaveTick(w, dt, width, draws);
      var t := w.gd.betweenWaveTimer - dt;
      r == w.(gd := r.gd) && r.gd.wave == w.gd.wave &&
      (t <= 0.0 ==> !r.gd.betweenWaves && r.gd == StartedWave(w.gd.(betweenWaveTimer := t, betweenWaves := false))) &&
      (t > 0.0 ==> r.gd == w.gd.(betweenWaveTimer := t))
  {
  }

  /** During a wave: the clock advances by dt, the due entries are released
      in queue order and removed, and the wave number goes up (starting the
      between-wave countdown of 120 frames) exactly when the queue is empty,
      nothing is owed and no enemy is left. */
  lemma WaveAdvancesWhenCleared(w: World, dt: real, width: real, draws: nat -> EnemyDraws)
    requires !w.gd.betweenWaves
    ensures var r := WaveTick(w, dt, width, draws);
      var clock := w.gd.waveTimer + dt;
      var q := w.gd.waveSpawnQueue;
      r == w.(enemies := r.enemies, gd := r.gd) &&
      r.enemies == w.enemies + Released(Due(q, clock), width, draws) &&
      var cleared := Pending(q, clock) == [] && w.gd.waveEnemiesRemaining <= 0 && r.enemies == [];
      (cleared ==> r.gd == w.gd.(waveTimer := clock, waveSpawnQueue := Pending(q, clock), wave := w.gd.wave + 1,
                                 betweenWaves := true, betweenWaveTimer := BETWEEN_WAVE_DELAY)) &&
      (!cleared ==> r.gd == w.gd.(waveTimer := clock, waveSpawnQueue := Pending(q, clock)))
  {
  }

  /** On a sorted queue the released entries are the queue's prefix and what
      stays is its suffix, again sorted: spawns come in manifest order. */
  lemma ReleaseInOrder(q: seq<SpawnEntry>, clock: real)
    requires Sorted(q)
    ensures q == Due(q, clock) + Pending(q, clock)
    ensures Sorted(Pending(q, clock))
  {
    SortedReleaseIsPrefix(q, clock);
    PendingSorted(q, clock);
  }

  // ===== the whole frame =====

  /** What every frame keeps true: nothing is owed below 0, the queue is
      sorted, and every enemy on the field is alive, worth points and never
      moves up. */
  predicate Sound(w: World) {
    w.gd.waveEnemiesRemaining >= 0 &&
    Sorted(w.gd.waveSpawnQueue) &&
    forall e :: e in w.enemies ==> e.health > 0 && e.points >= 0 && e.speed >= 0.0
  }

  lemma SoundIsMarked(w: World)
    requires Sound(w)
    ensures Marked(w.enemies)
  {
    forall k | 0 <= k < |w.enemies| ensures w.enemies[k].points >= 0 && w.enemies[k].health > 0 && w.enemies[k].speed >= 0.0 {
      assert w.enemies[k] in w.enemies;
    }
  }

  /** A run starts sound. */
  lemma NewRunIsSound(width: real, height: real, storedHighScore: int)
    ensures Sound(NewRun(width, height, storedHighScore))
    ensures Staged(NewRun(width, height, storedHighScore))
  {
  }

  /** The movement phases keep the invariant and leave the score alone. */
  lemma MovementKeepsSound(w: World, input: FrameInput)
    requires Sound(w)
    ensures Sound(MovementPhases(w, input))
    ensures MovementPhases(w, input).gd == w.gd.(waveEnemiesRemaining := MovementPhases(w, input).gd.waveEnemiesRemaining)
  {
    var w1 := Steered(w, input.keys, input.dt, input.width, input.height);
    var w2 := Fire(w1, input.width);
    var w3 := w2.(player := TickTimers(w2.player, input.dt));
    var w4 := w3.(bullets := FlyBullets(w3.bullets, input.dt, input.width, input.height));
    var w5 := AdvanceEnemies(w4, input.dt, input.width, input.sine, input.shotDraws);
    var w6 := DropEscaped(w5, input.height);
    EnemyMovesKeepStats(w4.enemies, input.dt, input.width, input.sine);
    forall e | e in w5.enemies ensures e.health > 0 && e.points >= 0 && e.speed >= 0.0 {
      var k :| 0 <= k < |w5.enemies| && w5.enemies[k] == e;
      assert w4.enemies[k] in w4.enemies;
    }
    EscapeAccounting(w5, input.height);
  }

  /** Released enemies are alive, worth points, moving down and above the
      destroyed mark. */
  lemma ReleasedAreAlive(due: seq<SpawnEntry>, width: real, draws: nat -> EnemyDraws)
    ensures forall e :: e in Released(due, width, draws) ==>
      e.health > 0 && e.points >= 0 && e.speed >= 0.0 && NotDestroyed(e)
  {
    var r := Released(due, width, draws);
    forall e | e in r ensures e.health > 0 && e.points >= 0 && e.speed >= 0.0 && NotDestroyed(e) {
      var k :| 0 <= k < |r| && r[k] == e;
      ReleasedAt(due, k, width, draws);
    }
  }

  /** The wave phase keeps the invariant and leaves the score alone. */
  lemma WaveTickKeepsSound(w: World, dt: real, width: real, draws: nat -> EnemyDraws)
    requires Sound(w)
    ensures Sound(WaveTick(w, dt, width, draws))
    ensures WaveTick(w, dt, width, draws).gd.score == w.gd.score
    ensures WaveTick(w, dt, width, draws).gd.highScore == w.gd.highScore
  {
    if w.gd.betweenWaves {
      StartedWaveRules(w.gd.(betweenWaveTimer := w.gd.betweenWaveTimer - dt, betweenWaves := false));
    } else {
      var clock := w.gd.waveTimer + dt;
      PendingSorted(w.gd.waveSpawnQueue, clock);
      ReleasedAreAlive(Due(w.gd.waveSpawnQueue, clock), width, draws);
    }
  }

  /** The hit phases touch neither the enemies nor the wave bookkeeping and
      never lower the score or the high score. */
  lemma HitPhasesKeepBooks(w: World, width: real, height: real)
    ensures var r := CollectPowerUps(ResolveContact(ResolveEnemyBullets(w, width, height), width, height));
      r.enemies == w.enemies && r.gd == w.gd.(highScore := r.gd.highScore) && r.gd.highScore >= w.gd.highScore
  {
    var w9 := ResolveEnemyBullets(w, width, height);
    if w.player.invincibleTimer <= 0.0 && FirstEnemyBullet(w.bullets, w.player) < |w.bullets| {
      var i := FirstEnemyBullet(w.bullets, w.player);
      PlayerHitRules(w.(bullets := w.bullets[i := w.bullets[i].(y := SPENT_Y)]), width, height);
    }
    PlayerHitRules(w9, width, height);
  }

  /** Every frame keeps the invariant; the score never drops; the high score
      never drops and a played frame ends with it at least the score. This
      holds also when the run ends during the frame. */
  lemma FrameKeepsSound(w: World, input: FrameInput)
    requires Sound(w)
    ensures var r := Frame(w, input);
      Sound(r) && r.gd.score >= w.gd.score && r.gd.highScore >= w.gd.highScore &&
      (w.state == Playing ==> r.gd.highScore >= r.gd.score)
  {
    if w.state == Playing {
      var m := MovementPhases(w, input);
      MovementKeepsSound(w, input);
      SoundIsMarked(m);
      var w8 := ResolvePlayerBullets(m, input.dropDraws);
      DestroyedArePruned(m, input.dropDraws);
      var w11 := CollectPowerUps(ResolveContact(ResolveEnemyBullets(w8, input.width, input.height), input.width, input.height));
      HitPhasesKeepBooks(w8, input.width, input.height);
      assert Sound(w11);
      WaveTickKeepsSound(w11, input.dt, input.width, input.spawnDraws);
    }
  }

  /** Where the bullet pass starts: no enemy is marked destroyed and no
      bullet heals. */
  predicate Staged(w: World) {
    (forall e :: e in w.enemies ==> NotDestroyed(e)) && Harmful(w.bullets)
  }

  /** An enemy moving down never moves up in a frame of non-negative step. */
  lemma AdvanceNeverRises(e: Enemy, dt: real, width: real, sine: real -> real)
    requires dt >= 0.0 && e.speed >= 0.0
    ensures AdvanceEnemy(e, dt, width, sine).y >= e.y
  {
    NonNegativeProduct(e.speed, dt);
    NonNegativeProduct(e.speed * 2.0, dt);
  }

  /** The movement phases add only shots of damage 1 and keep every other
      bullet's damage. */
  lemma MovementKeepsHarm(w: World, input: FrameInput)
    requires Harmful(w.bullets)
    ensures Harmful(MovementPhases(w, input).bullets)
  {
    var w1 := Steered(w, input.keys, input.dt, input.width, input.height);
    var w2 := Fire(w1, input.width);
    if w2.bullets != w1.bullets {
      FilterMembers(w1.bullets + PlayerShots(w1.player), LaneTest(input.width));
    }
    var w3 := w2.(player := TickTimers(w2.player, input.dt));
    var moved := MovedBullets(w3.bullets, input.dt);
    FilterMembers(moved, FieldTest(input.width, input.height));
    forall b | b in moved ensures b.damage >= 0 {
      var k :| 0 <= k < |moved| && moved[k] == b;
      assert w3.bullets[k] in w3.bullets;
    }
    VolleyIsHostile(w3.enemies, input.dt, input.width, input.sine, input.shotDraws);
  }

  /** With a non-negative step, the movement phases keep every enemy above
      the destroyed mark. */
  lemma MovementKeepsStaged(w: World, input: FrameInput)
    requires Sound(w) && Staged(w) && input.dt >= 0.0
    ensures Staged(MovementPhases(w, input))
  {
    MovementKeepsHarm(w, input);
    var es := w.enemies;
    var moved := MovedEnemies(es, input.dt, input.width, input.sine);
    forall e | e in moved ensures NotDestroyed(e) {
      var k :| 0 <= k < |moved| && moved[k] == e;
      assert es[k] in es;
      AdvanceNeverRises(es[k], input.dt, input.width, input.sine);
    }
    FilterMembers(moved, StayTest(input.height));
  }

  /** In a frame of non-negative step, the bullet pass removes exactly the
      enemies whose health it took to 0. */
  lemma PruneMatchesHealth(w: World, input: FrameInput)
    requires Sound(w) && Staged(w) && input.dt >= 0.0
    ensures var m := MovementPhases(w, input);
      var v := PlayerVolley(m, |m.bullets|, input.dropDraws);
      ResolvePlayerBullets(m, input.dropDraws).enemies == Filter(v.enemies, AliveTest())
  {
    var m := MovementPhases(w, input);
    MovementKeepsSound(w, input);
    MovementKeepsStaged(w, input);
    SoundIsMarked(m);
    forall k | 0 <= k < |m.enemies| && m.enemies[k].health > 0 ensures NotDestroyed(m.enemies[k]) {
      assert m.enemies[k] in m.enemies;
    }
    DestroyedArePruned(m, input.dropDraws);
  }

  /** The hit and pickup phases keep every bullet's damage. */
  lemma HitPhasesKeepHarm(w: World, width: real, height: real)
    requires Harmful(w.bullets)
    ensures Harmful(CollectPowerUps(ResolveContact(ResolveEnemyBullets(w, width, height), width, height)).bullets)
  {
    var w9 := ResolveEnemyBullets(w, width, height);
    if w.player.invincibleTimer <= 0.0 && FirstEnemyBullet(w.bullets, w.player) < |w.bullets| {
      var i := FirstEnemyBullet(w.bullets, w.player);
      var spent := w.bullets[i := w.bullets[i].(y := SPENT_Y)];
      PlayerHitRules(w.(bullets := spent), width, height);
      forall c | c in spent ensures c.damage >= 0 {
        var k :| 0 <= k < |spent| && spent[k] == c;
        assert w.bullets[k] in w.bullets;
      }
    }
    PlayerHitRules(w9, width, height);
  }

  /** The bullet pass ends with no enemy marked destroyed. */
  lemma BulletPassStaged(w: World, drops: nat -> DropDraws)
    requires Harmful(w.bullets)
    ensures Staged(ResolvePlayerBullets(w, drops))
  {
    var v := PlayerVolley(w, |w.bullets|, drops);
    VolleyKeepsHarm(w, |w.bullets|, drops);
    FilterMembers(v.enemies, NotDestroyedTest());
  }

  /** The wave phase only adds enemies above the destroyed mark. */
  lemma WaveTickKeepsStaged(w: World, dt: real, width: real, draws: nat -> EnemyDraws)
    requires Staged(w)
    ensures Staged(WaveTick(w, dt, width, draws))
  {
    if !w.gd.betweenWaves {
      ReleasedAreAlive(Due(w.gd.waveSpawnQueue, w.gd.waveTimer + dt), width, draws);
    }
  }

  /** Every frame, whatever its step, ends with no enemy marked destroyed and
      no bullet that heals. */
  lemma FrameKeepsStaged(w: World, input: FrameInput)
    requires Staged(w)
    ensures Staged(Frame(w, input))
  {
    if w.state == Playing {
      var m := MovementPhases(w, input);
      MovementKeepsHarm(w, input);
      var w8 := ResolvePlayerBullets(m, input.dropDraws);
      BulletPassStaged(m, input.dropDraws);
      var w11 := CollectPowerUps(ResolveContact(ResolveEnemyBullets(w8, input.width, input.height), input.width, input.height));
      HitPhasesKeepBooks(w8, input.width, input.height);
      HitPhasesKeepHarm(w8, input.width, input.height);
      WaveTickKeepsStaged(w11, input.dt, input.width, input.spawnDraws);
    }
  }

  /** Once the game is over, frames change nothing. */
  lemma GameOverIsFinal(w: World, input: FrameInput)
    requires w.state == GameOver
    ensures Frame(w, input) == w
  {
  }
}
