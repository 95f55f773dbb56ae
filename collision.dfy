/** Collision primitives: `rectsOverlap` (GameCanvas.tsx:439-444), the
    first-match scans of the collision passes (GameCanvas.tsx:564-624), the
    effect of a power-up (`applyPowerUp`, GameCanvas.tsx:693-700) and the drop
    roll of `spawnPowerUp` (GameCanvas.tsx:382-389). */
module Collision {
  import opened GameTypes

  /** Axis-aligned boxes (x, y, width, height) that share interior area. */
  predicate RectsOverlap(x1: real, y1: real, w1: real, h1: real,
                         x2: real, y2: real, w2: real, h2: real)
    ensures RectsOverlap(x1, y1, w1, h1, x2, y2, w2, h2) ==> w1 + w2 > 0.0 && h1 + h2 > 0.0
  {
    x1 < x2 + w2 && x1 + w1 > x2 && y1 < y2 + h2 && y1 + h1 > y2
  }

  /** The overlap test does not depend on which box comes first. */
  lemma OverlapSymmetric(x1: real, y1: real, w1: real, h1: real,
                         x2: real, y2: real, w2: real, h2: real)
    ensures RectsOverlap(x1, y1, w1, h1, x2, y2, w2, h2) == RectsOverlap(x2, y2, w2, h2, x1, y1, w1, h1)
  {
  }

  /** A box lying wholly above another never overlaps it: in particular an
      enemy parked at the destroyed mark is out of reach of every bullet the
      bounds filter has kept. */
  lemma AboveIsApart(x1: real, y1: real, w1: real, h1: real,
                     x2: real, y2: real, w2: real, h2: real)
    requires y2 + h2 <= y1
    ensures !RectsOverlap(x1, y1, w1, h1, x2, y2, w2, h2)
  {
  }

  predicate BulletHitsEnemy(b: Bullet, e: Enemy) {
    RectsOverlap(b.x, b.y, b.width, b.height, e.x, e.y, e.width, e.height)
  }

  predicate BulletHitsPlayer(b: Bullet, p: PlayerShip) {
    !b.isPlayerBullet && RectsOverlap(b.x, b.y, b.width, b.height, p.x, p.y, p.width, p.height)
  }

  predicate TouchesEnemy(p: PlayerShip, e: Enemy) {
    RectsOverlap(p.x, p.y, p.width, p.height, e.x, e.y, e.width, e.height)
  }

  predicate TouchesPowerUp(p: PlayerShip, u: PowerUp) {
    RectsOverlap(p.x, p.y, p.width, p.height, u.x, u.y, u.width, u.height)
  }

  /** The index of the first enemy, in list order, that the bullet overlaps, or
      |es| when there is none: the inner scan of GameCanvas.tsx:565-588. */
  function FirstStruck(b: Bullet, es: seq<Enemy>): (j: nat)
    ensures j <= |es|
    ensures j < |es| ==> BulletHitsEnemy(b, es[j])
    ensures forall k :: 0 <= k < j ==> !BulletHitsEnemy(b, es[k])
  {
    if es == [] then 0
    else if BulletHitsEnemy(b, es[0]) then 0
    else 1 + FirstStruck(b, es[1..])
  }

  /** The index of the first enemy bullet that overlaps the player, or |bs|:
      the scan of GameCanvas.tsx:594-607 (it visits enemy bullets in list order). */
  function FirstEnemyBullet(bs: seq<Bullet>, p: PlayerShip): (i: nat)
    ensures i <= |bs|
    ensures i < |bs| ==> BulletHitsPlayer(bs[i], p)
    ensures forall k :: 0 <= k < i ==> !BulletHitsPlayer(bs[k], p)
  {
    if bs == [] then 0
    else if BulletHitsPlayer(bs[0], p) then 0
    else 1 + FirstEnemyBullet(bs[1..], p)
  }

  /** The index of the first enemy the player's body overlaps, or |es|:
      the scan of GameCanvas.tsx:612-623. */
  function FirstContact(p: PlayerShip, es: seq<Enemy>): (j: nat)
    ensures j <= |es|
    ensures j < |es| ==> TouchesEnemy(p, es[j])
    ensures forall k :: 0 <= k < j ==> !TouchesEnemy(p, es[k])
  {
    if es == [] then 0
    else if TouchesEnemy(p, es[0]) then 0
    else 1 + FirstContact(p, es[1..])
  }

  /** A scan that saw no hit before j and a hit at j (or reached the end)
      stopped where FirstStruck says. */
  lemma {:induction false} FirstStruckAt(b: Bullet, es: seq<Enemy>, j: nat)
    requires j <= |es|
    requires forall k :: 0 <= k < j ==> !BulletHitsEnemy(b, es[k])
    requires j < |es| ==> BulletHitsEnemy(b, es[j])
    ensures FirstStruck(b, es) == j
  {
    if es != [] && j > 0 {
      FirstStruckAt(b, es[1..], j - 1);
    }
  }

  lemma {:induction false} FirstEnemyBulletAt(bs: seq<Bullet>, p: PlayerShip, i: nat)
    requires i <= |bs|
    requires forall k :: 0 <= k < i ==> !BulletHitsPlayer(bs[k], p)
    requires i < |bs| ==> BulletHitsPlayer(bs[i], p)
    ensures FirstEnemyBullet(bs, p) == i
  {
    if bs != [] && i > 0 {
      FirstEnemyBulletAt(bs[1..], p, i - 1);
    }
  }

  lemma {:induction false} FirstContactAt(p: PlayerShip, es: seq<Enemy>, j: nat)
    requires j <= |es|
    requires forall k :: 0 <= k < j ==> !TouchesEnemy(p, es[k])
    requires j < |es| ==> TouchesEnemy(p, es[j])
    ensures FirstContact(p, es) == j
  {
    if es != [] && j > 0 {
      FirstContactAt(p, es[1..], j - 1);
    }
  }

  /** The player after collecting one power-up (`applyPowerUp`). */
  function PoweredUp(p: PlayerShip, kind: PowerUpType): (r: PlayerShip)
    ensures r == p.(powerUps := r.powerUps, lives := r.lives)
    ensures kind == Spread ==> r.powerUps == p.powerUps.(spreadShot := POWER_UP_DURATION) && r.lives == p.lives
    ensures kind == Shield ==> r.powerUps == p.powerUps.(shield := POWER_UP_DURATION) && r.lives == p.lives
    ensures kind == Speed ==> r.powerUps == p.powerUps.(speedBoost := POWER_UP_DURATION) && r.lives == p.lives
    ensures kind == Life ==> r.powerUps == p.powerUps
    ensures kind == Life ==> r.lives == if p.lives + 1 <= MAX_LIVES then p.lives + 1 else MAX_LIVES
  {
    match kind
    case Spread => p.(powerUps := p.powerUps.(spreadShot := POWER_UP_DURATION))
    case Shield => p.(powerUps := p.powerUps.(shield := POWER_UP_DURATION))
    case Speed => p.(powerUps := p.powerUps.(speedBoost := POWER_UP_DURATION))
    case Life => p.(lives := if p.lives + 1 <= MAX_LIVES then p.lives + 1 else MAX_LIVES)
  }

  /** The two draws of `spawnPowerUp`: whether anything drops, then which type. */
  datatype DropDraws = DropDraws(roll: Unit, pick: Unit)

  /** The type picked by a draw: the four types with equal shares of [0, 1). */
  function PickType(pick: Unit): (t: PowerUpType)
    ensures t == Spread <==> pick < 0.25
    ensures t == Shield <==> 0.25 <= pick < 0.5
    ensures t == Speed <==> 0.5 <= pick < 0.75
    ensures t == Life <==> 0.75 <= pick
  {
    var k := (pick * 4.0).Floor;
    assert 0 <= k < 4;
    [Spread, Shield, Speed, Life][k]
  }

  /** What an enemy destroyed with centre (cx, cy) drops: nothing when the roll
      exceeds the drop chance, otherwise one power-up drifting down from there. */
  function PowerUpDrop(cx: real, cy: real, d: DropDraws): (r: seq<PowerUp>)
    ensures |r| == if d.roll > POWER_UP_DROP_CHANCE then 0 else 1
    ensures forall u :: u in r ==> u.x + u.width / 2.0 == cx && u.y == cy && u.vy > 0.0
    ensures forall u :: u in r ==> u.kind == PickType(d.pick) && u.width == 20.0 && u.height == 20.0 && u.vy == 1.5
  {
    if d.roll > POWER_UP_DROP_CHANCE then []
    else [PowerUp(x := cx - 10.0, y := cy, width := 20.0, height := 20.0, kind := PickType(d.pick), vy := 1.5)]
  }
}
