/** Enemies: the factory `createEnemy` (GameCanvas.tsx:169-227), one enemy's
    per-frame movement and firing check (GameCanvas.tsx:501-537) and the shots
    of `enemyShoot` (GameCanvas.tsx:416-436).

    `Math.random()` draws are parameters; `Math.sin` is the parameter `sine`,
    an arbitrary function, so nothing here depends on its values. */
module EnemyFactory {
  import opened GameTypes

  /** The random draws createEnemy makes, in call order: the x position, then
      the one or two per-type draws (zigzag: amplitude, then shoot interval;
      basic, swooper, tank: shoot interval). The boss draws x and ignores it. */
  datatype EnemyDraws = EnemyDraws(pos: Unit, first: Unit, second: Unit)

  /** The movement pattern is fixed by the type. */
  function PatternOf(kind: EnemyType): (p: MovementPattern)
    ensures p == StraightPattern <==> kind == Basic || kind == Tank
    ensures p == BossPattern <==> kind == Boss
  {
    match kind
    case Basic => StraightPattern
    case Zigzag => ZigzagPattern
    case Swooper => SwoopPattern
    case Tank => StraightPattern
    case Boss => BossPattern
  }

  /** A draw in [0, 1) scales a non-negative span to a part of it. */
  lemma FractionOfSpan(u: Unit, span: real)
    requires span >= 0.0
    ensures 0.0 <= u * span <= span
  {
  }

  function CreateEnemy(kind: EnemyType, canvasWidth: real, d: EnemyDraws): (e: Enemy)
    ensures e.kind == kind && e.pattern == PatternOf(kind)
    ensures e.isBoss <==> kind == Boss
    ensures e.health == e.maxHealth >= 1 && e.points > 0
    ensures -120.0 <= e.y < 0.0
    ensures e.shootTimer == 0.0 && e.patternTimer == 0.0 && e.startX == e.x
    ensures e.width > 0.0 && e.height > 0.0 && e.speed > 0.0
    ensures kind != Boss && canvasWidth >= 100.0 ==> 50.0 <= e.x <= canvasWidth - 50.0
    ensures kind == Boss ==> e.x == canvasWidth / 2.0 - 60.0 && e.shootInterval == 20.0
    ensures kind == Tank ==> 50.0 <= e.shootInterval < 80.0
    ensures kind != Boss ==> 50.0 <= e.shootInterval < 150.0
  {
    var span := canvasWidth - 100.0;
    assert span >= 0.0 ==> 0.0 <= d.pos * span <= span by {
      if span >= 0.0 {
        FractionOfSpan(d.pos, span);
      }
    }
    var x := 50.0 + d.pos * span;
    match kind
    case Basic =>
      Enemy(x := x, y := -60.0, width := 30.0, height := 30.0, health := 1, maxHealth := 1,
            kind := Basic, pattern := StraightPattern, speed := 2.0,
            shootTimer := 0.0, shootInterval := 90.0 + d.first * 60.0, points := 100,
            patternTimer := 0.0, patternAmplitude := 0.0, startX := x, isBoss := false)
    case Zigzag =>
      Enemy(x := x, y := -60.0, width := 28.0, height := 28.0, health := 1, maxHealth := 1,
            kind := Zigzag, pattern := ZigzagPattern, speed := 2.5,
            shootTimer := 0.0, shootInterval := 100.0 + d.second * 40.0, points := 200,
            patternTimer := 0.0, patternAmplitude := 80.0 + d.first * 60.0, startX := x, isBoss := false)
    case Swooper =>
      Enemy(x := x, y := -60.0, width := 32.0, height := 26.0, health := 1, maxHealth := 1,
            kind := Swooper, pattern := SwoopPattern, speed := 3.0,
            shootTimer := 0.0, shootInterval := 70.0 + d.first * 50.0, points := 300,
            patternTimer := 0.0, patternAmplitude := 120.0, startX := x, isBoss := false)
    case Tank =>
      Enemy(x := x, y := -60.0, width := 40.0, height := 40.0, health := 5, maxHealth := 5,
            kind := Tank, pattern := StraightPattern, speed := 1.0,
            shootTimer := 0.0, shootInterval := 50.0 + d.first * 30.0, points := 500,
            patternTimer := 0.0, patternAmplitude := 0.0, startX := x, isBoss := false)
    case Boss =>
      var bx := canvasWidth / 2.0 - 60.0;
      Enemy(x := bx, y := -120.0, width := 120.0, height := 80.0, health := 50, maxHealth := 50,
            kind := Boss, pattern := BossPattern, speed := 1.5,
            shootTimer := 0.0, shootInterval := 20.0, points := 5000,
            patternTimer := 0.0, patternAmplitude := 0.0, startX := bx, isBoss := true)
  }

  /** One enemy's movement for one frame, before the firing check: both timers
      advance by dt, the pattern moves it, and x is clamped on screen. */
  function AdvanceEnemy(e: Enemy, dt: real, canvasWidth: real, sine: real -> real): (r: Enemy)
    ensures r.patternTimer == e.patternTimer + dt && r.shootTimer == e.shootTimer + dt
    ensures 0.0 <= r.x && (e.width <= canvasWidth ==> r.x <= canvasWidth - e.width)
    ensures r == e.(x := r.x, y := r.y, patternTimer := r.patternTimer, shootTimer := r.shootTimer)
    ensures e.pattern == StraightPattern ==> r.y == e.y + e.speed * dt
    ensures e.pattern == StraightPattern && 0.0 <= e.x && e.width <= canvasWidth && e.x <= canvasWidth - e.width
            ==> r.x == e.x
  {
    var t := e.patternTimer + dt;
    var step := e.speed * dt;
    var (x, y) :=
      match e.pattern
      case StraightPattern => (e.x, e.y + step)
      case ZigzagPattern => (e.startX + sine(t * 0.05) * e.patternAmplitude, e.y + step)
      case SwoopPattern =>
        var sx := e.startX + sine(t * 0.03) * e.patternAmplitude;
        if t > 60.0 && t < 120.0 then (sx, e.y + step + e.speed * 2.0 * dt) else (sx, e.y + step)
      case BossPattern =>
        if e.y < 60.0 then (e.x, e.y + step)
        else (canvasWidth / 2.0 - e.width / 2.0 + sine(t * 0.02) * (canvasWidth * 0.3), e.y);
    e.(x := Clamp(0.0, canvasWidth - e.width, x), y := y, patternTimer := t, shootTimer := e.shootTimer + dt)
  }

  /** An enemy fires once its shoot timer has reached its interval, and only
      when it is below the top edge of the screen. */
  predicate Fires(e: Enemy): (b: bool)
    ensures b ==> e.y > 0.0
  {
    e.shootTimer >= e.shootInterval && e.y > 0.0
  }

  /** The enemy after the firing check: its shoot timer restarts when it fires. */
  function Reloaded(e: Enemy): (r: Enemy)
    ensures Fires(e) ==> r.shootTimer == 0.0
    ensures !Fires(e) ==> r == e
    ensures r == e.(shootTimer := r.shootTimer)
  {
    if Fires(e) then e.(shootTimer := 0.0) else e
  }

  /** Shot i (from -2 to 2) of the boss's five-way spread. */
  function BossShot(cx: real, cy: real, i: int): (b: Bullet)
    ensures !b.isPlayerBullet && b.damage == 1 && b.y == cy && b.vy == 4.0
    ensures b.x + b.width / 2.0 == cx + i as real * 20.0 && b.vx == i as real * 1.5
  {
    Bullet(x := cx - 3.0 + i as real * 20.0, y := cy, vx := i as real * 1.5, vy := 4.0,
           width := 6.0, height := 6.0, damage := 1, isPlayerBullet := false)
  }

  /** The bullets `enemyShoot` adds: a five-way spread from a boss, a single
      downward shot with a random extra speed from anything else. */
  function EnemyShots(e: Enemy, draw: Unit): (r: seq<Bullet>)
    ensures |r| == if e.isBoss then 5 else 1
    ensures forall b :: b in r ==>
      !b.isPlayerBullet && b.damage == 1 && 4.0 <= b.vy < 6.0 && b.y == e.y + e.height
    ensures e.isBoss ==> forall k :: 0 <= k < 5 ==> r[k].vx == (k - 2) as real * 1.5
  {
    var cx := e.x + e.width / 2.0;
    var cy := e.y + e.height;
    if e.isBoss then seq(5, k => BossShot(cx, cy, k - 2))
    else [Bullet(x := cx - 3.0, y := cy, vx := 0.0, vy := 4.0 + draw * 2.0,
                 width := 6.0, height := 6.0, damage := 1, isPlayerBullet := false)]
  }

  /** The shots an enemy adds this frame after moving: none unless it fires. */
  function ShotsOf(moved: Enemy, draw: Unit): (r: seq<Bullet>)
    ensures |r| == if !Fires(moved) then 0 else if moved.isBoss then 5 else 1
    ensures forall b :: b in r ==> !b.isPlayerBullet && b.damage == 1
  {
    if Fires(moved) then EnemyShots(moved, draw) else []
  }

  /** The shots depend on where the enemy is, not on its shoot timer. */
  lemma ShotsIgnoreTimer(e: Enemy, t: real, draw: Unit)
    ensures EnemyShots(e.(shootTimer := t), draw) == EnemyShots(e, draw)
  {
  }
}
