/** The entities of the shooter (app/components/Game/types.ts) and the tuning
    constants at the head of GameCanvas.tsx.

    JavaScript numbers are modelled as exact `real`s for positions, velocities
    and timers, and as `int`s where the game only ever stores whole numbers
    (score, lives, health, damage, counts). Colours are cosmetic and left out. */
module GameTypes {

  // ===== constants =====
  const PLAYER_SHOOT_COOLDOWN: int := 8
  const INVINCIBILITY_FRAMES: real := 120.0
  const POWER_UP_DURATION: real := 600.0
  const POWER_UP_DROP_CHANCE: real := 0.25
  const BOSS_WAVE_INTERVAL: nat := 5
  const BETWEEN_WAVE_DELAY: real := 120.0
  const MAX_LIVES: int := 5
  /** The y coordinate that marks a destroyed enemy until the pass prunes it. */
  const DESTROYED_Y: real := -9999.0
  /** The y coordinate that marks a spent bullet; the next frame's bounds filter drops it. */
  const SPENT_Y: real := -100.0

  /** One `Math.random()` draw. */
  type Unit = r: real | 0.0 <= r < 1.0

  datatype GameState = Start | Playing | GameOver

  datatype EnemyType = Basic | Zigzag | Swooper | Tank | Boss

  datatype MovementPattern = StraightPattern | ZigzagPattern | SwoopPattern | BossPattern

  datatype PowerUpType = Spread | Shield | Speed | Life

  /** Frames remaining on each power-up; a non-positive value means inactive. */
  datatype ActivePowerUps = ActivePowerUps(spreadShot: real, shield: real, speedBoost: real)

  datatype PlayerShip = PlayerShip(
    x: real, y: real, width: real, height: real,
    speed: real,
    health: int, maxHealth: int,
    lives: int,
    invincibleTimer: real,
    powerUps: ActivePowerUps,
    thrusterFrame: int)

  datatype Bullet = Bullet(
    x: real, y: real, vx: real, vy: real,
    width: real, height: real,
    damage: int,
    isPlayerBullet: bool)

  datatype Enemy = Enemy(
    x: real, y: real, width: real, height: real,
    health: int, maxHealth: int,
    kind: EnemyType,
    pattern: MovementPattern,
    speed: real,
    shootTimer: real, shootInterval: real,
    points: int,
    patternTimer: real, patternAmplitude: real, startX: real,
    isBoss: bool)

  datatype PowerUp = PowerUp(x: real, y: real, width: real, height: real, kind: PowerUpType, vy: real)

  /** One group of a wave manifest: `count` enemies of one type, `delay` frames apart. */
  datatype WaveGroup = WaveGroup(kind: EnemyType, count: nat, delay: nat)

  datatype WaveConfig = WaveConfig(enemies: seq<WaveGroup>, isBossWave: bool)

  /** One scheduled spawn: the enemy type and the wave time at which it enters. */
  datatype SpawnEntry = SpawnEntry(kind: EnemyType, spawnAt: int)

  datatype GameData = GameData(
    score: int,
    wave: nat,
    highScore: int,
    waveEnemiesRemaining: int,
    waveSpawnQueue: seq<SpawnEntry>,
    waveTimer: real,
    betweenWaves: bool,
    betweenWaveTimer: real)

  /** Notifications for the collaborators outside the simulation: the four
      sounds of the audio engine and the high-score write to storage. */
  datatype Effect = PlayLaser | PlayExplosion | PlayPowerUp | PlayHit | SaveHighScore(value: int)

  /** The movement keys held this frame (arrow keys or WASD). */
  datatype Keys = Keys(left: bool, right: bool, up: bool, down: bool)

  function Max(a: real, b: real): real { if a >= b then a else b }
  function Min(a: real, b: real): real { if a <= b then a else b }
  function MaxInt(a: int, b: int): int { if a >= b then a else b }
  function MinInt(a: int, b: int): int { if a <= b then a else b }

  /** `Math.max(lo, Math.min(hi, v))`, the clamp the game applies to positions. */
  function Clamp(lo: real, hi: real, v: real): (r: real)
    ensures lo <= r
    ensures lo <= hi ==> r <= hi
    ensures lo <= v <= hi ==> r == v
  {
    Max(lo, Min(hi, v))
  }
}
