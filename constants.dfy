/**
 * Numeric constants and the shared vocabulary of the engine: cell kinds,
 * directions, board coordinates and the events a step reports.
 * Values follow space-killer-react/src/game/constants.js.
 */
module Constants {

  const ROWS: int := 18
  const COLS: int := 18

  const INITIAL_LIVES: int := 5
  const INITIAL_WAIT_TIME: int := 400
  const LAST_LEVEL: int := 10
  const BOSS_LEVEL: int := 10
  const BOSS_INITIAL_LIVES: int := 5
  const BOSS_HIT_SCORE: int := 250
  const ENEMY_DESTROY_SCORE: int := 100
  const ENEMY_EVADE_COOLDOWN: int := 10
  const ENEMY_EVADE_RANGE: int := 2
  const ENEMY_STREAK_BONUS_STEP: int := 20
  const ENEMY_STREAK_BONUS_CAP: int := 200
  const LEVEL_STREAK_BONUS_VALUE: int := 50
  const BOSS_FIRE_COOLDOWN: int := 4
  const BOSS_MOVE_COOLDOWN: int := 2
  const BOSS_TELEPORT_COOLDOWN: int := 10
  const BOSS_REVENGE_BURST_SHOTS: int := 4
  const MAX_CONCURRENT_SHOTS: int := 7
  const HIGH_SCORE_LIMIT: int := 10
  const MIN_WAIT_TIME: int := 120
  const LEVEL_BONUS_PER_LEVEL: int := 250
  const LEVEL_BONUS_PER_LIFE: int := 125
  /** The score penalty for being hit; a literal in the player module. */
  const PLAYER_HIT_PENALTY: int := 200

  /** PLAYER_START is (BOARD_ROWS - 2, round(BOARD_COLS / 2)). */
  const PLAYER_START_ROW: int := 16
  const PLAYER_START_COL: int := 9
  const ENEMY_ROW: int := 1
  const ENEMY_COL_START: int := 3
  const ENEMY_COL_END: int := 15
  /** floor(BOARD_COLS / 2), the boss's starting column. */
  const BOSS_START_COL: int := 9

  datatype Option<T> = None | Some(value: T)

  datatype CellKind =
    | Border
    | Empty
    | Player
    | Enemy
    | Boss
    | PlayerBullet
    | EnemyBullet
    | BossDiagonalBullet
    | BossCombinedBullet
    | BothBullets
    | Filler

  /** Horizontal direction: boss heading and diagonal-bullet travel. */
  datatype HDir = Left | Right

  /** Vertical direction of the boss. */
  datatype VDir = Up | Down

  /**
   * A board cell. `blocked` marks a cell that must sit out one step;
   * `occupant` is the travel direction stored on diagonal projectiles.
   */
  datatype Cell = Cell(kind: CellKind, blocked: bool, occupant: Option<HDir>)

  datatype Pos = Pos(row: int, col: int)

  /** The event names a step pushes onto `events`. */
  datatype Event =
    | PlayerFired
    | EnemyExplosion
    | PlayerHit
    | BossHit
    | BossDefeated
    | LevelCleared
    | LevelBonus
    | LevelStart
    | CampaignComplete
    | PlayerRespawn
    | LevelRestart
    | GameOver

  function Flip(d: HDir): HDir {
    if d == Left then Right else Left
  }

  function Delta(d: HDir): int {
    if d == Right then 1 else -1
  }

  function Max(a: int, b: int): int {
    if a >= b then a else b
  }

  function Min(a: int, b: int): int {
    if a <= b then a else b
  }
}
