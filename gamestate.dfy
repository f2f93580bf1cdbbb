/**
 * The game state the engine steps (the record built by
 * space-killer-react/src/game/state.js and mutated through immer drafts).
 * It is a class: every engine step updates its fields in place.
 */
module GameState {
  import opened Constants
  import opened Grid
  import opened Board
  import opened Status

  /**
   * Score counters. The initial state sets only the first four; the others
   * are read with a default of 0, which is where they start here.
   */
  datatype Metrics = Metrics(
    lives: int,
    level: int,
    currentScore: int,
    waitTime: int,
    killStreak: int,
    bestKillStreak: int,
    levelBestKillStreak: int,
    totalShotsFired: int,
    totalShotsHit: int,
    levelStartShotsFired: int,
    levelStartShotsHit: int)

  const InitialMetrics: Metrics := Metrics(INITIAL_LIVES, 1, 0, INITIAL_WAIT_TIME, 0, 0, 0, 0, 0, 0, 0)

  datatype Ammo = Ammo(remainingShots: int, cooldownTicks: int)

  datatype QueuedInput = QueuedInput(move: Option<HDir>, fire: bool)

  const NoInput: QueuedInput := QueuedInput(None, false)

  /** The level-clear animation: idle, the player rising off the board, rows filling. */
  datatype Mode = Idle | Rise | Fill

  datatype Transition = Transition(mode: Mode, progress: int)

  const IdleTransition: Transition := Transition(Idle, 0)

  /** A normalised leaderboard entry. */
  datatype ScoreEntry = ScoreEntry(id: string, score: int, level: int, timestamp: int)

  predicate Interior(p: Pos) {
    1 <= p.row <= ROWS - 2 && 1 <= p.col <= COLS - 2
  }

  ghost predicate CountersValid(m: Metrics) {
    m.level >= 1 && m.waitTime >= MIN_WAIT_TIME &&
    m.killStreak >= 0 && m.bestKillStreak >= 0 && m.levelBestKillStreak >= 0 &&
    m.totalShotsFired >= 0 && m.totalShotsHit >= 0 &&
    m.levelStartShotsFired >= 0 && m.levelStartShotsHit >= 0
  }

  ghost predicate BossValid(bs: BossState) {
    Interior(Pos(bs.row, bs.col)) && bs.row <= ROWS - 3 &&
    1 <= bs.lives <= BOSS_INITIAL_LIVES &&
    bs.fireCooldown >= 0 && bs.moveCooldown >= 0 && bs.teleportCooldown >= 0 &&
    bs.revengeShotsRemaining >= 0
  }

  ghost predicate NoEnemyCells(b: array2<Cell>)
    reads b
  {
    Shaped(b) && forall r, c :: InBounds(r, c) ==> b[r, c].kind != Enemy
  }

  class Game {
    var board: array2<Cell>
    var enemies: int
    var player: Option<Pos>
    var boss: Option<BossState>
    var status: StatusFlags
    var metrics: Metrics
    var ammo: Ammo
    var queuedInput: QueuedInput
    var transition: Transition
    /** Shared evade cooldown of the enemy formation. */
    var evadeCooldown: int
    var events: seq<Event>
    var highScores: seq<ScoreEntry>
    var lastScoreId: Option<string>

    /**
     * The state invariant: the border is intact; a present player sits on
     * the interior cell that holds the player; a present boss sits on the
     * boss cell inside its box, with lives left, counted among the hostiles
     * and with no plain enemy on the board; no player while rows are being
     * filled and no boss during the level-clear animation; counters are
     * non-negative.
     */
    ghost predicate Valid()
      reads this, board
    {
      BorderIntact(board) &&
      (player.Some? ==> Interior(player.value) && board[player.value.row, player.value.col].kind == Player) &&
      (boss.Some? ==> BossValid(boss.value) && board[boss.value.row, boss.value.col].kind == Boss &&
                      enemies >= 1 && NoEnemyCells(board)) &&
      (transition.mode == Fill ==> player.None?) &&
      (transition.mode != Idle ==> boss.None?) &&
      CountersValid(metrics) &&
      enemies >= 0 && ammo.remainingShots >= 0 && ammo.cooldownTicks >= 0 && evadeCooldown >= 0
    }

    constructor (board: array2<Cell>, enemies: int, player: Option<Pos>, boss: Option<BossState>,
                 status: StatusFlags, metrics: Metrics, ammo: Ammo, queuedInput: QueuedInput,
                 transition: Transition, evadeCooldown: int, events: seq<Event>,
                 highScores: seq<ScoreEntry>, lastScoreId: Option<string>)
      ensures this.board == board && this.enemies == enemies && this.player == player && this.boss == boss
      ensures this.status == status && this.metrics == metrics && this.ammo == ammo
      ensures this.queuedInput == queuedInput && this.transition == transition
      ensures this.evadeCooldown == evadeCooldown && this.events == events
      ensures this.highScores == highScores && this.lastScoreId == lastScoreId
    {
      this.board := board;
      this.enemies := enemies;
      this.player := player;
      this.boss := boss;
      this.status := status;
      this.metrics := metrics;
      this.ammo := ammo;
      this.queuedInput := queuedInput;
      this.transition := transition;
      this.evadeCooldown := evadeCooldown;
      this.events := events;
      this.highScores := highScores;
      this.lastScoreId := lastScoreId;
    }
  }

  /** The fields besides the board that a hit, a kill or a refund can change. */
  datatype Side = Side(enemies: int, player: Option<Pos>, boss: Option<BossState>, status: StatusFlags,
                       metrics: Metrics, ammo: Ammo, events: seq<Event>)

  function SideOf(g: Game): Side
    reads g`enemies, g`player, g`boss, g`status, g`metrics, g`ammo, g`events
  {
    Side(g.enemies, g.player, g.boss, g.status, g.metrics, g.ammo, g.events)
  }

  /** Every field of the state but the board, as one value. */
  datatype Fields = Fields(enemies: int, player: Option<Pos>, boss: Option<BossState>, status: StatusFlags,
                           metrics: Metrics, ammo: Ammo, queuedInput: QueuedInput, transition: Transition,
                           evadeCooldown: int, events: seq<Event>, highScores: seq<ScoreEntry>,
                           lastScoreId: Option<string>)

  function FieldsOf(g: Game): Fields
    reads g`enemies, g`player, g`boss, g`status, g`metrics, g`ammo, g`queuedInput, g`transition,
          g`evadeCooldown, g`events, g`highScores, g`lastScoreId
  {
    Fields(g.enemies, g.player, g.boss, g.status, g.metrics, g.ammo, g.queuedInput, g.transition,
           g.evadeCooldown, g.events, g.highScores, g.lastScoreId)
  }

  /** The fields `f` with the hit, kill and refund fields taken from `s`. */
  function WithSide(f: Fields, s: Side): Fields {
    f.(enemies := s.enemies, player := s.player, boss := s.boss, status := s.status,
       metrics := s.metrics, ammo := s.ammo, events := s.events)
  }

  /** `t` holds the same field values as `s` and a board equal to `s`'s cell by cell. */
  ghost predicate SameState(t: Game, s: Game)
    reads t, s, t.board, s.board
  {
    SameCells(t.board, s.board) && FieldsOf(t) == FieldsOf(s)
  }

  /** The immer `produce` boundary: a fresh draft, with its own board, equal to the state. */
  method Produce(s: Game) returns (t: Game)
    requires s.Valid()
    ensures fresh(t) && fresh(t.board)
    ensures SameState(t, s) && t.Valid()
  {
    var b := CloneBoard(s.board);
    t := new Game(b, s.enemies, s.player, s.boss, s.status, s.metrics, s.ammo, s.queuedInput,
                  s.transition, s.evadeCooldown, s.events, s.highScores, s.lastScoreId);
  }

  /** A fresh draft of `s` with a new leaderboard and last-entry identifier, the board and every other field equal. */
  method WithScores(s: Game, highScores: seq<ScoreEntry>, lastScoreId: Option<string>) returns (t: Game)
    requires s.Valid()
    ensures fresh(t) && t.Valid()
    ensures FieldsOf(t) == FieldsOf(s).(highScores := highScores, lastScoreId := lastScoreId)
    ensures SameCells(t.board, s.board)
  {
    t := Produce(s);
    SetScores(t, highScores, lastScoreId);
  }

  /** The leaderboard and last-entry identifier of `g` are replaced in place. */
  method SetScores(g: Game, highScores: seq<ScoreEntry>, lastScoreId: Option<string>)
    requires g.Valid()
    modifies g`highScores, g`lastScoreId
    ensures g.Valid()
    ensures g.highScores == highScores && g.lastScoreId == lastScoreId
  {
    g.highScores := highScores;
    g.lastScoreId := lastScoreId;
  }

  /**
   * The first step of a tick's or an advance's recipe on the draft: the
   * events are emptied and, when `lowerCleared` is set, the cleared flag
   * goes down; nothing else changes.
   */
  method BeginDraft(g: Game, lowerCleared: bool)
    requires g.Valid()
    modifies g`events, g`status
    ensures g.Valid()
    ensures FieldsOf(g) == old(FieldsOf(g)).(events := [],
                                             status := if lowerCleared then old(g.status).(levelCleared := false) else old(g.status))
  {
    g.events := [];
    if lowerCleared {
      g.status := g.status.(levelCleared := false);
    }
  }
}
