/**
 * Level progression (engine/progression.js): the speed curve, the level
 * bonus, the layout reset, the advance to the next level, the level-clear
 * animation (the player rises off the board, then the rows fill) and the
 * end-of-step milestone check.
 */
module Progression {
  import opened Constants
  import opened Grid
  import opened Board
  import opened GameState
  import opened Status
  import opened Enemy

  // The speed curve and the bonus.

  /**
   * `accelerateGame`: the tick interval shrinks to 95%, rounded half up, and
   * never goes below 120 ms.
   */
  function NextWaitTime(w: int): (r: int)
    ensures r >= MIN_WAIT_TIME
    ensures r == MIN_WAIT_TIME || 20 * r <= 19 * w + 10 < 20 * r + 20
    ensures 19 * w + 10 < 20 * MIN_WAIT_TIME ==> r == MIN_WAIT_TIME
    ensures w >= MIN_WAIT_TIME ==> r <= w
  {
    Max(MIN_WAIT_TIME, (19 * w + 10) / 20)
  }

  /** The interval never grows, so over any number of levels it stays within [120, start]. */
  lemma {:induction false} WaitTimeSettles(w: int, n: nat)
    requires w >= MIN_WAIT_TIME
    ensures MIN_WAIT_TIME <= Accelerated(w, n) <= w
    decreases n
  {
    if n > 0 {
      WaitTimeSettles(w, n - 1);
    }
  }

  /** The interval after `n` levels have been completed. */
  function Accelerated(w: int, n: nat): int
    decreases n
  {
    if n == 0 then w else NextWaitTime(Accelerated(w, n - 1))
  }

  /**
   * `calculateLevelSkillBonus`: 300 for a level hit ratio of at least 0.9,
   * 150 for at least 0.75 (nothing when no shot was fired this level), plus
   * 50 per kill of the level's best streak.
   */
  function LevelSkillBonus(m: Metrics): (bonus: int)
    ensures bonus >= 0
    ensures bonus >= Max(0, m.levelBestKillStreak) * LEVEL_STREAK_BONUS_VALUE
    ensures bonus <= Max(0, m.levelBestKillStreak) * LEVEL_STREAK_BONUS_VALUE + 300
    ensures m.totalShotsFired <= m.levelStartShotsFired ==>
              bonus == Max(0, m.levelBestKillStreak) * LEVEL_STREAK_BONUS_VALUE
  {
    var fired := Max(0, m.totalShotsFired - m.levelStartShotsFired);
    var hit := Max(0, m.totalShotsHit - m.levelStartShotsHit);
    AccuracyTier(hit, fired, 300, 150) + Max(0, m.levelBestKillStreak) * LEVEL_STREAK_BONUS_VALUE
  }

  /** `calculateLevelBonus`: 250 per level, 125 per remaining life, plus the skill bonus. */
  function LevelBonusPoints(m: Metrics): (bonus: int)
    ensures bonus >= m.level * LEVEL_BONUS_PER_LEVEL + Max(0, m.lives) * LEVEL_BONUS_PER_LIFE
    ensures bonus - LevelSkillBonus(m) == m.level * LEVEL_BONUS_PER_LEVEL + Max(0, m.lives) * LEVEL_BONUS_PER_LIFE
  {
    m.level * LEVEL_BONUS_PER_LEVEL + Max(0, m.lives) * LEVEL_BONUS_PER_LIFE + LevelSkillBonus(m)
  }

  /** Finishing a level with more lives never earns a smaller bonus. */
  lemma LevelBonusMonotone(m: Metrics, lives: int)
    requires lives >= m.lives
    ensures LevelBonusPoints(m.(lives := lives)) >= LevelBonusPoints(m)
  {
    assert LevelSkillBonus(m.(lives := lives)) == LevelSkillBonus(m);
  }

  // Layout reset and level advance.

  /** The per-level counters `applyLevelLayout` resets. */
  function LevelReset(m: Metrics): (r: Metrics)
    ensures r.killStreak == 0 && r.levelBestKillStreak == 0
    ensures r.levelStartShotsFired == m.totalShotsFired && r.levelStartShotsHit == m.totalShotsHit
    ensures r.lives == m.lives && r.level == m.level && r.currentScore == m.currentScore
    ensures r.waitTime == m.waitTime && r.bestKillStreak == m.bestKillStreak
    ensures CountersValid(m) ==> CountersValid(r)
  {
    m.(killStreak := 0, levelBestKillStreak := 0,
       levelStartShotsFired := m.totalShotsFired, levelStartShotsHit := m.totalShotsHit)
  }

  /**
   * The boss record after a layout reset: none off the boss level; on it a
   * fresh boss, except that a respawn after the player's death keeps the
   * damage already done (the smaller of the fresh and the previous lives).
   */
  function LayoutBoss(level: int, died: bool, previous: Option<BossState>): (boss: Option<BossState>)
    ensures boss.Some? <==> level == BOSS_LEVEL
    ensures boss.Some? ==> boss.value.(lives := BOSS_INITIAL_LIVES) == InitialBoss
    ensures boss.Some? && died && previous.Some? ==> boss.value.lives == Min(BOSS_INITIAL_LIVES, previous.value.lives)
    ensures boss.Some? && !(died && previous.Some?) ==> boss.value.lives == BOSS_INITIAL_LIVES
  {
    if level != BOSS_LEVEL then None
    else if died && previous.Some? then Some(InitialBoss.(lives := Min(InitialBoss.lives, previous.value.lives)))
    else Some(InitialBoss)
  }

  /** The hostiles a fresh layout holds: the boss alone on the boss level, thirteen enemies otherwise. */
  function LayoutHostiles(level: int): int {
    if level == BOSS_LEVEL then 1 else 13
  }

  /**
   * The fields `applyLevelLayout` leaves: the layout's hostiles, player and
   * boss record, the per-level counters reset, a full magazine, no queued
   * input, the died and cleared flags down and the animation idle; the
   * leaderboard, events and evade cooldown are kept.
   */
  function LaidOut(f: Fields): Fields {
    f.(enemies := LayoutHostiles(f.metrics.level),
       player := Some(Pos(PLAYER_START_ROW, PLAYER_START_COL)),
       boss := LayoutBoss(f.metrics.level, f.status.playerDied, f.boss),
       metrics := LevelReset(f.metrics),
       status := f.status.(playerDied := false, levelCleared := false),
       ammo := Ammo(MAX_CONCURRENT_SHOTS, 0),
       queuedInput := NoInput, transition := IdleTransition)
  }

  /**
   * `applyLevelLayout`: a fresh layout for the current level, the per-level
   * counters reset, a full magazine, no queued input, the died and cleared
   * flags down and the animation idle.
   */
  method ApplyLevelLayout(g: Game)
    requires g.Valid()
    modifies g`board, g`enemies, g`player, g`boss, g`metrics, g`status, g`ammo, g`queuedInput, g`transition
    ensures g.Valid()
    ensures fresh(g.board) && IsLayout(g.board, old(g.metrics.level))
    ensures g.enemies == HostileCount(g.board)
    ensures FieldsOf(g) == LaidOut(old(FieldsOf(g)))
  {
    var board, enemies, player, boss := FreshLayout(g.metrics.level, g.status.playerDied, g.boss);
    ResetLevelState(g);
    InstallLayout(g, board, enemies, player, boss);
  }

  /** The draft takes the fresh board with its hostile count, player and boss record. */
  method InstallLayout(g: Game, b: array2<Cell>, enemies: int, player: Pos, boss: Option<BossState>)
    requires g.Valid() && g.transition == IdleTransition
    requires BorderIntact(b) && enemies >= 0
    requires Interior(player) && b[player.row, player.col].kind == Player
    requires boss.Some? ==> BossValid(boss.value) && b[boss.value.row, boss.value.col].kind == Boss &&
                            enemies >= 1 && NoEnemyCells(b)
    modifies g`board, g`enemies, g`player, g`boss
    ensures g.Valid()
    ensures g.board == b
    ensures FieldsOf(g) == old(FieldsOf(g)).(enemies := enemies, player := Some(player), boss := boss)
  {
    g.board, g.enemies, g.player, g.boss := b, enemies, Some(player), boss;
  }

  /** The counters, flags, magazine, input and animation part of `applyLevelLayout`. */
  method ResetLevelState(g: Game)
    requires g.Valid()
    modifies g`metrics, g`status, g`ammo, g`queuedInput, g`transition
    ensures g.Valid()
    ensures FieldsOf(g) == old(FieldsOf(g)).(metrics := LevelReset(old(g.metrics)),
                                             status := old(g.status).(playerDied := false, levelCleared := false),
                                             ammo := Ammo(MAX_CONCURRENT_SHOTS, 0),
                                             queuedInput := NoInput, transition := IdleTransition)
  {
    g.metrics := LevelReset(g.metrics);
    g.status := g.status.(playerDied := false, levelCleared := false);
    g.ammo := Ammo(MAX_CONCURRENT_SHOTS, 0);
    g.queuedInput := NoInput;
    g.transition := IdleTransition;
  }

  /** The layout part of `applyLevelLayout`, with the boss's lives carried over a respawn. */
  method FreshLayout(level: int, died: bool, previous: Option<BossState>)
    returns (b: array2<Cell>, enemies: int, player: Pos, boss: Option<BossState>)
    requires previous.Some? ==> BossValid(previous.value)
    ensures fresh(b) && IsLayout(b, level) && BorderIntact(b) && enemies == HostileCount(b)
    ensures player == Pos(PLAYER_START_ROW, PLAYER_START_COL) && Interior(player) && b[player.row, player.col].kind == Player
    ensures boss == LayoutBoss(level, died, previous)
    ensures boss.Some? ==> BossValid(boss.value) && b[boss.value.row, boss.value.col].kind == Boss &&
                           enemies >= 1 && NoEnemyCells(b)
    ensures enemies == LayoutHostiles(level)
  {
    var carry := level == BOSS_LEVEL && died && previous.Some?;
    var preserved := if carry then previous.value.lives else 0;
    b, enemies, player, boss := BuildLevelLayout(level);
    LayoutFacts(b, level);
    if carry && boss.Some? {
      boss := Some(boss.value.(lives := Min(boss.value.lives, preserved)));
    }
  }

  /** What the state invariant needs of a fresh layout. */
  lemma LayoutFacts(b: array2<Cell>, level: int)
    requires IsLayout(b, level)
    ensures b[PLAYER_START_ROW, PLAYER_START_COL].kind == Player
    ensures level == BOSS_LEVEL ==> NoEnemyCells(b) && b[ENEMY_ROW, BOSS_START_COL].kind == Boss
  {
    assert b[PLAYER_START_ROW, PLAYER_START_COL] == LayoutCell(level, PLAYER_START_ROW, PLAYER_START_COL);
    if level == BOSS_LEVEL {
      assert b[ENEMY_ROW, BOSS_START_COL] == LayoutCell(level, ENEMY_ROW, BOSS_START_COL);
      forall r, c | InBounds(r, c)
        ensures b[r, c].kind != Enemy
      {
        assert b[r, c] == LayoutCell(level, r, c);
      }
    }
  }

  /** `advanceToNextLevel`: the events it reports, given whether the bonus was awarded and the level completed. */
  function AdvanceEvents(awardBonus: bool, completed: int): (events: seq<Event>)
    ensures |events| == (if awardBonus then 2 else 1)
    ensures awardBonus ==> events[0] == LevelBonus
    ensures events[|events| - 1] == (if completed >= LAST_LEVEL then CampaignComplete else LevelStart)
  {
    (if awardBonus then [LevelBonus] else []) + [if completed >= LAST_LEVEL then CampaignComplete else LevelStart]
  }

  /** The first half of `advanceToNextLevel`: the optional bonus, the speed-up, no queued input. */
  function Credited(f: Fields, awardBonus: bool): Fields {
    f.(metrics := f.metrics.(currentScore := f.metrics.currentScore + (if awardBonus then LevelBonusPoints(f.metrics) else 0),
                             waitTime := NextWaitTime(f.metrics.waitTime)),
       events := f.events + (if awardBonus then [LevelBonus] else []),
       queuedInput := NoInput)
  }

  /** After the last level: the game is over, the animation idle, the campaign reported complete. */
  function CampaignOver(f: Fields): Fields {
    f.(status := f.status.(gameOver := true, levelCleared := false), transition := IdleTransition,
       events := f.events + [CampaignComplete])
  }

  /** Before the last level: the next level's layout, reported as a level start. */
  function NextLevel(f: Fields): Fields {
    var laid := LaidOut(f.(metrics := f.metrics.(level := f.metrics.level + 1)));
    laid.(events := laid.events + [LevelStart])
  }

  /**
   * `advanceToNextLevel` on the fields: the level is credited, then the
   * campaign ends after the last level and the next level is laid out
   * before it. The events, score, pace and level it reports follow.
   */
  function Advanced(f: Fields, awardBonus: bool): (r: Fields)
    ensures r.events == f.events + AdvanceEvents(awardBonus, f.metrics.level)
    ensures r.metrics.currentScore == f.metrics.currentScore + (if awardBonus then LevelBonusPoints(f.metrics) else 0)
    ensures r.metrics.waitTime == NextWaitTime(f.metrics.waitTime)
    ensures r.metrics.level == (if f.metrics.level >= LAST_LEVEL then f.metrics.level else f.metrics.level + 1)
    ensures r.queuedInput == NoInput && r.transition == IdleTransition
    ensures f.metrics.level >= LAST_LEVEL ==> r.status.gameOver && r.player == f.player && r.enemies == f.enemies
    ensures f.metrics.level < LAST_LEVEL ==>
              r.status.gameOver == f.status.gameOver && r.enemies == LayoutHostiles(f.metrics.level + 1)
    ensures r.highScores == f.highScores && r.lastScoreId == f.lastScoreId
  {
    var credited := Credited(f, awardBonus);
    if f.metrics.level >= LAST_LEVEL then CampaignOver(credited) else NextLevel(credited)
  }

  /**
   * The board `advanceToNextLevel` leaves: the same one after the last
   * level, a fresh layout before it (the next level's here, the first
   * level's in the single-file engine).
   */
  twostate predicate LevelBoard(g: Game, layoutLevel: int)
    reads g`board, g.board
  {
    if old(g.metrics.level) >= LAST_LEVEL then g.board == old(g.board) && unchanged(g.board)
    else fresh(g.board) && IsLayout(g.board, layoutLevel)
  }

  /**
   * `advanceToNextLevel`: optionally awards the level bonus, speeds the game
   * up and clears the queued input; after the last level the campaign is
   * over and the level stays; otherwise the next level's layout is applied.
   */
  method AdvanceToNextLevel(g: Game, awardBonus: bool)
    requires g.Valid()
    modifies g`board, g`enemies, g`player, g`boss, g`metrics, g`status, g`ammo, g`queuedInput, g`transition, g`events
    ensures g.Valid()
    ensures FieldsOf(g) == Advanced(old(FieldsOf(g)), awardBonus)
    ensures LevelBoard(g, old(g.metrics.level) + 1)
  {
    var completed := g.metrics.level;
    CreditLevel(g, awardBonus);
    if completed >= LAST_LEVEL {
      CompleteCampaign(g);
      return;
    }
    StartNextLevel(g);
  }

  /** `advanceToNextLevel` before the last level. */
  method StartNextLevel(g: Game)
    requires g.Valid()
    modifies g`board, g`enemies, g`player, g`boss, g`metrics, g`status, g`ammo, g`queuedInput, g`transition, g`events
    ensures g.Valid()
    ensures FieldsOf(g) == NextLevel(old(FieldsOf(g)))
    ensures fresh(g.board) && IsLayout(g.board, old(g.metrics.level) + 1)
  {
    g.metrics := g.metrics.(level := g.metrics.level + 1);
    ApplyLevelLayout(g);
    g.events := g.events + [LevelStart];
  }

  /** The first half of `advanceToNextLevel`. */
  method CreditLevel(g: Game, awardBonus: bool)
    requires g.Valid()
    modifies g`metrics, g`events, g`queuedInput
    ensures g.Valid()
    ensures FieldsOf(g) == Credited(old(FieldsOf(g)), awardBonus)
  {
    if awardBonus {
      var bonus := LevelBonusPoints(g.metrics);
      g.metrics := g.metrics.(currentScore := g.metrics.currentScore + bonus);
      g.events := g.events + [LevelBonus];
    }
    g.metrics := g.metrics.(waitTime := NextWaitTime(g.metrics.waitTime));
    g.queuedInput := NoInput;
  }

  /** `advanceToNextLevel` after the last level. */
  method CompleteCampaign(g: Game)
    requires g.Valid()
    modifies g`status, g`transition, g`events
    ensures g.Valid()
    ensures FieldsOf(g) == CampaignOver(old(FieldsOf(g)))
  {
    g.status := g.status.(gameOver := true, levelCleared := false);
    g.transition := IdleTransition;
    g.events := g.events + [CampaignComplete];
  }

  // The level-clear animation.

  /**
   * A measure that every step of the animation decreases: the player's
   * row plus 20 while rising, the rows left to fill plus one while filling,
   * and 0 once idle.
   */
  function TransitionRank(t: Transition, player: Option<Pos>): (rank: nat)
    ensures rank == 0 <==> t.mode == Idle
    ensures t.mode == Fill && t.progress >= 1 ==> rank <= ROWS - 1
  {
    match t.mode
    case Idle => 0
    case Rise => if player.Some? then 20 + Max(0, player.value.row) else 20
    case Fill => Max(0, ROWS - 1 - t.progress) + 1
  }

  /** `startLevelClearTransition`: the rise begins and queued input is dropped. */
  method StartLevelClearTransition(g: Game)
    requires g.Valid() && g.enemies <= 0
    modifies g`transition, g`queuedInput
    ensures g.Valid()
    ensures FieldsOf(g) == old(FieldsOf(g)).(transition := Transition(Rise, 0), queuedInput := NoInput)
  {
    g.transition := Transition(Rise, 0);
    g.queuedInput := NoInput;
  }

  /** The rise phase on the fields: the player moves up a row, or leaves the board from row 1 and filling starts at row 1. */
  function Risen(f: Fields): Fields {
    if f.player.Some? && f.player.value.row > 1 then f.(player := Some(f.player.value.(row := f.player.value.row - 1)))
    else f.(player := None, transition := Transition(Fill, 1))
  }

  /**
   * One step of the level-clear animation on the fields: nothing when idle;
   * the rise; one more filled row while rows 1..16 remain; then the level
   * is advanced with its bonus. Every step lowers the rank, so the
   * animation ends.
   */
  function Animated(f: Fields): (r: Fields)
    ensures f.transition.mode == Idle ==> r == f
    ensures f.transition.mode != Idle ==> TransitionRank(r.transition, r.player) < TransitionRank(f.transition, f.player)
    ensures r.highScores == f.highScores && r.lastScoreId == f.lastScoreId
  {
    match f.transition.mode
    case Idle => f
    case Rise => Risen(f)
    case Fill =>
      if f.transition.progress < ROWS - 1 then f.(transition := f.transition.(progress := f.transition.progress + 1))
      else Advanced(f, true)
  }

  /**
   * The board one animation step leaves: the same board when idle; the
   * player's cell moved up, or emptied from row 1, while rising; row
   * `progress` painted while filling; the board `advanceToNextLevel` leaves
   * after row 16.
   */
  twostate predicate AnimatedBoard(g: Game, layoutLevel: int)
    reads g`board, g.board
  {
    var t, p := old(g.transition), old(g.player);
    match t.mode
    case Idle => g.board == old(g.board) && unchanged(g.board)
    case Rise =>
      g.board == old(g.board) &&
      if p.None? then unchanged(g.board)
      else if p.value.row > 1 then Moved(g.board, p.value.row, p.value.col, p.value.row - 1, p.value.col)
      else Replaced(g.board, p.value.row, p.value.col, EmptyCell)
    case Fill =>
      if t.progress < ROWS - 1 then g.board == old(g.board) && Filled(g.board, t.progress)
      else LevelBoard(g, layoutLevel)
  }

  /** `AnimatedBoard` between a result's board `t` and the board of the state `s` it was built from. */
  ghost predicate AnimatedFrom(t: array2<Cell>, s: Game, layoutLevel: int)
    reads t, s, s.board
  {
    var p := s.player;
    match s.transition.mode
    case Idle => SameCells(t, s.board)
    case Rise =>
      if p.None? then SameCells(t, s.board)
      else if p.value.row > 1 then MovedFrom(t, s.board, p.value.row, p.value.col, p.value.row - 1, p.value.col)
      else ReplacedFrom(t, s.board, p.value.row, p.value.col, EmptyCell)
    case Fill =>
      if s.transition.progress < ROWS - 1 then FilledFrom(t, s.board, s.transition.progress)
      else if s.metrics.level >= LAST_LEVEL then SameCells(t, s.board)
      else IsLayout(t, layoutLevel)
  }

  /**
   * `runLevelClearTransition`: one step of the animation. Rising, the player
   * moves up a row, or leaves the board from row 1, and once it is gone
   * filling starts at row 1; filling paints one row per step up to row 16,
   * then the level is advanced with its bonus. Each step lowers the rank.
   */
  method RunLevelClearTransition(g: Game)
    requires g.Valid()
    modifies g.board, g`board, g`enemies, g`player, g`boss, g`metrics, g`status, g`ammo, g`queuedInput, g`transition, g`events
    ensures g.Valid()
    ensures FieldsOf(g) == Animated(old(FieldsOf(g)))
    ensures AnimatedBoard(g, old(g.metrics.level) + 1)
  {
    match g.transition.mode
    case Idle =>
    case Rise =>
      RisePlayer(g);
    case Fill =>
      var nextRow := g.transition.progress;
      if nextRow < ROWS - 1 {
        FillRowWithFiller(g.board, nextRow);
        g.transition := g.transition.(progress := nextRow + 1);
        return;
      }
      AdvanceToNextLevel(g, true);
  }

  /** The rise phase: the player moves up, or leaves from row 1; without a player filling starts at row 1. */
  method RisePlayer(g: Game)
    requires g.Valid() && g.transition.mode == Rise
    modifies g.board, g`player, g`transition
    ensures g.Valid()
    ensures old(g.player).Some? && old(g.player).value.row > 1 ==>
              g.player == Some(old(g.player).value.(row := old(g.player).value.row - 1)) &&
              Moved(g.board, old(g.player).value.row, old(g.player).value.col,
                    old(g.player).value.row - 1, old(g.player).value.col) &&
              g.transition == old(g.transition)
    ensures !(old(g.player).Some? && old(g.player).value.row > 1) ==> g.player.None? && g.transition == Transition(Fill, 1)
    ensures old(g.player).Some? && old(g.player).value.row <= 1 ==>
              Replaced(g.board, old(g.player).value.row, old(g.player).value.col, EmptyCell)
    ensures old(g.player).None? ==> unchanged(g.board)
    ensures FieldsOf(g) == Risen(old(FieldsOf(g)))
  {
    if g.player.Some? {
      var p := g.player.value;
      if p.row > 1 {
        MoveCell(g.board, p.row, p.col, p.row - 1, p.col);
        g.player := Some(p.(row := p.row - 1));
      } else {
        ClearCell(g.board, p.row, p.col);
        g.player := None;
      }
    }
    if g.player.None? {
      g.transition := Transition(Fill, 1);
    }
  }

  // End of step.

  /** `restartCurrentLevel` on the fields: the level laid out again, reported as a respawn and a restart. */
  function Restarted(f: Fields): Fields {
    var laid := LaidOut(f);
    laid.(events := laid.events + [PlayerRespawn, LevelRestart])
  }

  /** `restartCurrentLevel`: a fresh layout of the same level, reported as a respawn and a restart. */
  method RestartCurrentLevel(g: Game)
    requires g.Valid()
    modifies g`board, g`enemies, g`player, g`boss, g`metrics, g`status, g`ammo, g`queuedInput, g`transition, g`events
    ensures g.Valid()
    ensures fresh(g.board) && IsLayout(g.board, old(g.metrics.level))
    ensures FieldsOf(g) == Restarted(old(FieldsOf(g)))
  {
    ApplyLevelLayout(g);
    g.events := g.events + [PlayerRespawn, LevelRestart];
  }

  /**
   * `triggerGameOver` on the fields: the game-over flag raised and the
   * died flag lowered, no queued input, the animation idle, reported once;
   * nothing changes when the game is already over, so a second call is a
   * no-op.
   */
  function GameEnded(f: Fields): (r: Fields)
    ensures r.status.gameOver
    ensures r == f <==> f.status.gameOver
  {
    if f.status.gameOver then f
    else f.(status := f.status.(gameOver := true, playerDied := false), queuedInput := NoInput,
            transition := IdleTransition, events := f.events + [GameOver])
  }

  /** `triggerGameOver`: raises the flag once; when it is already raised nothing changes. */
  method TriggerGameOver(g: Game)
    requires g.Valid()
    modifies g`status, g`queuedInput, g`transition, g`events
    ensures g.Valid()
    ensures FieldsOf(g) == GameEnded(old(FieldsOf(g)))
  {
    if g.status.gameOver {
      return;
    }
    g.status := g.status.(gameOver := true, playerDied := false);
    g.queuedInput := NoInput;
    g.transition := IdleTransition;
    g.events := g.events + [GameOver];
  }

  /** What the end-of-step check decides. */
  datatype Milestone = NoMilestone | Restart | Over | Cleared

  /**
   * `checkGameMilestones`, as a decision: nothing once the game is over; a
   * death restarts the level while lives remain and ends the game otherwise;
   * then a board without hostiles is cleared (once); then no lives left ends
   * the game.
   */
  function MilestoneOf(st: StatusFlags, lives: int, enemies: int): (m: Milestone)
    ensures st.gameOver ==> m == NoMilestone
    ensures !st.gameOver && st.playerDied ==> (m == Restart <==> lives > 0) && (m == Over <==> lives <= 0)
    ensures m == Restart ==> st.playerDied && lives > 0
    ensures m == Cleared <==> !st.gameOver && !st.playerDied && !st.levelCleared && enemies <= 0
    ensures m == Over ==> !st.gameOver && lives <= 0
    ensures m == NoMilestone ==> st.gameOver || (!st.playerDied && lives > 0 && (st.levelCleared || enemies > 0))
  {
    if st.gameOver then NoMilestone
    else if st.playerDied then (if lives > 0 then Restart else Over)
    else if !st.levelCleared && enemies <= 0 then Cleared
    else if lives <= 0 then Over
    else NoMilestone
  }

  /** The level-clear trigger: the cleared flag raised, the rise begun, queued input dropped, reported once. */
  function ClearedLevel(f: Fields): Fields {
    f.(status := f.status.(levelCleared := true), transition := Transition(Rise, 0), queuedInput := NoInput,
       events := f.events + [LevelCleared])
  }

  /** `checkGameMilestones` on the fields: the decision of `MilestoneOf`, carried out. */
  function AfterMilestone(f: Fields): Fields {
    match MilestoneOf(f.status, f.metrics.lives, f.enemies)
    case NoMilestone => f
    case Restart => Restarted(f)
    case Over => GameEnded(f)
    case Cleared => ClearedLevel(f)
  }

  /**
   * `checkGameMilestones`: carries out the decision of `MilestoneOf`; only a
   * restart lays out a new board.
   */
  method CheckGameMilestones(g: Game)
    requires g.Valid()
    modifies g`board, g`enemies, g`player, g`boss, g`metrics, g`status, g`ammo, g`queuedInput, g`transition, g`events
    ensures g.Valid()
    ensures FieldsOf(g) == AfterMilestone(old(FieldsOf(g)))
    ensures old(MilestoneOf(g.status, g.metrics.lives, g.enemies)) == Restart ==>
              fresh(g.board) && IsLayout(g.board, old(g.metrics.level))
    ensures old(MilestoneOf(g.status, g.metrics.lives, g.enemies)) != Restart ==> g.board == old(g.board) && unchanged(g.board)
  {
    if g.status.gameOver {
      return;
    }
    if g.status.playerDied {
      if g.metrics.lives > 0 {
        RestartCurrentLevel(g);
      } else {
        TriggerGameOver(g);
      }
      return;
    }
    if !g.status.levelCleared && g.enemies <= 0 {
      ClearLevel(g);
      return;
    }
    if g.metrics.lives <= 0 {
      TriggerGameOver(g);
    }
  }

  /** The level-clear branch of `checkGameMilestones`: the cleared flag, the rise begun, reported. */
  method ClearLevel(g: Game)
    requires g.Valid() && g.enemies <= 0
    modifies g`status, g`queuedInput, g`transition, g`events
    ensures g.Valid()
    ensures FieldsOf(g) == ClearedLevel(old(FieldsOf(g)))
  {
    g.status := g.status.(levelCleared := true);
    StartLevelClearTransition(g);
    g.events := g.events + [LevelCleared];
  }
}
