/**
 * The per-tick entry points (engine/index.js). Each works on a fresh copy
 * of the state, as immer's `produce` does, and leaves the state it was given
 * untouched.
 */
module Engine {
  import opened Constants
  import opened Grid
  import opened Board
  import opened GameState
  import opened Status
  import opened Oracle
  import opened Player
  import opened Enemy
  import opened Boss
  import opened Projectiles
  import opened Progression

  /**
   * `advanceGame`: during the level-clear animation a tick only clears the
   * events and runs one animation step; a state that is not playable is
   * returned as it is; otherwise the step runs move, fire, enemy bullets,
   * diagonal bullets, player bullets, merged bullets, enemies, boss and the
   * milestone check, in that order, and the queued input is cleared.
   */
  method AdvanceGame(s: Game, rng: Random) returns (t: Game)
    requires s.Valid()
    modifies rng
    ensures t.Valid()
    ensures s.transition.mode != Idle ==>
              fresh(t) && FieldsOf(t) == Animated(FieldsOf(s).(events := [])) &&
              AnimatedFrom(t.board, s, s.metrics.level + 1) && rng.tape == old(rng.tape)
    ensures s.transition.mode != Idle ==> TransitionRank(t.transition, t.player) < TransitionRank(s.transition, s.player)
    ensures s.transition.mode == Idle && !IsPlayable(s.status) ==> t == s && rng.tape == old(rng.tape)
    ensures s.transition.mode == Idle && IsPlayable(s.status) ==> fresh(t) && t.queuedInput == NoInput
    ensures t.highScores == s.highScores && t.lastScoreId == s.lastScoreId
  {
    if s.transition.mode != Idle {
      t := AnimatedCopy(s);
      return;
    }
    if !IsPlayable(s.status) {
      return s;
    }
    t := Produce(s);
    PlayTick(t, rng);
  }

  /** The animation branch of `advanceGame`: a fresh copy of the state, stepped once. */
  method AnimatedCopy(s: Game) returns (t: Game)
    requires s.Valid() && s.transition.mode != Idle
    ensures fresh(t) && t.Valid()
    ensures FieldsOf(t) == Animated(FieldsOf(s).(events := []))
    ensures AnimatedFrom(t.board, s, s.metrics.level + 1)
  {
    t := Produce(s);
    AnimationTick(t);
  }

  /** A tick during the level-clear animation, on the draft: the events are cleared and the animation steps. */
  method AnimationTick(t: Game)
    requires t.Valid() && t.transition.mode != Idle
    modifies t.board, t`board, t`enemies, t`player, t`boss, t`metrics, t`status, t`ammo, t`queuedInput, t`transition, t`events
    ensures t.Valid()
    ensures FieldsOf(t) == Animated(old(FieldsOf(t)).(events := []))
    ensures AnimatedBoard(t, old(t.metrics.level) + 1)
  {
    BeginDraft(t, false);
    RunLevelClearTransition(t);
  }

  /** The body of a playable tick, on the draft: the events are cleared, then the phases run. */
  method PlayTick(t: Game, rng: Random)
    requires t.Valid()
    modifies t.board, t`board, t`enemies, t`player, t`boss, t`metrics, t`status, t`ammo, t`queuedInput,
             t`transition, t`events, t`evadeCooldown, rng
    ensures t.Valid()
    ensures t.queuedInput == NoInput
  {
    BeginDraft(t, false);
    PlayerPhase(t);
    ProjectilePhase(t, rng);
    HostilePhase(t, rng);
    CheckGameMilestones(t);
    t.queuedInput := NoInput;
  }

  /** The queued move, then the queued shot. */
  method PlayerPhase(t: Game)
    requires t.Valid()
    modifies t.board, t`enemies, t`player, t`boss, t`status, t`metrics, t`ammo, t`events, t`queuedInput
    ensures t.Valid()
    ensures t.queuedInput == NoInput
  {
    QueuePlayerMove(t);
    QueuePlayerFire(t);
  }

  /** Enemy and combined bullets, diagonal bullets, player bullets, merged bullets. */
  method ProjectilePhase(t: Game, rng: Random)
    requires t.Valid()
    modifies t.board, t`enemies, t`player, t`boss, t`status, t`metrics, t`ammo, t`events, rng
    ensures t.Valid()
  {
    MoveEnemyBullets(t, rng);
    MoveDiagonalBullets(t, rng);
    MovePlayerBullets(t);
    MoveBothBullets(t);
  }

  /** The enemy formation, then the boss. */
  method HostilePhase(t: Game, rng: Random)
    requires t.Valid()
    modifies t.board, t`enemies, t`player, t`boss, t`status, t`metrics, t`ammo, t`events, t`evadeCooldown, rng
    ensures t.Valid()
  {
    MoveEnemies(t, rng);
    UpdateBoss(t, rng);
  }

  /** `prepareNextLevel`: the cleared flag goes down and the level is advanced with its bonus. */
  method PrepareNextLevel(s: Game) returns (t: Game)
    requires s.Valid()
    ensures fresh(t) && t.Valid()
    ensures FieldsOf(t) == Advanced(FieldsOf(s).(events := [], status := s.status.(levelCleared := false)), true)
    ensures s.metrics.level >= LAST_LEVEL ==> SameCells(t.board, s.board)
    ensures s.metrics.level < LAST_LEVEL ==> IsLayout(t.board, s.metrics.level + 1)
    ensures t.events == AdvanceEvents(true, s.metrics.level)
    ensures t.metrics.currentScore == s.metrics.currentScore + LevelBonusPoints(s.metrics)
  {
    t := Produce(s);
    AdvanceDraft(t);
  }

  /** The draft side of `prepareNextLevel`: events cleared, cleared flag down, level advanced with its bonus. */
  method AdvanceDraft(t: Game)
    requires t.Valid()
    modifies t`board, t`enemies, t`player, t`boss, t`metrics, t`status, t`ammo, t`queuedInput, t`transition, t`events
    ensures t.Valid()
    ensures FieldsOf(t) == Advanced(old(FieldsOf(t)).(events := [], status := old(t.status).(levelCleared := false)), true)
    ensures LevelBoard(t, old(t.metrics.level) + 1)
  {
    BeginDraft(t, true);
    AdvanceToNextLevel(t, true);
  }

  /** `respawnPlayer`: a fresh layout of the current level; the only event is the respawn. */
  method RespawnPlayer(s: Game) returns (t: Game)
    requires s.Valid()
    ensures fresh(t) && t.Valid()
    ensures IsLayout(t.board, s.metrics.level)
    ensures FieldsOf(t) == LaidOut(FieldsOf(s)).(events := [PlayerRespawn])
  {
    t := Produce(s);
    // the layout leaves the events alone, so the respawn event can be put in place first
    t.events := [PlayerRespawn];
    assert FieldsOf(t) == FieldsOf(s).(events := [PlayerRespawn]);
    ApplyLevelLayout(t);
  }
}
