/**
 * Enemies (engine/enemy.js): kill resolution and its scoring, and the
 * per-step enemy AI (evasion of nearby player shots, then a random walk
 * or a shot decided by a die roll).
 */
module Enemy {
  import opened Constants
  import opened Grid
  import opened Board
  import opened GameState
  import opened Oracle

  // Scoring

  /** 20 points per kill beyond the first of the streak, capped at 200. */
  function StreakBonus(streak: int): (bonus: int)
    ensures 0 <= bonus <= ENEMY_STREAK_BONUS_CAP
    ensures streak <= 1 ==> bonus == 0
    ensures 1 <= streak <= 11 ==> bonus == (streak - 1) * ENEMY_STREAK_BONUS_STEP
    ensures streak >= 11 ==> bonus == ENEMY_STREAK_BONUS_CAP
  {
    Min(Max(0, streak - 1) * ENEMY_STREAK_BONUS_STEP, ENEMY_STREAK_BONUS_CAP)
  }

  /**
   * The first accuracy threshold reached: a hit ratio of at least 0.9 earns
   * `top`, at least 0.75 earns `second`, less earns nothing; with no shots
   * fired the ratio reads as 0. Ratios are compared by cross-multiplication.
   */
  function AccuracyTier(hit: int, fired: int, top: int, second: int): (bonus: int)
    ensures bonus == top || bonus == second || bonus == 0
    ensures fired > 0 && 10 * hit >= 9 * fired ==> bonus == top
    ensures fired > 0 && 4 * hit >= 3 * fired && 10 * hit < 9 * fired ==> bonus == second
    ensures fired <= 0 || 4 * hit < 3 * fired ==> bonus == 0
  {
    if fired <= 0 then 0
    else if 10 * hit >= 9 * fired then top
    else if 4 * hit >= 3 * fired then second
    else 0
  }

  /** A better hit ratio never earns a smaller tier. */
  lemma AccuracyTierMonotone(hit1: int, hit2: int, fired: int, top: int, second: int)
    requires hit1 <= hit2 && 0 <= second <= top
    ensures AccuracyTier(hit1, fired, top, second) <= AccuracyTier(hit2, fired, top, second)
  {
  }

  /** The points one kill is worth, given the counters before the kill. */
  function SkillAward(m: Metrics, base: int): (award: int)
    ensures base <= award <= base + ENEMY_STREAK_BONUS_CAP + 75
    ensures m.totalShotsFired <= 0 ==> award == base + StreakBonus(m.killStreak + 1)
    ensures m.killStreak <= 0 && m.totalShotsFired <= 0 ==> award == base
  {
    base + StreakBonus(m.killStreak + 1) + AccuracyTier(m.totalShotsHit + 1, m.totalShotsFired, 75, 35)
  }

  /** The counters after one kill worth `base`. */
  function Credited(m: Metrics, base: int): (r: Metrics)
    ensures r.killStreak == m.killStreak + 1 && r.totalShotsHit == m.totalShotsHit + 1
    ensures r.bestKillStreak >= m.bestKillStreak && r.bestKillStreak >= r.killStreak
    ensures r.levelBestKillStreak >= m.levelBestKillStreak && r.levelBestKillStreak >= r.killStreak
    ensures r.currentScore >= m.currentScore + base
    ensures r.(currentScore := m.currentScore, killStreak := m.killStreak, totalShotsHit := m.totalShotsHit,
               bestKillStreak := m.bestKillStreak, levelBestKillStreak := m.levelBestKillStreak) == m
    ensures CountersValid(m) ==> CountersValid(r)
  {
    var streak := m.killStreak + 1;
    m.(totalShotsHit := m.totalShotsHit + 1,
       killStreak := streak,
       bestKillStreak := Max(m.bestKillStreak, streak),
       levelBestKillStreak := Max(m.levelBestKillStreak, streak),
       currentScore := m.currentScore + SkillAward(m, base))
  }

  /** `applySkillBonuses`: credits one kill and answers the points awarded. */
  method ApplySkillBonuses(g: Game, base: int) returns (award: int)
    modifies g`metrics
    ensures award == SkillAward(old(g.metrics), base)
    ensures g.metrics == Credited(old(g.metrics), base)
    ensures g.metrics.currentScore == old(g.metrics.currentScore) + award
  {
    award := SkillAward(g.metrics, base);
    g.metrics := Credited(g.metrics, base);
  }

  /** The side effects of destroying an enemy: the count drops (floored at 0), the kill is credited, the explosion is reported. */
  function AfterEnemyKill(s: Side): Side {
    s.(enemies := Max(0, s.enemies - 1),
       metrics := Credited(s.metrics, ENEMY_DESTROY_SCORE),
       events := s.events + [EnemyExplosion])
  }

  /**
   * The side effects of a boss hit: one life lost and the hit credited; a
   * surviving boss arms an immediate teleport, four revenge shots and a
   * ready weapon; a boss out of lives is dropped and counted off, and after
   * the hit event comes the defeat event.
   */
  function AfterBossHit(s: Side): Side
    requires s.boss.Some?
  {
    var bs := s.boss.value;
    var credited := s.(metrics := Credited(s.metrics, BOSS_HIT_SCORE));
    if bs.lives > 1 then
      credited.(boss := Some(bs.(lives := bs.lives - 1, pendingImmediateTeleport := true,
                                 revengeShotsRemaining := bs.revengeShotsRemaining + BOSS_REVENGE_BURST_SHOTS,
                                 revengeFireDelay := 0, fireCooldown := 0)),
                events := s.events + [BossHit])
    else
      credited.(boss := None, enemies := Max(0, s.enemies - 1), events := s.events + [BossHit, BossDefeated])
  }

  /** The enemy branch of `killEnemy`: the cell empties and the kill's side effects follow. */
  twostate predicate EnemyDestroyed(g: Game, row: int, col: int)
    reads g`board, g`enemies, g`player, g`boss, g`status, g`metrics, g`ammo, g`events, g.board
  {
    g.board == old(g.board) &&
    Replaced(g.board, row, col, EmptyCell) && SideOf(g) == AfterEnemyKill(old(SideOf(g)))
  }

  /** The boss branch of `killEnemy`: the cell empties only when the boss is defeated. */
  twostate predicate BossWasHit(g: Game, row: int, col: int)
    requires old(g.boss).Some?
    reads g`board, g`enemies, g`player, g`boss, g`status, g`metrics, g`ammo, g`events, g.board
  {
    g.board == old(g.board) &&
    (old(g.boss.value.lives) > 1 ==> unchanged(g.board)) &&
    (old(g.boss.value.lives) <= 1 ==> Replaced(g.board, row, col, EmptyCell)) &&
    SideOf(g) == AfterBossHit(old(SideOf(g)))
  }

  method DestroyEnemy(g: Game, row: int, col: int)
    requires g.Valid() && KindAt(g.board, row, col, Enemy)
    modifies g.board, g`metrics, g`events, g`enemies
    ensures g.Valid()
    ensures EnemyDestroyed(g, row, col)
  {
    ClearCell(g.board, row, col);
    g.enemies := Max(0, g.enemies - 1);
    var _ := ApplySkillBonuses(g, ENEMY_DESTROY_SCORE);
    g.events := g.events + [EnemyExplosion];
  }

  method HitBoss(g: Game, row: int, col: int)
    requires g.Valid() && KindAt(g.board, row, col, Boss) && g.boss.Some?
    modifies g.board, g`metrics, g`events, g`enemies, g`boss
    ensures g.Valid()
    ensures BossWasHit(g, row, col)
  {
    ghost var before := SideOf(g);
    var lives := Max(0, g.boss.value.lives - 1);
    var _ := ApplySkillBonuses(g, BOSS_HIT_SCORE);
    assert g.Valid();
    assert SideOf(g) == before.(metrics := Credited(before.metrics, BOSS_HIT_SCORE));
    if lives > 0 {
      WoundBoss(g);
    } else {
      DefeatBoss(g, row, col);
    }
  }

  /** A life left: the boss loses one, teleports at once, gets a revenge burst and a ready weapon. */
  method WoundBoss(g: Game)
    requires g.Valid() && g.boss.Some? && g.boss.value.lives > 1
    modifies g`events, g`boss
    ensures g.Valid()
    ensures var bs := old(g.boss.value);
            g.boss == Some(bs.(lives := bs.lives - 1, pendingImmediateTeleport := true,
                               revengeShotsRemaining := bs.revengeShotsRemaining + BOSS_REVENGE_BURST_SHOTS,
                               revengeFireDelay := 0, fireCooldown := 0))
    ensures g.events == old(g.events) + [BossHit]
  {
    var bs := g.boss.value;
    g.boss := Some(bs.(lives := bs.lives - 1, pendingImmediateTeleport := true,
                       revengeShotsRemaining := bs.revengeShotsRemaining + BOSS_REVENGE_BURST_SHOTS,
                       revengeFireDelay := 0, fireCooldown := 0));
    g.events := g.events + [BossHit];
  }

  /** The last life gone: the boss cell empties, the boss is dropped and counted off. */
  method DefeatBoss(g: Game, row: int, col: int)
    requires g.Valid() && KindAt(g.board, row, col, Boss) && g.boss.Some?
    modifies g.board, g`events, g`enemies, g`boss
    ensures g.Valid()
    ensures Replaced(g.board, row, col, EmptyCell)
    ensures g.boss.None? && g.enemies == Max(0, old(g.enemies) - 1)
    ensures g.events == old(g.events) + [BossHit, BossDefeated]
  {
    ClearCell(g.board, row, col);
    g.enemies := Max(0, g.enemies - 1);
    g.boss := None;
    g.events := g.events + [BossHit, BossDefeated];
  }

  /**
   * `killEnemy`: resolves a hit on the cell at (row, col). Only enemy and
   * boss cells react; a boss cell with no boss record is ignored.
   */
  method KillEnemy(g: Game, row: int, col: int)
    requires g.Valid()
    modifies g.board, g`metrics, g`events, g`enemies, g`boss
    ensures g.Valid()
    ensures !old(KindAt(g.board, row, col, Enemy)) && !(old(KindAt(g.board, row, col, Boss)) && old(g.boss).Some?) ==>
      unchanged(g.board) && g.metrics == old(g.metrics) && g.events == old(g.events) &&
      g.enemies == old(g.enemies) && g.boss == old(g.boss)
    ensures old(KindAt(g.board, row, col, Enemy)) ==> EnemyDestroyed(g, row, col)
    ensures old(KindAt(g.board, row, col, Boss)) && old(g.boss).Some? ==> BossWasHit(g, row, col)
  {
    var cell := GetCell(g.board, row, col);
    if cell.None? || (cell.value.kind != Enemy && cell.value.kind != Boss) {
      return;
    }
    if cell.value.kind == Boss {
      if g.boss.None? {
        return;
      }
      HitBoss(g, row, col);
      return;
    }
    DestroyEnemy(g, row, col);
  }

  // Evasion

  /** A player shot level with or at most two rows below the enemy, at most two columns aside. */
  predicate Threatens(t: Pos, row: int, col: int) {
    row <= t.row && t.row - row <= ENEMY_EVADE_RANGE && -ENEMY_EVADE_RANGE <= t.col - col <= ENEMY_EVADE_RANGE
  }

  /** The first threatening shot of the list, if any: every shot listed before it is out of range. */
  function FirstThreat(threats: seq<Pos>, row: int, col: int): (t: Option<Pos>)
    ensures t.Some? <==> exists i :: 0 <= i < |threats| && Threatens(threats[i], row, col)
    ensures t.Some? ==> Threatens(t.value, row, col)
    ensures t.Some? ==> exists i :: 0 <= i < |threats| && threats[i] == t.value &&
                                    forall j :: 0 <= j < i ==> !Threatens(threats[j], row, col)
  {
    if threats == [] then None
    else if Threatens(threats[0], row, col) then Some(threats[0])
    else
      var t := FirstThreat(threats[1..], row, col);
      assert forall i :: 1 <= i < |threats| ==> threats[i] == threats[1..][i - 1];
      if t.Some? then
        var i :| 0 <= i < |threats[1..]| && threats[1..][i] == t.value &&
                 forall j :: 0 <= j < i ==> !Threatens(threats[1..][j], row, col);
        assert threats[i + 1] == t.value;
        t
      else t
  }

  /** Dodge away from the shot: a shot at or right of the enemy sends it left first. */
  function DodgeFirst(threat: Pos, col: int): HDir {
    if threat.col - col >= 0 then Left else Right
  }

  /** The neighbour on side `d` is inside the side walls and empty. */
  predicate SideOpen(b: array2<Cell>, row: int, col: int, d: HDir)
    requires Shaped(b)
    reads b
  {
    (if d == Left then col > 1 else col < COLS - 1) && KindAt(b, row, col + Delta(d), Empty)
  }

  /**
   * Where an evading enemy goes: the preferred side, the other side, then
   * straight up. Whether some escape exists does not depend on the
   * preference, and evasion never moves an enemy down.
   */
  function EvadeTarget(b: array2<Cell>, row: int, col: int, first: HDir): (target: Option<Pos>)
    requires Shaped(b)
    reads b
    ensures target.Some? ==> KindAt(b, target.value.row, target.value.col, Empty)
    ensures target.Some? ==>
      (target.value.row == row && (target.value.col == col - 1 || target.value.col == col + 1)) ||
      (target.value.row == row - 1 && target.value.col == col)
    ensures target.Some? <==>
      SideOpen(b, row, col, Left) || SideOpen(b, row, col, Right) || (row > 1 && KindAt(b, row - 1, col, Empty))
    ensures SideOpen(b, row, col, first) ==> target == Some(Pos(row, col + Delta(first)))
    ensures !SideOpen(b, row, col, first) && SideOpen(b, row, col, Flip(first)) ==>
      target == Some(Pos(row, col + Delta(Flip(first))))
    ensures !SideOpen(b, row, col, Left) && !SideOpen(b, row, col, Right) && target.Some? ==>
      target.value == Pos(row - 1, col)
  {
    if SideOpen(b, row, col, first) then Some(Pos(row, col + Delta(first)))
    else if SideOpen(b, row, col, Flip(first)) then Some(Pos(row, col + Delta(Flip(first))))
    else if row > 1 && KindAt(b, row - 1, col, Empty) then Some(Pos(row - 1, col))
    else None
  }

  /** `collectPlayerThreats`: the player-bullet cells in row-major order, then the both-bullets cells in row-major order. */
  method CollectPlayerThreats(b: array2<Cell>) returns (threats: seq<Pos>)
    requires Shaped(b)
    ensures threats == CellsOfType(b, PlayerBullet) + CellsOfType(b, BothBullets)
    ensures forall i :: 0 <= i < |threats| ==>
      KindAt(b, threats[i].row, threats[i].col, PlayerBullet) || KindAt(b, threats[i].row, threats[i].col, BothBullets)
    ensures forall r, c :: KindAt(b, r, c, PlayerBullet) || KindAt(b, r, c, BothBullets) ==> Pos(r, c) in threats
  {
    var direct := CollectCellsOfType(b, PlayerBullet);
    var combined := CollectCellsOfType(b, BothBullets);
    threats := direct + combined;
  }

  /**
   * `attemptEnemyEvade`: the enemy is threatened exactly when some shot
   * threatens it; it then moves to the escape chosen by the first such shot,
   * if there is one, and otherwise stays put.
   */
  method AttemptEnemyEvade(b: array2<Cell>, row: int, col: int, threats: seq<Pos>) returns (moved: bool, threatened: bool)
    requires Shaped(b) && InBounds(row, col)
    modifies b
    ensures threatened <==> FirstThreat(threats, row, col).Some?
    ensures moved <==> threatened && old(EvadeTarget(b, row, col, Left)).Some?
    ensures moved ==>
      var t := old(EvadeTarget(b, row, col, DodgeFirst(FirstThreat(threats, row, col).value, col))).value;
      Moved(b, row, col, t.row, t.col)
    ensures !moved ==> unchanged(b)
  {
    moved, threatened := false, false;
    var i := 0;
    while i < |threats|
      invariant 0 <= i <= |threats|
      invariant unchanged(b)
      invariant !threatened ==> FirstThreat(threats, row, col) == FirstThreat(threats[i..], row, col)
      invariant threatened ==> FirstThreat(threats, row, col).Some? && EvadeTarget(b, row, col, Left).None?
    {
      var t := threats[i];
      assert threats[i..][0] == t && threats[i..][1..] == threats[i + 1..];
      if Threatens(t, row, col) {
        var target := EvadeTarget(b, row, col, DodgeFirst(t, col));
        if target.Some? {
          MoveCell(b, row, col, target.value.row, target.value.col);
          return true, true;
        }
        threatened := true;
      }
      i := i + 1;
    }
  }

  // Random walk

  /** What one enemy does with a die roll: stay, shoot into the cell below, or step. */
  datatype Wander = Stay | Shoot(below: Pos) | Step(target: Pos)

  /**
   * The random-walk decision for a die roll of 1..6: a 6 shoots when the
   * enemy is above row 16 and the cell below is empty; 3..5 try left, then
   * down (above row 14) or up (below row 2); 1..2 try right the same way.
   * Shots and steps only ever target empty cells, and no step goes below row 14.
   */
  function WanderPlan(b: array2<Cell>, row: int, col: int, roll: int): (plan: Wander)
    requires Shaped(b)
    reads b
    ensures plan.Shoot? ==> roll == 6 && row < ROWS - 2 && plan.below == Pos(row + 1, col) && KindAt(b, row + 1, col, Empty)
    ensures plan.Step? ==> roll != 6 && KindAt(b, plan.target.row, plan.target.col, Empty)
    ensures plan.Step? ==>
      (plan.target.row == row && (plan.target.col == col - 1 || plan.target.col == col + 1)) ||
      (plan.target.col == col && (plan.target.row == row - 1 || plan.target.row == row + 1))
    ensures plan.Step? && plan.target.row > row ==> plan.target.row <= ROWS - 4
    ensures plan.Step? && plan.target.col < col ==> roll >= 3
    ensures plan.Step? && plan.target.col > col ==> roll < 3
  {
    if roll == 6 then
      if row < ROWS - 2 && KindAt(b, row + 1, col, Empty) then Shoot(Pos(row + 1, col)) else Stay
    else if roll >= 3 then
      if col > 1 then
        if KindAt(b, row, col - 1, Empty) then Step(Pos(row, col - 1))
        else if row < ROWS - 4 then
          if KindAt(b, row + 1, col, Empty) then Step(Pos(row + 1, col)) else Stay
        else if row > 2 && KindAt(b, row - 1, col, Empty) then Step(Pos(row - 1, col))
        else Stay
      else Stay
    else if col < COLS - 1 then
      if KindAt(b, row, col + 1, Empty) then Step(Pos(row, col + 1))
      else if row < ROWS - 4 then
        if KindAt(b, row + 1, col, Empty) then Step(Pos(row + 1, col)) else Stay
      else if row > 2 && KindAt(b, row - 1, col, Empty) then Step(Pos(row - 1, col))
      else Stay
    else if row > 2 && KindAt(b, row - 1, col, Empty) then Step(Pos(row - 1, col))
    else Stay
  }

  /** The board after carrying out a wander plan for the enemy at (row, col). */
  twostate predicate Wandered(b: array2<Cell>, row: int, col: int, plan: Wander)
    reads b
  {
    match plan
    case Stay => unchanged(b)
    case Shoot(p) => Replaced(b, p.row, p.col, Cell(EnemyBullet, false, None))
    case Step(p) => Moved(b, row, col, p.row, p.col)
  }

  /** Rolls the die and carries out the wander plan for the enemy at (row, col). */
  method WanderStep(b: array2<Cell>, row: int, col: int, rng: Random)
    requires BorderIntact(b) && KindAt(b, row, col, Enemy)
    modifies b, rng
    ensures BorderIntact(b) && Confined(b, {Enemy, Empty})
    ensures Wandered(b, row, col, old(WanderPlan(b, row, col, 1 + Peek(rng.tape, 6))))
    ensures rng.tape == Rest(old(rng.tape))
  {
    var die := rng.Below(6);
    var plan := WanderPlan(b, row, col, 1 + die);
    match plan
    case Stay =>
    case Shoot(p) =>
      DrawEnemyBullet(b, p.row, p.col);
    case Step(p) =>
      MoveCell(b, row, col, p.row, p.col);
  }

  /**
   * One enemy's turn: a stale coordinate is skipped; with the evade cooldown
   * spent the enemy first tries to evade (a threat re-arms the cooldown, and
   * a successful dodge ends the turn); otherwise a die is rolled and the
   * wander plan for it is carried out.
   */
  method EnemyTurn(g: Game, row: int, col: int, threats: seq<Pos>, rng: Random)
    requires BorderIntact(g.board)
    modifies g.board, g`evadeCooldown, rng
    ensures BorderIntact(g.board)
    ensures Confined(g.board, {Enemy, Empty})
    ensures !old(KindAt(g.board, row, col, Enemy)) ==>
      unchanged(g.board) && g.evadeCooldown == old(g.evadeCooldown) && rng.tape == old(rng.tape)
    ensures old(KindAt(g.board, row, col, Enemy)) ==>
      var threat := if old(g.evadeCooldown) <= 0 then FirstThreat(threats, row, col) else None;
      var escape := old(EvadeTarget(g.board, row, col, Left)).Some?;
      g.evadeCooldown == (if threat.Some? then ENEMY_EVADE_COOLDOWN else old(g.evadeCooldown)) &&
      (threat.Some? && escape ==>
        var t := old(EvadeTarget(g.board, row, col, DodgeFirst(threat.value, col))).value;
        Moved(g.board, row, col, t.row, t.col) && rng.tape == old(rng.tape)) &&
      (!(threat.Some? && escape) ==>
        var roll := 1 + Peek(old(rng.tape), 6);
        Wandered(g.board, row, col, old(WanderPlan(g.board, row, col, roll))) && rng.tape == Rest(old(rng.tape)))
  {
    var cell := GetCell(g.board, row, col);
    if cell.None? || cell.value.kind != Enemy {
      return;
    }
    if g.evadeCooldown <= 0 {
      var moved, threatened := AttemptEnemyEvade(g.board, row, col, threats);
      if threatened {
        g.evadeCooldown := ENEMY_EVADE_COOLDOWN;
      }
      if moved {
        return;
      }
    }
    WanderStep(g.board, row, col, rng);
  }

  /**
   * `moveEnemies`: ticks the shared evade cooldown down, gathers the player's
   * shots when it is spent, and gives every enemy of a row-major snapshot its
   * turn. Only enemy and empty cells change, and the cooldown either ticked
   * down or was re-armed by a threatened enemy.
   */
  method MoveEnemies(g: Game, rng: Random)
    requires g.Valid()
    modifies g.board, g`evadeCooldown, rng
    ensures g.Valid()
    ensures Confined(g.board, {Enemy, Empty})
    ensures var ticked := if old(g.evadeCooldown) > 0 then old(g.evadeCooldown) - 1 else old(g.evadeCooldown);
      g.evadeCooldown == ticked || (ticked == 0 && g.evadeCooldown == ENEMY_EVADE_COOLDOWN)
  {
    if g.evadeCooldown > 0 {
      g.evadeCooldown := g.evadeCooldown - 1;
    }
    var threats := ThreatsToWatch(g.board, g.evadeCooldown);
    var coords := CollectCellsOfType(g.board, Enemy);
    EnemyTurns(g, coords, threats, rng);
  }

  /** The shots the enemies watch this tick: none while the evade cooldown runs, every player shot once it is spent. */
  method ThreatsToWatch(b: array2<Cell>, evadeCooldown: int) returns (threats: seq<Pos>)
    requires Shaped(b)
    ensures evadeCooldown > 0 ==> threats == []
    ensures evadeCooldown <= 0 ==> threats == CellsOfType(b, PlayerBullet) + CellsOfType(b, BothBullets)
  {
    threats := [];
    if evadeCooldown <= 0 {
      threats := CollectPlayerThreats(b);
    }
  }

  /** Every enemy of the snapshot `coords` takes its turn, in order. */
  method EnemyTurns(g: Game, coords: seq<Pos>, threats: seq<Pos>, rng: Random)
    requires g.Valid()
    modifies g.board, g`evadeCooldown, rng
    ensures g.Valid()
    ensures Confined(g.board, {Enemy, Empty})
    ensures g.evadeCooldown == old(g.evadeCooldown) || (old(g.evadeCooldown) == 0 && g.evadeCooldown == ENEMY_EVADE_COOLDOWN)
  {
    var i := 0;
    while i < |coords|
      invariant 0 <= i <= |coords|
      invariant BorderIntact(g.board)
      invariant Confined(g.board, {Enemy, Empty})
      invariant old(NoEnemyCells(g.board)) ==> unchanged(g.board)
      invariant g.evadeCooldown == old(g.evadeCooldown) || (old(g.evadeCooldown) == 0 && g.evadeCooldown == ENEMY_EVADE_COOLDOWN)
    {
      EnemyTurn(g, coords[i].row, coords[i].col, threats, rng);
      i := i + 1;
    }
  }
}
