/**
 * The older single-file engine (space-killer-react/src/game/engine.js). It
 * plays the same rules as the modular engine without the boss, the
 * diagonal bullets, the evade move and the skill scoring: a kill is a flat
 * 100 points and gives the round back, the level bonus counts only the
 * level and the lives, a new level always gets the level-one layout, and
 * the queued move and shot are carried out inside the tick.
 *
 * Its grid helpers, `hitPlayer`, `queuePlayerMove`, the random walk of the
 * enemies, the speed curve, the rise of the player, the start of the
 * level-clear animation and `triggerGameOver` behave exactly as the modular
 * ones do, and the model uses those.
 */
module Legacy {
  import opened Constants
  import opened Grid
  import opened Board
  import opened Status
  import opened GameState
  import opened Oracle
  import Player
  import Enemy
  import opened Projectiles
  import opened Progression

  /** The engine's state invariant: the game invariant, and never a boss. */
  ghost predicate LegacyValid(g: Game)
    reads g, g.board
  {
    g.Valid() && g.boss.None?
  }

  // Kills and the effects of a projectile.

  /** The side effects of `killEnemy`: one hostile fewer (never below 0), 100 points, the round back, the explosion reported. */
  function AfterKill(s: Side): Side {
    s.(enemies := Max(0, s.enemies - 1),
       metrics := s.metrics.(currentScore := s.metrics.currentScore + ENEMY_DESTROY_SCORE),
       ammo := s.ammo.(remainingShots := s.ammo.remainingShots + 1),
       events := s.events + [EnemyExplosion])
  }

  /** The fields besides the board after an effect on a cell that held `c`. */
  function LegacySide(e: Effect, s: Side, c: Cell): Side {
    match e
    case Refund => Refunded(s)
    case HitTarget => if c.kind == Player then Player.AfterHit(s) else s
    case KillTarget => if c.kind == Enemy then AfterKill(s) else s
    case _ => s
  }

  /** The effects this engine's tables produce. */
  predicate Plain(e: Effect) {
    e == NoEffect || e == Refund || e == HitTarget || e == KillTarget ||
    e == DrawPlayer || e == DrawEnemy || e == DrawBoth
  }

  /** A shot has been carried out: its cell changed as `NewCell` says, the other fields as `LegacySide` says. */
  twostate predicate LegacyApplied(g: Game, s: Shot)
    reads g`board, g`enemies, g`player, g`boss, g`status, g`metrics, g`ammo, g`events, g.board
  {
    g.board == old(g.board) && Shaped(g.board) &&
    var c := old(CellAt(g.board, s.at.row, s.at.col));
    Replaced(g.board, s.at.row, s.at.col, NewCell(s.effect, c, None)) &&
    SideOf(g) == LegacySide(s.effect, old(SideOf(g)), c)
  }

  /** A projectile's step: its cell at p became `origin`, then the shots s1 and s2 were resolved in order. */
  twostate predicate LegacySteps(g: Game, p: Pos, origin: Cell, s1: Shot, s2: Shot)
    reads g`board, g`enemies, g`player, g`boss, g`status, g`metrics, g`ammo, g`events, g.board
  {
    g.board == old(g.board) && Shaped(g.board) &&
    var c1 := old(CellAt(g.board, s1.at.row, s1.at.col));
    var c2 := old(CellAt(g.board, s2.at.row, s2.at.col));
    var side1 := LegacySide(s1.effect, old(SideOf(g)), c1);
    (forall r, c :: InBounds(r, c) ==>
      g.board[r, c] ==
        if r == p.row && c == p.col then origin
        else if r == s1.at.row && c == s1.at.col then NewCell(s1.effect, c1, None)
        else if r == s2.at.row && c == s2.at.col then NewCell(s2.effect, c2, None)
        else old(g.board[r, c])) &&
    SideOf(g) == LegacySide(s2.effect, side1, c2)
  }

  twostate predicate LegacyResolved(g: Game, p: Pos, plan: Plan)
    reads g`board, g`enemies, g`player, g`boss, g`status, g`metrics, g`ammo, g`events, g.board
  {
    LegacySteps(g, p, plan.origin, plan.first, plan.second)
  }

  /** `killEnemy`: only a cell holding an enemy reacts. */
  method KillEnemy(g: Game, row: int, col: int)
    requires LegacyValid(g)
    modifies g.board, g`enemies, g`metrics, g`ammo, g`events
    ensures LegacyValid(g)
    ensures LegacyApplied(g, Shot(Pos(row, col), KillTarget))
  {
    var cell := GetCell(g.board, row, col);
    if cell.None? || cell.value.kind != Enemy {
      return;
    }
    ClearCell(g.board, row, col);
    g.enemies := Max(0, g.enemies - 1);
    g.metrics := g.metrics.(currentScore := g.metrics.currentScore + ENEMY_DESTROY_SCORE);
    g.ammo := g.ammo.(remainingShots := g.ammo.remainingShots + 1);
    g.events := g.events + [EnemyExplosion];
  }

  /** Carries out one effect on the in-range cell t. */
  method ApplyEffect(g: Game, t: Pos, e: Effect)
    requires LegacyValid(g) && InBounds(t.row, t.col) && Legal(e, g.board[t.row, t.col].kind) && Plain(e)
    modifies g.board, g`enemies, g`player, g`status, g`metrics, g`ammo, g`events
    ensures LegacyValid(g)
    ensures LegacyApplied(g, Shot(t, e))
  {
    if e == HitTarget {
      Player.HitPlayer(g, t.row, t.col);
    } else if e == KillTarget {
      KillEnemy(g, t.row, t.col);
    } else if e == Refund {
      Recover(g, t, e);
    } else {
      Paint(g, t, e);
    }
  }

  /** A projectile leaves its cell at p and resolves one shot elsewhere. */
  method Fly(g: Game, p: Pos, s: Shot)
    requires LegacyValid(g) && InBounds(p.row, p.col) && InBounds(s.at.row, s.at.col) && s.at != p
    requires g.board[p.row, p.col].kind !in {Border, Player, Boss}
    requires Legal(s.effect, g.board[s.at.row, s.at.col].kind) && Plain(s.effect)
    modifies g.board, g`enemies, g`player, g`status, g`metrics, g`ammo, g`events
    ensures LegacyValid(g)
    ensures LegacySteps(g, p, EmptyCell, s, Projectiles.Idle(p))
  {
    Vacate(g, p);
    ApplyEffect(g, s.at, s.effect);
  }

  // The collision tables.

  /**
   * A player bullet (or the upper half of a merged one) rising from `row`
   * into `above`: it merges with an enemy bullet, kills an enemy, moves
   * into an empty cell, and otherwise (at the top row too) leaves play with
   * its round refunded.
   */
  function RiseTable(row: int, above: Cell): (e: Effect)
    ensures Legal(e, above.kind) && Plain(e)
    ensures row <= 1 ==> e == Refund
    ensures row > 1 && above.kind == EnemyBullet ==> e == DrawBoth
    ensures row > 1 && above.kind == Enemy ==> e == KillTarget
    ensures row > 1 && above.kind == Empty ==> e == DrawPlayer
    ensures row > 1 && above.kind !in {EnemyBullet, Enemy, Empty} ==> e == Refund
  {
    if row > 1 then
      if above.kind == EnemyBullet then DrawBoth
      else if above.kind == Enemy then KillTarget
      else if above.kind == Empty then DrawPlayer
      else Refund
    else Refund
  }

  /**
   * An enemy bullet (or the lower half of a merged one) falling from `row`
   * onto `below`: it merges with a player bullet, hits the player, moves
   * into an empty cell, and is otherwise spent; from row 16 it disappears.
   */
  function FallTable(row: int, below: Cell): (e: Effect)
    ensures Legal(e, below.kind) && Plain(e)
    ensures row >= ROWS - 2 ==> e == NoEffect
    ensures row < ROWS - 2 && below.kind == PlayerBullet ==> e == DrawBoth
    ensures row < ROWS - 2 && below.kind == Player ==> e == HitTarget
    ensures row < ROWS - 2 && below.kind == Empty ==> e == DrawEnemy
    ensures row < ROWS - 2 && below.kind !in {PlayerBullet, Player, Empty} ==> e == NoEffect
  {
    if row < ROWS - 2 then
      if below.kind == PlayerBullet then DrawBoth
      else if below.kind == Player then HitTarget
      else if below.kind == Empty then DrawEnemy
      else NoEffect
    else NoEffect
  }

  /**
   * Where neither engine can see a boss or a diagonal bullet, the collision
   * tables of the two engines agree; only what a kill is worth differs.
   */
  lemma TablesAgreeWithoutBoss(row: int, c: Cell, coin: HDir)
    requires c.kind !in {Boss, BossDiagonalBullet, BossCombinedBullet}
    ensures RiseTable(row, c) == Projectiles.RiseTable(row, c)
    ensures FallTable(row, c) == Projectiles.FallTable(row, c, coin)
    ensures FallTable(row, c) == Projectiles.BothFallTable(row, c)
    ensures forall s: Side :: c.kind != Enemy ==> LegacySide(RiseTable(row, c), s, c) == EffectSide(RiseTable(row, c), s, c)
    ensures forall s: Side :: LegacySide(FallTable(row, c), s, c) == EffectSide(FallTable(row, c), s, c)
  {
  }

  // The plans of one projectile's step.

  /** One player bullet: skipped when stale, unblocked when blocked, otherwise risen by one row. */
  function PlayerBulletPlan(b: array2<Cell>, p: Pos): (plan: Plan)
    requires Shaped(b)
    reads b
    ensures var c := CellAt(b, p.row, p.col);
            (c.kind != PlayerBullet ==> plan.origin == c && plan.first.effect == NoEffect) &&
            (c.kind == PlayerBullet && c.blocked ==> plan.origin == c.(blocked := false) && plan.first.effect == NoEffect) &&
            (c.kind == PlayerBullet && !c.blocked ==> plan.origin == EmptyCell && plan.first.effect != NoEffect)
    ensures plan.first.at == Pos(p.row - 1, p.col) && plan.second == Projectiles.Idle(p)
  {
    var c := CellAt(b, p.row, p.col);
    var up := Pos(p.row - 1, p.col);
    if c.kind != PlayerBullet then Plan(c, Projectiles.Idle(up), Projectiles.Idle(p), [])
    else if c.blocked then Plan(c.(blocked := false), Projectiles.Idle(up), Projectiles.Idle(p), [])
    else Plan(EmptyCell, Shot(up, RiseTable(p.row, CellAt(b, up.row, up.col))), Projectiles.Idle(p), [])
  }

  /** One enemy bullet: skipped when stale, unblocked when blocked, otherwise fallen by one row. */
  function EnemyBulletPlan(b: array2<Cell>, p: Pos): (plan: Plan)
    requires Shaped(b)
    reads b
    ensures var c := CellAt(b, p.row, p.col);
            (c.kind != EnemyBullet ==> plan.origin == c && plan.first.effect == NoEffect) &&
            (c.kind == EnemyBullet && c.blocked ==> plan.origin == c.(blocked := false) && plan.first.effect == NoEffect) &&
            (c.kind == EnemyBullet && !c.blocked ==> plan.origin == EmptyCell)
    ensures plan.first.at == Pos(p.row + 1, p.col) && plan.second == Projectiles.Idle(p)
  {
    var c := CellAt(b, p.row, p.col);
    var down := Pos(p.row + 1, p.col);
    if c.kind != EnemyBullet then Plan(c, Projectiles.Idle(down), Projectiles.Idle(p), [])
    else if c.blocked then Plan(c.(blocked := false), Projectiles.Idle(down), Projectiles.Idle(p), [])
    else Plan(EmptyCell, Shot(down, FallTable(p.row, CellAt(b, down.row, down.col))), Projectiles.Idle(p), [])
  }

  /** One merged bullet: its upper half rises as a player bullet, then its lower half falls as an enemy bullet. */
  function BothPlan(b: array2<Cell>, p: Pos): (plan: Plan)
    requires Shaped(b)
    reads b
    ensures var c := CellAt(b, p.row, p.col);
            (c.kind != BothBullets ==> plan.origin == c && plan.first.effect == NoEffect && plan.second.effect == NoEffect) &&
            (c.kind == BothBullets && c.blocked ==>
               plan.origin == c.(blocked := false) && plan.first.effect == NoEffect && plan.second.effect == NoEffect) &&
            (c.kind == BothBullets && !c.blocked ==> plan.origin == EmptyCell && plan.first.effect != NoEffect)
    ensures plan.first.at == Pos(p.row - 1, p.col) && plan.second.at == Pos(p.row + 1, p.col)
  {
    var c := CellAt(b, p.row, p.col);
    var up := Pos(p.row - 1, p.col);
    var down := Pos(p.row + 1, p.col);
    if c.kind != BothBullets then Plan(c, Projectiles.Idle(up), Projectiles.Idle(down), [])
    else if c.blocked then Plan(c.(blocked := false), Projectiles.Idle(up), Projectiles.Idle(down), [])
    else Plan(EmptyCell, Shot(up, RiseTable(p.row, CellAt(b, up.row, up.col))),
              Shot(down, FallTable(p.row, CellAt(b, down.row, down.col))), [])
  }

  // The projectile steps.

  /** One iteration of `movePlayerBullets`. */
  method MovePlayerBullet(g: Game, p: Pos)
    requires LegacyValid(g) && InBounds(p.row, p.col)
    modifies g.board, g`enemies, g`player, g`status, g`metrics, g`ammo, g`events
    ensures LegacyValid(g)
    ensures LegacyResolved(g, p, old(PlayerBulletPlan(g.board, p)))
  {
    var cell := GetCell(g.board, p.row, p.col);
    if cell.None? || cell.value.kind != PlayerBullet {
      return;
    }
    if cell.value.blocked {
      Unblock(g, p);
      return;
    }
    InsideRing(g.board, p.row, p.col);
    var above := CellAt(g.board, p.row - 1, p.col);
    Fly(g, p, Shot(Pos(p.row - 1, p.col), RiseTable(p.row, above)));
  }

  /** One iteration of `moveEnemyBullets`. */
  method MoveEnemyBullet(g: Game, p: Pos)
    requires LegacyValid(g) && InBounds(p.row, p.col)
    modifies g.board, g`enemies, g`player, g`status, g`metrics, g`ammo, g`events
    ensures LegacyValid(g)
    ensures LegacyResolved(g, p, old(EnemyBulletPlan(g.board, p)))
  {
    var cell := GetCell(g.board, p.row, p.col);
    if cell.None? || cell.value.kind != EnemyBullet {
      return;
    }
    if cell.value.blocked {
      Unblock(g, p);
      return;
    }
    InsideRing(g.board, p.row, p.col);
    var below := CellAt(g.board, p.row + 1, p.col);
    Fly(g, p, Shot(Pos(p.row + 1, p.col), FallTable(p.row, below)));
  }

  /** One iteration of `moveBothBullets`. */
  method MoveBothBullet(g: Game, p: Pos)
    requires LegacyValid(g) && InBounds(p.row, p.col)
    modifies g.board, g`enemies, g`player, g`status, g`metrics, g`ammo, g`events
    ensures LegacyValid(g)
    ensures LegacyResolved(g, p, old(BothPlan(g.board, p)))
  {
    var cell := GetCell(g.board, p.row, p.col);
    if cell.None? || cell.value.kind != BothBullets {
      return;
    }
    if cell.value.blocked {
      Unblock(g, p);
      return;
    }
    LaunchBoth(g, p);
  }

  /** A merged bullet that is not blocked: the upper half rises, then the lower half falls. */
  method LaunchBoth(g: Game, p: Pos)
    requires LegacyValid(g) && InBounds(p.row, p.col)
    requires g.board[p.row, p.col].kind == BothBullets && !g.board[p.row, p.col].blocked
    modifies g.board, g`enemies, g`player, g`status, g`metrics, g`ammo, g`events
    ensures LegacyValid(g)
    ensures LegacyResolved(g, p, old(BothPlan(g.board, p)))
  {
    InsideRing(g.board, p.row, p.col);
    var above := CellAt(g.board, p.row - 1, p.col);
    var below := CellAt(g.board, p.row + 1, p.col);
    Fly(g, p, Shot(Pos(p.row - 1, p.col), RiseTable(p.row, above)));
    ApplyEffect(g, Pos(p.row + 1, p.col), FallTable(p.row, below));
  }

  /** `moveEnemyBullets`: every enemy bullet of a row-major snapshot takes its step. */
  method MoveEnemyBullets(g: Game)
    requires LegacyValid(g)
    modifies g.board, g`enemies, g`player, g`status, g`metrics, g`ammo, g`events
    ensures LegacyValid(g)
  {
    var coords := CollectCellsOfType(g.board, EnemyBullet);
    for i := 0 to |coords|
      invariant LegacyValid(g)
      invariant forall j :: 0 <= j < |coords| ==> InBounds(coords[j].row, coords[j].col)
    {
      MoveEnemyBullet(g, coords[i]);
    }
  }

  /** `movePlayerBullets`. */
  method MovePlayerBullets(g: Game)
    requires LegacyValid(g)
    modifies g.board, g`enemies, g`player, g`status, g`metrics, g`ammo, g`events
    ensures LegacyValid(g)
  {
    var coords := CollectCellsOfType(g.board, PlayerBullet);
    for i := 0 to |coords|
      invariant LegacyValid(g)
      invariant forall j :: 0 <= j < |coords| ==> InBounds(coords[j].row, coords[j].col)
    {
      MovePlayerBullet(g, coords[i]);
    }
  }

  /** `moveBothBullets`. */
  method MoveBothBullets(g: Game)
    requires LegacyValid(g)
    modifies g.board, g`enemies, g`player, g`status, g`metrics, g`ammo, g`events
    ensures LegacyValid(g)
  {
    var coords := CollectCellsOfType(g.board, BothBullets);
    for i := 0 to |coords|
      invariant LegacyValid(g)
      invariant forall j :: 0 <= j < |coords| ==> InBounds(coords[j].row, coords[j].col)
    {
      MoveBothBullet(g, coords[i]);
    }
  }

  // The queued shot.

  /** What a shot does to the cell above the player. */
  function FireTable(above: Cell): (e: Effect)
    ensures Legal(e, above.kind) && Plain(e)
    ensures e == DrawPlayer <==> above.kind == Empty
    ensures e == DrawBoth <==> above.kind == EnemyBullet
    ensures e == KillTarget <==> above.kind == Enemy
    ensures e == NoEffect <==> above.kind !in {Empty, EnemyBullet, Enemy}
  {
    if above.kind == Empty then DrawPlayer
    else if above.kind == EnemyBullet then DrawBoth
    else if above.kind == Enemy then KillTarget
    else NoEffect
  }

  /** A drawn shot spends a round (never below 0) and is reported. */
  function Spent(s: Side): Side {
    s.(ammo := s.ammo.(remainingShots := Max(0, s.ammo.remainingShots - 1)), events := s.events + [PlayerFired])
  }

  /** The fields besides the board after the shot's effect on the cell above. */
  function FireSide(e: Effect, s: Side, c: Cell): Side {
    if e == DrawPlayer || e == DrawBoth then Spent(s) else LegacySide(e, s, c)
  }

  /** The queued shot may be taken: a playable game, a player, the fire flag and a round left. */
  predicate CanFire(g: Game)
    reads g`status, g`player, g`queuedInput, g`ammo
  {
    IsPlayable(g.status) && g.player.Some? && g.queuedInput.fire && g.ammo.remainingShots > 0
  }

  /**
   * `queuePlayerFire`: when the shot may be taken, the cell above the
   * player reacts as `FireTable` says; the fire flag is always cleared.
   */
  method QueuePlayerFire(g: Game)
    requires LegacyValid(g)
    modifies g.board, g`enemies, g`player, g`status, g`metrics, g`ammo, g`events, g`queuedInput
    ensures LegacyValid(g)
    ensures g.queuedInput == old(g.queuedInput).(fire := false)
    ensures !old(CanFire(g)) ==> g.board == old(g.board) && unchanged(g.board) && SideOf(g) == old(SideOf(g))
    ensures old(CanFire(g)) ==>
              var up := Pos(old(g.player).value.row - 1, old(g.player).value.col);
              var c := old(g.board[up.row, up.col]);
              g.board == old(g.board) && Replaced(g.board, up.row, up.col, NewCell(FireTable(c), c, None)) &&
              SideOf(g) == FireSide(FireTable(c), old(SideOf(g)), c)
  {
    if !CanFire(g) {
      g.queuedInput := g.queuedInput.(fire := false);
      return;
    }
    var p := g.player.value;
    var up := Pos(p.row - 1, p.col);
    Shoot(g, up, FireTable(g.board[up.row, up.col]));
    g.queuedInput := g.queuedInput.(fire := false);
  }

  /** The shot's effect on the cell above the player. */
  method Shoot(g: Game, up: Pos, e: Effect)
    requires LegacyValid(g) && InBounds(up.row, up.col) && e == FireTable(g.board[up.row, up.col])
    modifies g.board, g`enemies, g`player, g`status, g`metrics, g`ammo, g`events
    ensures LegacyValid(g)
    ensures var c := old(g.board[up.row, up.col]);
            g.board == old(g.board) && Replaced(g.board, up.row, up.col, NewCell(e, c, None)) &&
            SideOf(g) == FireSide(e, old(SideOf(g)), c)
  {
    if e == KillTarget || e == NoEffect {
      ApplyEffect(g, up, e);
      return;
    }
    Paint(g, up, e);
    g.ammo := g.ammo.(remainingShots := Max(0, g.ammo.remainingShots - 1));
    g.events := g.events + [PlayerFired];
  }

  // The enemies.

  /** One enemy's turn in `moveEnemies`: a stale coordinate is skipped, otherwise a die is rolled and the walk carried out. */
  method EnemyTurn(b: array2<Cell>, row: int, col: int, rng: Random)
    requires BorderIntact(b)
    modifies b, rng
    ensures BorderIntact(b) && Confined(b, {Enemy, Empty})
    ensures !old(KindAt(b, row, col, Enemy)) ==> unchanged(b) && rng.tape == old(rng.tape)
    ensures old(KindAt(b, row, col, Enemy)) ==>
              Enemy.Wandered(b, row, col, old(Enemy.WanderPlan(b, row, col, 1 + Peek(rng.tape, 6)))) &&
              rng.tape == Rest(old(rng.tape))
  {
    var cell := GetCell(b, row, col);
    if cell.None? || cell.value.kind != Enemy {
      return;
    }
    Enemy.WanderStep(b, row, col, rng);
  }

  /** `moveEnemies`: every enemy of a row-major snapshot takes a random step; only enemy and empty cells change. */
  method MoveEnemies(g: Game, rng: Random)
    requires LegacyValid(g)
    modifies g.board, rng
    ensures LegacyValid(g)
    ensures Confined(g.board, {Enemy, Empty})
  {
    var coords := CollectCellsOfType(g.board, Enemy);
    for i := 0 to |coords|
      invariant BorderIntact(g.board)
      invariant Confined(g.board, {Enemy, Empty})
    {
      EnemyTurn(g.board, coords[i].row, coords[i].col, rng);
    }
  }

  // Progression.

  /** `calculateLevelBonus`: 250 points per level and 125 per life left, a negative life count counting as none. */
  function LevelBonusPoints(level: int, lives: int): (bonus: int)
    ensures lives <= 0 ==> bonus == level * LEVEL_BONUS_PER_LEVEL
    ensures lives >= 0 ==> bonus == level * LEVEL_BONUS_PER_LEVEL + lives * LEVEL_BONUS_PER_LIFE
  {
    level * LEVEL_BONUS_PER_LEVEL + Max(0, lives) * LEVEL_BONUS_PER_LIFE
  }

  /**
   * The fields `applyLevelLayout` leaves: thirteen enemies and the player
   * at its start, the died and cleared flags down, a full magazine (the
   * reload counter is left alone), no queued input, the animation idle;
   * the counters, the events and the leaderboard are kept.
   */
  function LaidOut(f: Fields): Fields {
    f.(enemies := 13, player := Some(Pos(PLAYER_START_ROW, PLAYER_START_COL)),
       status := f.status.(playerDied := false, levelCleared := false),
       ammo := f.ammo.(remainingShots := MAX_CONCURRENT_SHOTS),
       queuedInput := NoInput, transition := IdleTransition)
  }

  /** `applyLevelLayout`: the level-one layout whatever the level, and the fields `LaidOut` describes. */
  method ApplyLevelLayout(g: Game)
    requires LegacyValid(g)
    modifies g`board, g`enemies, g`player, g`status, g`ammo, g`queuedInput, g`transition
    ensures LegacyValid(g)
    ensures fresh(g.board) && IsLayout(g.board, 1)
    ensures FieldsOf(g) == LaidOut(old(FieldsOf(g)))
  {
    var board, enemies, player, boss := BuildLevelLayout(1);
    g.board, g.enemies, g.player := board, enemies, Some(player);
    g.status := g.status.(playerDied := false, levelCleared := false);
    g.ammo := g.ammo.(remainingShots := MAX_CONCURRENT_SHOTS);
    g.queuedInput := NoInput;
    g.transition := IdleTransition;
  }

  /** The first half of `advanceToNextLevel`: the optional level-and-lives bonus, the faster pace, no queued input. */
  function Credited(f: Fields, awardBonus: bool): Fields {
    f.(metrics := f.metrics.(currentScore := f.metrics.currentScore +
                               (if awardBonus then LevelBonusPoints(f.metrics.level, f.metrics.lives) else 0),
                             waitTime := NextWaitTime(f.metrics.waitTime)),
       events := f.events + (if awardBonus then [LevelBonus] else []),
       queuedInput := NoInput)
  }

  /** Before the last level: the level counter up, the layout rebuilt, reported as a level start. */
  function NextLevel(f: Fields): Fields {
    var laid := LaidOut(f.(metrics := f.metrics.(level := f.metrics.level + 1)));
    laid.(events := laid.events + [LevelStart])
  }

  /** `advanceToNextLevel` on the fields: the level credited, then the campaign over or the next level laid out. */
  function Advanced(f: Fields, awardBonus: bool): (r: Fields)
    ensures r.events == f.events + AdvanceEvents(awardBonus, f.metrics.level)
    ensures r.metrics.currentScore ==
              f.metrics.currentScore + (if awardBonus then LevelBonusPoints(f.metrics.level, f.metrics.lives) else 0)
    ensures r.metrics.waitTime == NextWaitTime(f.metrics.waitTime)
    ensures r.metrics.level == (if f.metrics.level >= LAST_LEVEL then f.metrics.level else f.metrics.level + 1)
    ensures r.queuedInput == NoInput && r.transition == IdleTransition
    ensures f.metrics.level >= LAST_LEVEL ==> r.status.gameOver && r.player == f.player && r.enemies == f.enemies
    ensures f.metrics.level < LAST_LEVEL ==> r.status.gameOver == f.status.gameOver && r.enemies == 13
    ensures r.boss == f.boss && r.highScores == f.highScores && r.lastScoreId == f.lastScoreId
  {
    var credited := Credited(f, awardBonus);
    if f.metrics.level >= LAST_LEVEL then CampaignOver(credited) else NextLevel(credited)
  }

  /**
   * `advanceToNextLevel`: optionally awards the level bonus, speeds the game
   * up and clears the queued input; after the last level the campaign is
   * over; otherwise the level counter goes up and the layout is rebuilt.
   */
  method AdvanceToNextLevel(g: Game, awardBonus: bool)
    requires LegacyValid(g)
    modifies g`board, g`enemies, g`player, g`metrics, g`status, g`ammo, g`queuedInput, g`transition, g`events
    ensures LegacyValid(g)
    ensures FieldsOf(g) == Advanced(old(FieldsOf(g)), awardBonus)
    ensures LevelBoard(g, 1)
  {
    var completed := g.metrics.level;
    Credit(g, awardBonus);
    if completed >= LAST_LEVEL {
      CompleteCampaign(g);
      return;
    }
    g.metrics := g.metrics.(level := completed + 1);
    ApplyLevelLayout(g);
    g.events := g.events + [LevelStart];
  }

  /** The first half of `advanceToNextLevel`. */
  method Credit(g: Game, awardBonus: bool)
    modifies g`metrics, g`events, g`queuedInput
    ensures FieldsOf(g) == Credited(old(FieldsOf(g)), awardBonus)
  {
    if awardBonus {
      g.metrics := g.metrics.(currentScore := g.metrics.currentScore + LevelBonusPoints(g.metrics.level, g.metrics.lives));
      g.events := g.events + [LevelBonus];
    }
    g.metrics := g.metrics.(waitTime := NextWaitTime(g.metrics.waitTime));
    g.queuedInput := NoInput;
  }

  /** One animation step on the fields: as in the modular engine, with this engine's advance. */
  function Animated(f: Fields): (r: Fields)
    ensures f.transition.mode == Idle ==> r == f
    ensures f.transition.mode != Idle ==> TransitionRank(r.transition, r.player) < TransitionRank(f.transition, f.player)
    ensures r.boss == f.boss && r.highScores == f.highScores && r.lastScoreId == f.lastScoreId
  {
    match f.transition.mode
    case Idle => f
    case Rise => Risen(f)
    case Fill =>
      if f.transition.progress < ROWS - 1 then f.(transition := f.transition.(progress := f.transition.progress + 1))
      else Advanced(f, true)
  }

  /**
   * `runLevelClearTransition`: the rise, then one filler row per step up to
   * row 16, then the level is advanced with its bonus and the level-one
   * layout. Each step lowers the rank of the animation.
   */
  method RunLevelClearTransition(g: Game)
    requires LegacyValid(g)
    modifies g.board, g`board, g`enemies, g`player, g`metrics, g`status, g`ammo, g`queuedInput, g`transition, g`events
    ensures LegacyValid(g)
    ensures FieldsOf(g) == Animated(old(FieldsOf(g)))
    ensures AnimatedBoard(g, 1)
  {
    match g.transition.mode
    case Idle =>
    case Rise =>
      RisePlayer(g);
    case Fill =>
      var nextRow := g.transition.progress;
      if nextRow < ROWS - 1 {
        FillRowWithFiller(g.board, nextRow);
        g.transition := g.transition.(progress := nextRow + 1);
        return;
      }
      AdvanceToNextLevel(g, true);
  }

  /** `restartCurrentLevel` on the fields: laid out again, reported as a respawn and a restart. */
  function Restarted(f: Fields): Fields {
    var laid := LaidOut(f);
    laid.(events := laid.events + [PlayerRespawn, LevelRestart])
  }

  /** `restartCurrentLevel`: a fresh level-one layout, reported as a respawn and a restart. */
  method RestartCurrentLevel(g: Game)
    requires LegacyValid(g)
    modifies g`board, g`enemies, g`player, g`status, g`ammo, g`queuedInput, g`transition, g`events
    ensures LegacyValid(g)
    ensures fresh(g.board) && IsLayout(g.board, 1)
    ensures FieldsOf(g) == Restarted(old(FieldsOf(g)))
  {
    ApplyLevelLayout(g);
    g.events := g.events + [PlayerRespawn, LevelRestart];
  }

  /** `checkGameMilestones` on the fields: the decision of `MilestoneOf` with this engine's restart. */
  function AfterMilestone(f: Fields): Fields {
    match MilestoneOf(f.status, f.metrics.lives, f.enemies)
    case NoMilestone => f
    case Restart => Restarted(f)
    case Over => GameEnded(f)
    case Cleared => ClearedLevel(f)
  }

  /** `checkGameMilestones`: carries out the decision of `MilestoneOf`; only a restart lays out a new board. */
  method CheckGameMilestones(g: Game)
    requires LegacyValid(g)
    modifies g`board, g`enemies, g`player, g`metrics, g`status, g`ammo, g`queuedInput, g`transition, g`events
    ensures LegacyValid(g)
    ensures FieldsOf(g) == AfterMilestone(old(FieldsOf(g)))
    ensures old(MilestoneOf(g.status, g.metrics.lives, g.enemies)) == Restart ==> fresh(g.board) && IsLayout(g.board, 1)
    ensures old(MilestoneOf(g.status, g.metrics.lives, g.enemies)) != Restart ==>
              g.board == old(g.board) && unchanged(g.board)
  {
    if g.status.gameOver {
      return;
    }
    if g.status.playerDied {
      if g.metrics.lives > 0 {
        RestartCurrentLevel(g);
      } else {
        TriggerGameOver(g);
      }
      return;
    }
    if !g.status.levelCleared && g.enemies <= 0 {
      ClearLevel(g);
      return;
    }
    if g.metrics.lives <= 0 {
      TriggerGameOver(g);
    }
  }

  // The entry points.

  /**
   * `advanceGame`: during the level-clear animation a tick only clears the
   * events and runs one animation step; a state that is not playable is
   * returned as it is; otherwise the queued move, the queued shot, enemy
   * bullets, player bullets, merged bullets, the enemies and the milestone
   * check run in that order, and the queued input is cleared.
   */
  method AdvanceGame(s: Game, rng: Random) returns (t: Game)
    requires LegacyValid(s)
    modifies rng
    ensures LegacyValid(t)
    ensures s.transition.mode != Idle ==>
              fresh(t) && FieldsOf(t) == Animated(FieldsOf(s).(events := [])) &&
              AnimatedFrom(t.board, s, 1) && rng.tape == old(rng.tape)
    ensures s.transition.mode != Idle ==> TransitionRank(t.transition, t.player) < TransitionRank(s.transition, s.player)
    ensures s.transition.mode == Idle && !IsPlayable(s.status) ==> t == s && rng.tape == old(rng.tape)
    ensures s.transition.mode == Idle && IsPlayable(s.status) ==> fresh(t) && t.queuedInput == NoInput
  {
    if s.transition.mode != Idle {
      t := Produce(s);
      AnimationTick(t);
      return;
    }
    if !IsPlayable(s.status) {
      return s;
    }
    t := Produce(s);
    PlayTick(t, rng);
  }

  /** A tick during the level-clear animation, on the draft: the events are cleared and the animation steps. */
  method AnimationTick(t: Game)
    requires LegacyValid(t) && t.transition.mode != Idle
    modifies t.board, t`board, t`enemies, t`player, t`metrics, t`status, t`ammo, t`queuedInput, t`transition, t`events
    ensures LegacyValid(t)
    ensures FieldsOf(t) == Animated(old(FieldsOf(t)).(events := []))
    ensures AnimatedBoard(t, 1)
  {
    BeginDraft(t, false);
    RunLevelClearTransition(t);
  }

  /** The body of a playable tick, on the draft: the events are cleared, then the steps run. */
  method PlayTick(t: Game, rng: Random)
    requires LegacyValid(t)
    modifies t.board, t`board, t`enemies, t`player, t`metrics, t`status, t`ammo, t`queuedInput,
             t`transition, t`events, rng
    ensures LegacyValid(t)
    ensures t.queuedInput == NoInput
  {
    BeginDraft(t, false);
    PlayerSteps(t);
    BulletSteps(t);
    MoveEnemies(t, rng);
    CheckGameMilestones(t);
    t.queuedInput := NoInput;
  }

  /** The queued move, then the queued shot. */
  method PlayerSteps(t: Game)
    requires LegacyValid(t)
    modifies t.board, t`enemies, t`player, t`status, t`metrics, t`ammo, t`events, t`queuedInput
    ensures LegacyValid(t)
  {
    Player.QueuePlayerMove(t);
    QueuePlayerFire(t);
  }

  /** Enemy bullets, player bullets, merged bullets. */
  method BulletSteps(t: Game)
    requires LegacyValid(t)
    modifies t.board, t`enemies, t`player, t`status, t`metrics, t`ammo, t`events
    ensures LegacyValid(t)
  {
    MoveEnemyBullets(t);
    MovePlayerBullets(t);
    MoveBothBullets(t);
  }

  /** `prepareNextLevel`: the cleared flag goes down and the level is advanced with its bonus. */
  method PrepareNextLevel(s: Game) returns (t: Game)
    requires LegacyValid(s)
    ensures fresh(t) && LegacyValid(t)
    ensures FieldsOf(t) == Advanced(FieldsOf(s).(events := [], status := s.status.(levelCleared := false)), true)
    ensures s.metrics.level >= LAST_LEVEL ==> SameCells(t.board, s.board)
    ensures s.metrics.level < LAST_LEVEL ==> IsLayout(t.board, 1)
    ensures t.events == AdvanceEvents(true, s.metrics.level)
    ensures t.metrics.currentScore == s.metrics.currentScore + LevelBonusPoints(s.metrics.level, s.metrics.lives)
  {
    t := Produce(s);
    BeginDraft(t, true);
    AdvanceToNextLevel(t, true);
  }

  /** `respawnPlayer`: a fresh layout; the only event is the respawn. */
  method RespawnPlayer(s: Game) returns (t: Game)
    requires LegacyValid(s)
    ensures fresh(t) && LegacyValid(t)
    ensures IsLayout(t.board, 1)
    ensures FieldsOf(t) == LaidOut(FieldsOf(s)).(events := [PlayerRespawn])
  {
    t := Produce(s);
    // the layout leaves the events alone, so the respawn event can be put in place first
    t.events := [PlayerRespawn];
    assert FieldsOf(t) == FieldsOf(s).(events := [PlayerRespawn]);
    ApplyLevelLayout(t);
  }
}
