/**
 * The player (engine/player.js): being hit, moving one column, firing, and
 * the queued-input entry points a tick uses.
 */
module Player {
  import opened Constants
  import opened Grid
  import opened Status
  import opened GameState
  import opened Enemy

  /** The side effects of being hit: a life and 200 points go, the player is marked dead and removed, the clip refills. */
  function AfterHit(s: Side): Side {
    s.(metrics := s.metrics.(lives := s.metrics.lives - 1, currentScore := s.metrics.currentScore - PLAYER_HIT_PENALTY),
       status := s.status.(playerDied := true),
       ammo := s.ammo.(remainingShots := MAX_CONCURRENT_SHOTS),
       player := None,
       events := s.events + [PlayerHit])
  }

  /** `hitPlayer` on a player cell: the cell empties and the hit's side effects follow. */
  twostate predicate PlayerWasHit(g: Game, row: int, col: int)
    reads g`board, g`enemies, g`player, g`boss, g`status, g`metrics, g`ammo, g`events, g.board
  {
    g.board == old(g.board) &&
    Replaced(g.board, row, col, EmptyCell) && SideOf(g) == AfterHit(old(SideOf(g)))
  }

  /** Nothing `hitPlayer` may touch has changed. */
  twostate predicate HitUntouched(g: Game)
    reads g`board, g`enemies, g`player, g`boss, g`status, g`metrics, g`ammo, g`events, g.board
  {
    g.board == old(g.board) && unchanged(g.board) && SideOf(g) == old(SideOf(g))
  }

  /** `hitPlayer`: only a cell holding the player reacts. */
  method HitPlayer(g: Game, row: int, col: int)
    requires g.Valid()
    modifies g.board, g`metrics, g`status, g`ammo, g`player, g`events
    ensures g.Valid()
    ensures old(KindAt(g.board, row, col, Player)) ==> PlayerWasHit(g, row, col)
    ensures !old(KindAt(g.board, row, col, Player)) ==> HitUntouched(g)
  {
    var cell := GetCell(g.board, row, col);
    if cell.None? || cell.value.kind != Player {
      return;
    }
    ghost var before := SideOf(g);
    ClearCell(g.board, row, col);
    SufferHit(g);
    assert SideOf(g) == AfterHit(before);
  }

  /** The side effects of a hit on the player, applied to the draft. */
  method SufferHit(g: Game)
    modifies g`metrics, g`status, g`ammo, g`player, g`events
    ensures SideOf(g) == AfterHit(old(SideOf(g)))
  {
    g.metrics := g.metrics.(lives := g.metrics.lives - 1, currentScore := g.metrics.currentScore - PLAYER_HIT_PENALTY);
    g.status := g.status.(playerDied := true);
    g.ammo := g.ammo.(remainingShots := MAX_CONCURRENT_SHOTS);
    g.player := None;
    g.events := g.events + [PlayerHit];
  }

  /**
   * Where `applyPlayerMove` takes the player: one column towards `direction`,
   * when there is a direction, the state is playable, there is a player and
   * that neighbour is empty; nowhere otherwise.
   */
  function MoveTarget(b: array2<Cell>, status: StatusFlags, player: Option<Pos>, direction: Option<HDir>): (target: Option<Pos>)
    requires Shaped(b)
    reads b
    ensures target.Some? <==>
      direction.Some? && IsPlayable(status) && player.Some? &&
      KindAt(b, player.value.row, player.value.col + Delta(direction.value), Empty)
    ensures target.Some? ==> target.value == Pos(player.value.row, player.value.col + Delta(direction.value))
  {
    if direction.None? || !IsPlayable(status) || player.None? then None
    else
      var p := player.value;
      if KindAt(b, p.row, p.col + Delta(direction.value), Empty) then Some(Pos(p.row, p.col + Delta(direction.value)))
      else None
  }

  /** The outcome of `applyPlayerMove`: a step of exactly one column into an empty neighbour, or nothing. */
  twostate predicate MoveOutcome(g: Game, direction: Option<HDir>, moved: bool)
    requires old(g.Valid())
    reads g`board, g`player, g`status, g.board
  {
    g.board == old(g.board) &&
    var p := old(g.player);
    var target := old(MoveTarget(g.board, g.status, g.player, direction));
    (moved <==> target.Some?) &&
    (moved ==> Moved(g.board, p.value.row, p.value.col, target.value.row, target.value.col) && g.player == target) &&
    (!moved ==> unchanged(g.board) && g.player == p)
  }

  /** `applyPlayerMove` (and `performPlayerMove`, which only forwards to it). */
  method ApplyPlayerMove(g: Game, direction: Option<HDir>) returns (moved: bool)
    requires g.Valid()
    modifies g.board, g`player
    ensures g.Valid()
    ensures MoveOutcome(g, direction, moved)
  {
    if direction.None? || !IsPlayable(g.status) || g.player.None? {
      return false;
    }
    var p := g.player.value;
    var target := GetCell(g.board, p.row, p.col + Delta(direction.value));
    if target.Some? && target.value.kind == Empty {
      MoveCell(g.board, p.row, p.col, p.row, p.col + Delta(direction.value));
      g.player := Some(p.(col := p.col + Delta(direction.value)));
      return true;
    }
    return false;
  }

  /** Everything a shot may touch is as it was. */
  twostate predicate FireUntouched(g: Game)
    reads g`board, g`ammo, g`events, g`metrics, g`enemies, g`boss, g.board
  {
    g.board == old(g.board) && unchanged(g.board) &&
    g.ammo == old(g.ammo) && g.events == old(g.events) && g.metrics == old(g.metrics) &&
    g.enemies == old(g.enemies) && g.boss == old(g.boss)
  }

  /** What a press of fire does, decided before it: nothing, a bullet (or merged cell) drawn at `at`, or a point-blank kill at `at`. */
  datatype PlayerShot = Ignored | Launch(at: Pos, drawn: Cell) | Blast(at: Pos)

  /**
   * The decision of `applyPlayerFire`. A shot needs a playable state, a
   * player and a round left. Into an empty cell above the player it draws a
   * player bullet; into an enemy bullet a blocked both-bullets cell; into
   * an enemy it kills point-blank. Anything else (the boss included)
   * ignores the shot.
   */
  function PlayerShotOf(b: array2<Cell>, status: StatusFlags, player: Option<Pos>, ammo: Ammo): (shot: PlayerShot)
    requires Shaped(b)
    reads b
    ensures !IsPlayable(status) || player.None? || ammo.remainingShots <= 0 ==> shot == Ignored
    ensures !shot.Ignored? ==> shot.at == Pos(player.value.row - 1, player.value.col)
    ensures shot.Launch? <==>
      IsPlayable(status) && player.Some? && ammo.remainingShots > 0 &&
      (KindAt(b, player.value.row - 1, player.value.col, Empty) || KindAt(b, player.value.row - 1, player.value.col, EnemyBullet))
    ensures shot.Launch? && KindAt(b, shot.at.row, shot.at.col, Empty) ==> shot.drawn == Cell(PlayerBullet, false, None)
    ensures shot.Launch? && KindAt(b, shot.at.row, shot.at.col, EnemyBullet) ==> shot.drawn == Cell(BothBullets, true, None)
    ensures shot.Blast? <==>
      IsPlayable(status) && player.Some? && ammo.remainingShots > 0 &&
      KindAt(b, player.value.row - 1, player.value.col, Enemy)
  {
    if !IsPlayable(status) || player.None? || ammo.remainingShots <= 0 then Ignored
    else
      var at := Pos(player.value.row - 1, player.value.col);
      var above := CellAt(b, at.row, at.col).kind;
      if above == Empty then Launch(at, Cell(PlayerBullet, false, None))
      else if above == EnemyBullet then Launch(at, Cell(BothBullets, true, None))
      else if above == Enemy then Blast(at)
      else Ignored
  }

  /**
   * The side effects of a shot: a launch spends one round and leaves
   * exactly the fired event; a point-blank kill spends nothing, leaves
   * exactly the explosion, counts the enemy off and credits the kill.
   */
  function AfterPlayerShot(s: Side, shot: PlayerShot): Side {
    match shot
    case Ignored => s
    case Launch(_, _) => s.(ammo := s.ammo.(remainingShots := Max(0, s.ammo.remainingShots - 1)), events := [PlayerFired])
    case Blast(_) => AfterEnemyKill(s.(events := []))
  }

  /** The cell a shot leaves above the player: the drawn bullet, or an empty cell after a kill. */
  function ShotCell(shot: PlayerShot): Cell
    requires !shot.Ignored?
  {
    if shot.Launch? then shot.drawn else EmptyCell
  }

  /** The outcome of `applyPlayerFire`: the decision of `PlayerShotOf` carried out on the board and the side fields. */
  twostate predicate FireOutcome(g: Game, fired: bool)
    requires old(g.Valid())
    reads g`board, g`player, g`status, g`ammo, g`events, g`metrics, g`enemies, g`boss, g.board
  {
    g.board == old(g.board) &&
    var shot := old(PlayerShotOf(g.board, g.status, g.player, g.ammo));
    (fired <==> !shot.Ignored?) &&
    SideOf(g) == AfterPlayerShot(old(SideOf(g)), shot) &&
    (shot.Ignored? ==> unchanged(g.board)) &&
    (!shot.Ignored? ==> Replaced(g.board, shot.at.row, shot.at.col, ShotCell(shot)))
  }

  /** A shot leaving the gun into the cell (r, c) above the player: a bullet or a merged cell, one round spent. */
  method LaunchShot(g: Game, r: int, c: int)
    requires g.Valid() && (KindAt(g.board, r, c, Empty) || KindAt(g.board, r, c, EnemyBullet))
    requires g.ammo.remainingShots > 0
    modifies g.board, g`ammo, g`events
    ensures g.Valid()
    ensures old(KindAt(g.board, r, c, Empty)) ==> Replaced(g.board, r, c, Cell(PlayerBullet, false, None))
    ensures old(KindAt(g.board, r, c, EnemyBullet)) ==> Replaced(g.board, r, c, Cell(BothBullets, true, None))
    ensures g.ammo == old(g.ammo).(remainingShots := Max(0, old(g.ammo.remainingShots) - 1))
    ensures g.events == [PlayerFired]
  {
    g.events := [];
    if g.board[r, c].kind == Empty {
      DrawPlayerBullet(g.board, r, c);
    } else {
      DrawBothBullets(g.board, r, c);
    }
    g.ammo := g.ammo.(remainingShots := Max(0, g.ammo.remainingShots - 1));
    g.events := g.events + [PlayerFired];
  }

  /** `applyPlayerFire` (and `performPlayerFire`, which only forwards to it). */
  method ApplyPlayerFire(g: Game) returns (fired: bool)
    requires g.Valid()
    modifies g.board, g`ammo, g`events, g`metrics, g`enemies, g`boss
    ensures g.Valid()
    ensures FireOutcome(g, fired)
  {
    if !IsPlayable(g.status) || g.player.None? {
      return false;
    }
    if g.ammo.remainingShots <= 0 {
      return false;
    }
    var p := g.player.value;
    // The player never stands on row 0, so the cell above always exists.
    var above := g.board[p.row - 1, p.col];
    if above.kind == Empty || above.kind == EnemyBullet {
      LaunchShot(g, p.row - 1, p.col);
      return true;
    }
    if above.kind == Enemy {
      PointBlank(g, p.row - 1, p.col);
      return true;
    }
    return false;
  }

  /** A shot into an enemy right above the player: the events are reset and the enemy is killed. */
  method PointBlank(g: Game, r: int, c: int)
    requires g.Valid() && KindAt(g.board, r, c, Enemy)
    modifies g.board, g`events, g`metrics, g`enemies, g`boss
    ensures g.Valid()
    ensures Replaced(g.board, r, c, EmptyCell) && g.events == [EnemyExplosion]
    ensures g.metrics == Credited(old(g.metrics), ENEMY_DESTROY_SCORE) && g.enemies == Max(0, old(g.enemies) - 1)
    ensures g.boss == old(g.boss)
  {
    g.events := [];
    KillEnemy(g, r, c);
  }

  /** `queuePlayerMove`: empties the move slot, then applies the move it held. */
  method QueuePlayerMove(g: Game)
    requires g.Valid()
    modifies g.board, g`player, g`queuedInput
    ensures g.Valid()
    ensures g.queuedInput == old(g.queuedInput).(move := None)
    ensures exists moved :: MoveOutcome(g, old(g.queuedInput.move), moved)
  {
    var direction := g.queuedInput.move;
    g.queuedInput := g.queuedInput.(move := None);
    var moved := ApplyPlayerMove(g, direction);
    assert MoveOutcome(g, direction, moved);
  }

  /** `queuePlayerFire`: empties the fire slot, then fires if it was set. */
  method QueuePlayerFire(g: Game)
    requires g.Valid()
    modifies g.board, g`ammo, g`events, g`metrics, g`enemies, g`boss, g`queuedInput
    ensures g.Valid()
    ensures g.queuedInput == old(g.queuedInput).(fire := false)
    ensures old(g.queuedInput.fire) ==> exists fired :: FireOutcome(g, fired)
    ensures !old(g.queuedInput.fire) ==> FireUntouched(g)
  {
    var shouldFire := g.queuedInput.fire;
    g.queuedInput := g.queuedInput.(fire := false);
    if !shouldFire {
      return;
    }
    var fired := ApplyPlayerFire(g);
    assert FireOutcome(g, fired);
  }
}
