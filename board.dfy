/**
 * Level layouts (board.js): the bordered base board, the enemy row or the
 * level-10 boss, the player's start cell, and the board copy used when a
 * new state is produced.
 */
module Board {
  import opened Constants
  import opened Grid

  /**
   * The boss record. Fields the layout does not set (teleport cooldown,
   * vertical direction, revenge counters) start at their "absent" reading:
   * 0, no direction (read as down), false.
   */
  datatype BossState = BossState(
    row: int,
    col: int,
    lives: int,
    fireCooldown: int,
    moveCooldown: int,
    teleportCooldown: int,
    horizontalDirection: HDir,
    verticalDirection: Option<VDir>,
    diagonalDirection: HDir,
    revengeShotsRemaining: int,
    revengeFireDelay: int,
    pendingImmediateTeleport: bool)

  const InitialBoss: BossState :=
    BossState(ENEMY_ROW, BOSS_START_COL, BOSS_INITIAL_LIVES, 1, 1, 0, Right, None, Right, 0, 0, false)

  /** The cell at (r, c) of a freshly built layout for `level`. */
  function LayoutCell(level: int, r: int, c: int): Cell {
    if OnBorder(r, c) then BorderCell
    else if r == PLAYER_START_ROW && c == PLAYER_START_COL then Cell(Player, false, None)
    else if level == BOSS_LEVEL && r == ENEMY_ROW && c == BOSS_START_COL then Cell(Boss, true, None)
    else if level != BOSS_LEVEL && r == ENEMY_ROW && ENEMY_COL_START <= c <= ENEMY_COL_END then Cell(Enemy, false, None)
    else EmptyCell
  }

  ghost predicate IsLayout(b: array2<Cell>, level: int)
    reads b
  {
    Shaped(b) && forall r, c :: InBounds(r, c) ==> b[r, c] == LayoutCell(level, r, c)
  }

  /** `createBaseBoard`: border on the outer ring, empty everywhere inside. */
  method CreateBaseBoard() returns (b: array2<Cell>)
    ensures fresh(b) && Shaped(b)
    ensures forall r, c :: InBounds(r, c) ==> b[r, c] == (if OnBorder(r, c) then BorderCell else EmptyCell)
    ensures BorderIntact(b)
  {
    b := new Cell[ROWS, COLS];
    var r := 0;
    while r < ROWS
      invariant 0 <= r <= ROWS
      invariant forall i, j :: 0 <= i < r && 0 <= j < COLS ==>
        b[i, j] == (if OnBorder(i, j) then BorderCell else EmptyCell)
    {
      var c := 0;
      while c < COLS
        invariant 0 <= c <= COLS
        invariant forall i, j :: 0 <= i < r && 0 <= j < COLS ==>
          b[i, j] == (if OnBorder(i, j) then BorderCell else EmptyCell)
        invariant forall j :: 0 <= j < c ==> b[r, j] == (if OnBorder(r, j) then BorderCell else EmptyCell)
      {
        var isBorder := r == 0 || r == ROWS - 1 || c == 0 || c == COLS - 1;
        b[r, c] := if isBorder then BorderCell else EmptyCell;
        c := c + 1;
      }
      r := r + 1;
    }
  }

  /** `seedStandardEnemies`: one enemy in each of columns 3..15 of row 1, and the count of them. */
  method SeedStandardEnemies(b: array2<Cell>) returns (enemies: int, boss: Option<BossState>)
    requires Shaped(b)
    modifies b
    ensures forall r, c :: InBounds(r, c) ==>
      b[r, c] == (if r == ENEMY_ROW && ENEMY_COL_START <= c <= ENEMY_COL_END then Cell(Enemy, false, None) else old(b[r, c]))
    ensures enemies == ENEMY_COL_END - ENEMY_COL_START + 1 == 13
    ensures boss.None?
  {
    enemies := 0;
    var col := ENEMY_COL_START;
    while col <= ENEMY_COL_END
      invariant ENEMY_COL_START <= col <= ENEMY_COL_END + 1
      invariant enemies == col - ENEMY_COL_START
      invariant forall r, c :: InBounds(r, c) ==>
        b[r, c] == (if r == ENEMY_ROW && ENEMY_COL_START <= c < col then Cell(Enemy, false, None) else old(b[r, c]))
    {
      b[ENEMY_ROW, col] := Cell(Enemy, false, None);
      enemies := enemies + 1;
      col := col + 1;
    }
    boss := None;
  }

  /** `placeBoss`: a blocked boss cell at (1, 9) and the matching boss record. */
  method PlaceBoss(b: array2<Cell>) returns (enemies: int, boss: Option<BossState>)
    requires Shaped(b)
    modifies b
    ensures Replaced(b, ENEMY_ROW, BOSS_START_COL, Cell(Boss, true, None))
    ensures enemies == 1
    ensures boss == Some(InitialBoss)
    ensures b[boss.value.row, boss.value.col].kind == Boss
    ensures boss.value.lives == BOSS_INITIAL_LIVES && boss.value.fireCooldown == 1 && boss.value.moveCooldown == 1
  {
    b[ENEMY_ROW, BOSS_START_COL] := Cell(Boss, true, None);
    enemies := 1;
    boss := Some(InitialBoss);
  }

  method SeedEnemies(b: array2<Cell>, level: int) returns (enemies: int, boss: Option<BossState>)
    requires Shaped(b)
    modifies b
    ensures level == BOSS_LEVEL ==> Replaced(b, ENEMY_ROW, BOSS_START_COL, Cell(Boss, true, None))
    ensures level == BOSS_LEVEL <==> boss.Some?
    ensures boss.Some? ==> boss.value == InitialBoss && enemies == 1
    ensures level != BOSS_LEVEL ==> enemies == 13 && forall r, c :: InBounds(r, c) ==>
      b[r, c] == (if r == ENEMY_ROW && ENEMY_COL_START <= c <= ENEMY_COL_END then Cell(Enemy, false, None) else old(b[r, c]))
  {
    if level == BOSS_LEVEL {
      enemies, boss := PlaceBoss(b);
    } else {
      enemies, boss := SeedStandardEnemies(b);
    }
  }

  /** `placePlayer`: the player cell at (16, 9), whose position is returned. */
  method PlacePlayer(b: array2<Cell>) returns (p: Pos)
    requires Shaped(b)
    modifies b
    ensures p == Pos(PLAYER_START_ROW, PLAYER_START_COL)
    ensures Replaced(b, p.row, p.col, Cell(Player, false, None))
  {
    b[PLAYER_START_ROW, PLAYER_START_COL] := Cell(Player, false, None);
    p := Pos(PLAYER_START_ROW, PLAYER_START_COL);
  }

  /**
   * `buildLevelLayout`: a fresh board holding exactly the layout of `level`,
   * the number of hostiles on it, the player's position and the boss record.
   */
  method BuildLevelLayout(level: int) returns (b: array2<Cell>, enemies: int, player: Pos, boss: Option<BossState>)
    ensures fresh(b) && IsLayout(b, level) && BorderIntact(b)
    ensures enemies == HostileCount(b)
    ensures enemies == (if level == BOSS_LEVEL then 1 else 13)
    ensures player == Pos(PLAYER_START_ROW, PLAYER_START_COL) && b[player.row, player.col].kind == Player
    ensures boss.Some? <==> level == BOSS_LEVEL
    ensures boss.Some? ==> boss.value == InitialBoss && b[boss.value.row, boss.value.col].kind == Boss
  {
    b := CreateBaseBoard();
    enemies, boss := SeedEnemies(b, level);
    player := PlacePlayer(b);
    LayoutHostileCount(b, level);
  }

  /** `cloneBoard`: a fresh board equal to the original cell by cell. */
  method CloneBoard(b: array2<Cell>) returns (copy: array2<Cell>)
    requires Shaped(b)
    ensures fresh(copy) && Shaped(copy)
    ensures forall r, c :: InBounds(r, c) ==> copy[r, c] == b[r, c]
    ensures BorderIntact(b) ==> BorderIntact(copy)
  {
    copy := new Cell[ROWS, COLS]((i: nat, j: nat) reads b requires i < ROWS && j < COLS => b[i, j]);
  }

  // Counting the hostile (enemy or boss) cells of a board.

  predicate Hostile(k: CellKind) {
    k == Enemy || k == Boss
  }

  /** Hostile cells in row r from column c rightwards. */
  ghost function HostilesInRow(b: array2<Cell>, r: int, c: int): nat
    requires Shaped(b) && 0 <= r < ROWS && 0 <= c <= COLS
    reads b
    decreases COLS - c
  {
    if c == COLS then 0
    else (if Hostile(b[r, c].kind) then 1 else 0) + HostilesInRow(b, r, c + 1)
  }

  /** Hostile cells in rows r and below. */
  ghost function HostilesFrom(b: array2<Cell>, r: int): nat
    requires Shaped(b) && 0 <= r <= ROWS
    reads b
    decreases ROWS - r
  {
    if r == ROWS then 0 else HostilesInRow(b, r, 0) + HostilesFrom(b, r + 1)
  }

  ghost function HostileCount(b: array2<Cell>): nat
    requires Shaped(b)
    reads b
  {
    HostilesFrom(b, 0)
  }

  lemma {:induction false} QuietRow(b: array2<Cell>, level: int, r: int, c: int)
    requires IsLayout(b, level) && 0 <= r < ROWS && r != ENEMY_ROW && 0 <= c <= COLS
    ensures HostilesInRow(b, r, c) == 0
    decreases COLS - c
  {
    if c < COLS {
      QuietRow(b, level, r, c + 1);
    }
  }

  lemma {:induction false} EnemyRow(b: array2<Cell>, level: int, c: int)
    requires IsLayout(b, level) && 0 <= c <= COLS
    ensures level == BOSS_LEVEL ==> HostilesInRow(b, ENEMY_ROW, c) == (if c <= BOSS_START_COL then 1 else 0)
    ensures level != BOSS_LEVEL ==>
      HostilesInRow(b, ENEMY_ROW, c) ==
        (if c <= ENEMY_COL_START then 13 else if c <= ENEMY_COL_END then ENEMY_COL_END + 1 - c else 0)
    decreases COLS - c
  {
    if c < COLS {
      EnemyRow(b, level, c + 1);
    }
  }

  lemma {:induction false} HostileRows(b: array2<Cell>, level: int, r: int)
    requires IsLayout(b, level) && 0 <= r <= ROWS
    ensures HostilesFrom(b, r) == (if r <= ENEMY_ROW then (if level == BOSS_LEVEL then 1 else 13) else 0)
    decreases ROWS - r
  {
    if r < ROWS {
      HostileRows(b, level, r + 1);
      if r == ENEMY_ROW {
        EnemyRow(b, level, 0);
      } else {
        QuietRow(b, level, r, 0);
      }
    }
  }

  /** In every layout the hostile cells number 13, or 1 on the boss level. */
  lemma LayoutHostileCount(b: array2<Cell>, level: int)
    requires IsLayout(b, level)
    ensures HostileCount(b) == (if level == BOSS_LEVEL then 1 else 13)
  {
    HostileRows(b, level, 0);
  }
}
