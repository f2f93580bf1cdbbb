/**
 * The level-10 boss (engine/boss.js): one-cell steps inside its box, the
 * straight and diagonal shots, the random teleport, and the per-tick
 * cooldown bookkeeping of `updateBoss`.
 */
module Boss {
  import opened Constants
  import opened Grid
  import opened Board
  import opened GameState
  import opened Oracle
  import opened Player

  /** The boss box: columns 1..16 and rows 1..15 (above the player's row). */
  predicate WithinHorizontal(col: int) {
    0 < col < COLS - 1
  }

  predicate WithinVertical(row: int) {
    0 < row < PLAYER_START_ROW
  }

  function VDelta(d: VDir): int {
    if d == Up then -1 else 1
  }

  function FlipV(d: VDir): VDir {
    if d == Up then Down else Up
  }

  /** One attempted boss step. */
  datatype BossStep = Horizontal(h: HDir) | Vertical(v: VDir)

  function StepRow(bs: BossState, s: BossStep): int {
    match s
    case Horizontal(_) => bs.row
    case Vertical(v) => bs.row + VDelta(v)
  }

  function StepCol(bs: BossState, s: BossStep): int {
    match s
    case Horizontal(h) => bs.col + Delta(h)
    case Vertical(_) => bs.col
  }

  /** A step is open when its target stays inside the box along the moving axis and is empty. */
  predicate StepOpen(b: array2<Cell>, bs: BossState, s: BossStep)
    requires Shaped(b)
    reads b
  {
    (match s
     case Horizontal(_) => WithinHorizontal(StepCol(bs, s))
     case Vertical(_) => WithinVertical(StepRow(bs, s))) &&
    KindAt(b, StepRow(bs, s), StepCol(bs, s), Empty)
  }

  /** The boss record after a step: the new position and the heading it moved in. */
  function Stepped(bs: BossState, s: BossStep): (nb: BossState)
    ensures nb.row == StepRow(bs, s) && nb.col == StepCol(bs, s)
    ensures nb.lives == bs.lives && nb.fireCooldown == bs.fireCooldown
    ensures nb.moveCooldown == bs.moveCooldown && nb.teleportCooldown == bs.teleportCooldown
    ensures nb.diagonalDirection == bs.diagonalDirection
  {
    match s
    case Horizontal(h) => bs.(col := bs.col + Delta(h), horizontalDirection := h)
    case Vertical(v) => bs.(row := bs.row + VDelta(v), verticalDirection := Some(v))
  }

  /** The vertical heading, read as down while none is recorded. */
  function VerticalHeading(bs: BossState): VDir {
    if bs.verticalDirection.Some? then bs.verticalDirection.value else Down
  }

  /**
   * The order `moveBoss` tries its steps in: the current vertical heading
   * first when vertical is preferred, otherwise the current horizontal
   * heading first; then the reverse horizontal, then the reverse vertical.
   */
  function MoveOrder(bs: BossState, preferVertical: bool): (order: seq<BossStep>)
    ensures |order| == 4
    ensures order[0] == (if preferVertical then Vertical(VerticalHeading(bs)) else Horizontal(bs.horizontalDirection))
    ensures order[2] == Horizontal(Flip(bs.horizontalDirection)) && order[3] == Vertical(FlipV(VerticalHeading(bs)))
  {
    var v := VerticalHeading(bs);
    var h := bs.horizontalDirection;
    if preferVertical then [Vertical(v), Horizontal(h), Horizontal(Flip(h)), Vertical(FlipV(v))]
    else [Horizontal(h), Vertical(v), Horizontal(Flip(h)), Vertical(FlipV(v))]
  }

  /** Every one of the four steps is in the order, so the boss stays put only when all four are closed. */
  lemma MoveOrderCoversAll(bs: BossState, preferVertical: bool)
    ensures forall s: BossStep :: s in MoveOrder(bs, preferVertical)
  {
    var order := MoveOrder(bs, preferVertical);
    forall s: BossStep
      ensures s in order
    {
      var v := VerticalHeading(bs);
      var h := bs.horizontalDirection;
      match s
      case Horizontal(d) =>
        if d == h {
          assert s == order[if preferVertical then 1 else 0];
        } else {
          assert s == order[2];
        }
      case Vertical(d) =>
        if d == v {
          assert s == order[if preferVertical then 0 else 1];
        } else {
          assert s == order[3];
        }
    }
  }

  /** The index of the first open step of `steps`, if any. */
  function FirstOpen(b: array2<Cell>, bs: BossState, steps: seq<BossStep>): (i: Option<nat>)
    requires Shaped(b)
    reads b
    ensures i.Some? ==> i.value < |steps| && StepOpen(b, bs, steps[i.value])
    ensures i.Some? ==> forall j :: 0 <= j < i.value ==> !StepOpen(b, bs, steps[j])
    ensures i.None? ==> forall j :: 0 <= j < |steps| ==> !StepOpen(b, bs, steps[j])
    decreases |steps|
  {
    if steps == [] then None
    else if StepOpen(b, bs, steps[0]) then Some(0)
    else
      var rest := FirstOpen(b, bs, steps[1..]);
      if rest.None? then None else Some(rest.value + 1)
  }

  /** The boss has moved, cell and record together, from `bs` to `nb`. */
  twostate predicate Relocated(g: Game, bs: BossState, nb: BossState)
    reads g`board, g`boss, g.board
  {
    g.board == old(g.board) && Shaped(g.board) &&
    InBounds(nb.row, nb.col) && Moved(g.board, bs.row, bs.col, nb.row, nb.col) &&
    g.boss == Some(nb)
  }

  /** The outcome of one attempted step: taken exactly when it is open, and nothing changes otherwise. */
  twostate predicate StepTaken(g: Game, bs: BossState, s: BossStep, moved: bool)
    reads g`board, g`boss, g.board
  {
    g.board == old(g.board) && Shaped(g.board) &&
    (moved <==> old(StepOpen(g.board, bs, s))) &&
    (moved ==> Relocated(g, bs, Stepped(bs, s))) &&
    (!moved ==> unchanged(g.board) && g.boss == old(g.boss))
  }

  /** `tryMoveBossHorizontal`. */
  method TryMoveBossHorizontal(g: Game, direction: HDir) returns (moved: bool)
    requires g.Valid() && g.boss.Some?
    modifies g.board, g`boss
    ensures g.Valid()
    ensures StepTaken(g, old(g.boss).value, Horizontal(direction), moved)
  {
    var bs := g.boss.value;
    var nextCol := bs.col + Delta(direction);
    if !WithinHorizontal(nextCol) {
      return false;
    }
    var target := GetCell(g.board, bs.row, nextCol);
    if target.None? || target.value.kind != Empty {
      return false;
    }
    MoveCell(g.board, bs.row, bs.col, bs.row, nextCol);
    g.boss := Some(Stepped(bs, Horizontal(direction)));
    return true;
  }

  /** `tryMoveBossVertical`. */
  method TryMoveBossVertical(g: Game, direction: VDir) returns (moved: bool)
    requires g.Valid() && g.boss.Some?
    modifies g.board, g`boss
    ensures g.Valid()
    ensures StepTaken(g, old(g.boss).value, Vertical(direction), moved)
  {
    var bs := g.boss.value;
    var nextRow := bs.row + VDelta(direction);
    if !WithinVertical(nextRow) {
      return false;
    }
    var target := GetCell(g.board, nextRow, bs.col);
    if target.None? || target.value.kind != Empty {
      return false;
    }
    MoveCell(g.board, bs.row, bs.col, nextRow, bs.col);
    g.boss := Some(Stepped(bs, Vertical(direction)));
    return true;
  }

  /**
   * `moveBoss`: one draw decides whether vertical is preferred (probability
   * 0.4); the boss then takes the first open step of `MoveOrder`, or stays.
   */
  method MoveBoss(g: Game, rng: Random) returns (moved: bool)
    requires g.Valid() && g.boss.Some?
    modifies g.board, g`boss, rng
    ensures g.Valid()
    ensures rng.tape == Rest(old(rng.tape))
    ensures var bs := old(g.boss).value;
            var order := MoveOrder(bs, Peek(old(rng.tape), 10) < 4);
            var i := old(FirstOpen(g.board, bs, order));
            (moved <==> i.Some?) &&
            (moved ==> Relocated(g, bs, Stepped(bs, order[i.value]))) &&
            (!moved ==> unchanged(g.board) && g.boss == old(g.boss))
  {
    var roll := rng.Below(10);
    var bs := g.boss.value;
    // The cascade of tries, in the order `MoveOrder` lists them: the first open one is taken.
    var order := MoveOrder(bs, roll < 4);
    var first := FindOpenStep(g.board, bs, order);
    if first.None? {
      return false;
    }
    moved := TryStep(g, order[first.value]);
  }

  /** The cascade's search: the index of the first open step of `steps`. */
  method FindOpenStep(b: array2<Cell>, bs: BossState, steps: seq<BossStep>) returns (i: Option<nat>)
    requires Shaped(b)
    ensures i == FirstOpen(b, bs, steps)
  {
    var k := 0;
    while k < |steps|
      invariant 0 <= k <= |steps|
      invariant forall j :: 0 <= j < k ==> !StepOpen(b, bs, steps[j])
    {
      if StepOpen(b, bs, steps[k]) {
        return Some(k);
      }
      k := k + 1;
    }
    return None;
  }

  /** One attempted step, by axis. */
  method TryStep(g: Game, s: BossStep) returns (moved: bool)
    requires g.Valid() && g.boss.Some?
    modifies g.board, g`boss
    ensures g.Valid()
    ensures StepTaken(g, old(g.boss).value, s, moved)
  {
    match s
    case Horizontal(h) =>
      moved := TryMoveBossHorizontal(g, h);
    case Vertical(v) =>
      moved := TryMoveBossVertical(g, v);
  }

  /** Where a boss shot goes: nowhere, into the player, or onto an empty cell. */
  datatype ShotPlan = NoShot | HitPlayerAt(at: Pos) | DrawAt(at: Pos)

  /** `spawnVerticalShot`'s decision: the cell straight below the boss, unless that is the bottom border row. */
  function VerticalShotPlan(b: array2<Cell>, bs: BossState): (plan: ShotPlan)
    requires Shaped(b)
    reads b
    ensures plan.HitPlayerAt? <==> bs.row + 1 < ROWS - 1 && KindAt(b, bs.row + 1, bs.col, Player)
    ensures plan.DrawAt? <==> bs.row + 1 < ROWS - 1 && KindAt(b, bs.row + 1, bs.col, Empty)
    ensures !plan.NoShot? ==> plan.at == Pos(bs.row + 1, bs.col)
  {
    var row := bs.row + 1;
    if row >= ROWS - 1 then NoShot
    else
      match GetCell(b, row, bs.col)
      case None => NoShot
      case Some(cell) =>
        if cell.kind == Player then HitPlayerAt(Pos(row, bs.col))
        else if cell.kind != Empty then NoShot
        else DrawAt(Pos(row, bs.col))
  }

  /** `spawnDiagonalShot`'s decision and the heading it reports back. */
  datatype DiagonalShot = DiagonalShot(plan: ShotPlan, direction: HDir)

  function DiagonalShotPlan(b: array2<Cell>, bs: BossState): (shot: DiagonalShot)
    requires Shaped(b)
    reads b
    ensures bs.row + 1 >= ROWS - 1 ==> shot == DiagonalShot(NoShot, bs.diagonalDirection)
    ensures bs.row + 1 < ROWS - 1 ==> shot.direction == Bounce(bs.col, bs.diagonalDirection)
    ensures shot.plan.HitPlayerAt? <==>
      bs.row + 1 < ROWS - 1 && WithinHorizontal(bs.col + Delta(shot.direction)) &&
      KindAt(b, bs.row + 1, bs.col + Delta(shot.direction), Player)
    ensures shot.plan.DrawAt? <==>
      bs.row + 1 < ROWS - 1 && WithinHorizontal(bs.col + Delta(shot.direction)) &&
      KindAt(b, bs.row + 1, bs.col + Delta(shot.direction), Empty)
    ensures !shot.plan.NoShot? ==> shot.plan.at == Pos(bs.row + 1, bs.col + Delta(shot.direction))
  {
    var row := bs.row + 1;
    if row >= ROWS - 1 then DiagonalShot(NoShot, bs.diagonalDirection)
    else
      var direction := Bounce(bs.col, bs.diagonalDirection);
      var col := bs.col + Delta(direction);
      if !WithinHorizontal(col) then DiagonalShot(NoShot, direction)
      else
        match GetCell(b, row, col)
        case None => DiagonalShot(NoShot, direction)
        case Some(cell) =>
          if cell.kind == Player then DiagonalShot(HitPlayerAt(Pos(row, col)), direction)
          else if cell.kind != Empty then DiagonalShot(NoShot, direction)
          else DiagonalShot(DrawAt(Pos(row, col)), direction)
  }

  /** The side effects of a boss shot: a hit on the player is `AfterHit`; a drawn or missing shot changes nothing. */
  function AfterBossShot(s: Side, plan: ShotPlan): Side {
    if plan.HitPlayerAt? then AfterHit(s) else s
  }

  /** Whether `plan` lands on the cell (r, c). */
  predicate LandsAt(plan: ShotPlan, r: int, c: int) {
    !plan.NoShot? && plan.at == Pos(r, c)
  }

  /** The cell a landed boss shot leaves at its target: the player's cell emptied, or the drawn bullet. */
  function LandedCell(plan: ShotPlan, drawn: Cell): Cell {
    if plan.HitPlayerAt? then EmptyCell else drawn
  }

  /**
   * Carrying out a shot plan: no shot changes nothing; a hit on the player
   * empties the player's cell and takes a life (`AfterHit`); a drawn shot
   * puts the bullet on its empty cell.
   */
  twostate predicate ShotOutcome(g: Game, plan: ShotPlan, drawn: Cell, fired: bool)
    reads g`board, g`enemies, g`player, g`boss, g`status, g`metrics, g`ammo, g`events, g.board
  {
    g.board == old(g.board) && Shaped(g.board) &&
    (fired <==> !plan.NoShot?) &&
    (forall r, c :: InBounds(r, c) ==>
       g.board[r, c] == (if LandsAt(plan, r, c) then LandedCell(plan, drawn) else old(g.board[r, c]))) &&
    SideOf(g) == AfterBossShot(old(SideOf(g)), plan)
  }

  /** `spawnVerticalShot`: an enemy bullet below the boss, or a hit on the player there; counts as fired either way. */
  method SpawnVerticalShot(g: Game) returns (fired: bool)
    requires g.Valid()
    modifies g.board, g`metrics, g`status, g`ammo, g`player, g`events
    ensures g.Valid()
    ensures g.boss.None? ==> !fired && HitUntouched(g)
    ensures g.boss.Some? ==>
      ShotOutcome(g, old(VerticalShotPlan(g.board, g.boss.value)), Cell(EnemyBullet, false, None), fired)
  {
    if g.boss.None? {
      return false;
    }
    var plan := VerticalShotPlan(g.board, g.boss.value);
    match plan
    case NoShot =>
      fired := false;
    case HitPlayerAt(p) =>
      HitPlayer(g, p.row, p.col);
      fired := true;
    case DrawAt(p) =>
      DrawEnemyBullet(g.board, p.row, p.col);
      fired := true;
  }

  /** `spawnDiagonalShot`: a diagonal bullet carrying its heading, or a hit on the player; returns the heading to keep. */
  method SpawnDiagonalShot(g: Game) returns (fired: bool, direction: HDir)
    requires g.Valid()
    modifies g.board, g`metrics, g`status, g`ammo, g`player, g`events
    ensures g.Valid()
    ensures g.boss.None? ==> !fired && direction == Right && HitUntouched(g)
    ensures g.boss.Some? ==>
      var shot := old(DiagonalShotPlan(g.board, g.boss.value));
      direction == shot.direction &&
      ShotOutcome(g, shot.plan, Cell(BossDiagonalBullet, false, Some(shot.direction)), fired)
  {
    if g.boss.None? {
      return false, Right;
    }
    var shot := DiagonalShotPlan(g.board, g.boss.value);
    direction := shot.direction;
    match shot.plan
    case NoShot =>
      fired := false;
    case HitPlayerAt(p) =>
      HitPlayer(g, p.row, p.col);
      fired := true;
    case DrawAt(p) =>
      DrawBossDiagonalBullet(g.board, p.row, p.col, direction);
      fired := true;
  }

  /**
   * The board after both guns: the cell the straight shot lands on holds
   * what it left, then the cell the diagonal shot lands on; every other
   * cell is as it was.
   */
  twostate predicate BothLanded(b: array2<Cell>, vertical: ShotPlan, diagonal: ShotPlan, diagonalCell: Cell)
    reads b
  {
    Shaped(b) &&
    forall r, c :: InBounds(r, c) ==>
      b[r, c] == (if LandsAt(vertical, r, c) then LandedCell(vertical, Cell(EnemyBullet, false, None))
                  else if LandsAt(diagonal, r, c) then LandedCell(diagonal, diagonalCell)
                  else old(b[r, c]))
  }

  /**
   * `fireBossWeapons`: both guns fire in one turn, the straight one first
   * (they aim at different cells, so the straight shot never changes what
   * the diagonal one sees); each lands as its plan says, a hit on the
   * player taking its toll once per hit; the diagonal heading is kept, and
   * the turn counts as fired when either gun fired.
   */
  method FireBossWeapons(g: Game) returns (fired: bool)
    requires g.Valid()
    modifies g.board, g`boss, g`metrics, g`status, g`ammo, g`player, g`events
    ensures g.Valid()
    ensures old(g.boss).None? ==> !fired && g.boss.None? && HitUntouched(g)
    ensures old(g.boss).Some? ==>
      var bs := old(g.boss).value;
      var vertical := old(VerticalShotPlan(g.board, bs));
      var shot := old(DiagonalShotPlan(g.board, bs));
      (fired <==> !vertical.NoShot? || !shot.plan.NoShot?) &&
      g.boss == Some(bs.(diagonalDirection := shot.direction)) &&
      g.board == old(g.board) &&
      BothLanded(g.board, vertical, shot.plan, Cell(BossDiagonalBullet, false, Some(shot.direction))) &&
      SideOf(g) == AfterBossShot(AfterBossShot(old(SideOf(g)), vertical), shot.plan).(boss := g.boss)
  {
    if g.boss.None? {
      return false;
    }
    var direction;
    fired, direction := FireBothGuns(g);
    g.boss := Some(g.boss.value.(diagonalDirection := direction));
  }

  /** The two guns of `fireBossWeapons` in order, the boss record left as it is. */
  method FireBothGuns(g: Game) returns (fired: bool, direction: HDir)
    requires g.Valid() && g.boss.Some?
    modifies g.board, g`metrics, g`status, g`ammo, g`player, g`events
    ensures g.Valid() && g.boss == old(g.boss)
    ensures var vertical := old(VerticalShotPlan(g.board, g.boss.value));
      var shot := old(DiagonalShotPlan(g.board, g.boss.value));
      (fired <==> !vertical.NoShot? || !shot.plan.NoShot?) &&
      direction == shot.direction &&
      g.board == old(g.board) &&
      BothLanded(g.board, vertical, shot.plan, Cell(BossDiagonalBullet, false, Some(shot.direction))) &&
      SideOf(g) == AfterBossShot(AfterBossShot(old(SideOf(g)), vertical), shot.plan)
  {
    ghost var boss := g.boss.value;
    ghost var aimed := DiagonalShotPlan(g.board, boss);
    var firedVertical := SpawnVerticalShot(g);
    if boss.row + 1 < ROWS - 1 {
      var col := boss.col + Delta(aimed.direction);
      if WithinHorizontal(col) {
        assert g.board[boss.row + 1, col] == old(g.board[boss.row + 1, col]);
      }
    }
    assert DiagonalShotPlan(g.board, boss) == aimed;
    var firedDiagonal;
    firedDiagonal, direction := SpawnDiagonalShot(g);
    fired := firedVertical || firedDiagonal;
  }

  /** The tape left after `k` teleport attempts of two draws each. */
  function Skipped(tape: seq<nat>, k: nat): seq<nat>
    decreases k
  {
    if k == 0 then tape else Skipped(Rest(Rest(tape)), k - 1)
  }

  /**
   * Which of `attempts` teleport attempts wins: the first whose drawn cell
   * is open; none when all of them are closed.
   */
  function FirstOpenAttempt(b: array2<Cell>, bs: BossState, tape: seq<nat>, attempts: nat): (k: Option<nat>)
    requires Shaped(b)
    reads b
    ensures k.Some? ==> k.value < attempts
    decreases attempts
  {
    if attempts == 0 then None
    else if JumpOpen(b, bs, Candidate(tape)) then Some(0)
    else
      var later := FirstOpenAttempt(b, bs, Rest(Rest(tape)), attempts - 1);
      if later.Some? then Some(later.value + 1) else None
  }

  /** The winning attempt's cell is open and every earlier attempt's is closed; with no winner, every attempt's is closed. */
  lemma {:induction false} FirstOpenAttemptIsFirst(b: array2<Cell>, bs: BossState, tape: seq<nat>, attempts: nat)
    requires Shaped(b)
    ensures var k := FirstOpenAttempt(b, bs, tape, attempts);
      (k.Some? ==> JumpOpen(b, bs, Candidate(Skipped(tape, k.value)))) &&
      (k.Some? ==> forall j :: 0 <= j < k.value ==> !JumpOpen(b, bs, Candidate(Skipped(tape, j)))) &&
      (k.None? ==> forall j :: 0 <= j < attempts ==> !JumpOpen(b, bs, Candidate(Skipped(tape, j))))
    decreases attempts
  {
    assert Skipped(tape, 0) == tape;
    if attempts > 0 && !JumpOpen(b, bs, Candidate(tape)) {
      var rest := Rest(Rest(tape));
      FirstOpenAttemptIsFirst(b, bs, rest, attempts - 1);
      assert forall j :: 1 <= j < attempts ==> Skipped(tape, j) == Skipped(rest, j - 1);
    }
  }

  /**
   * `teleportBoss`'s search: up to `attempts` tries, each drawing a row in
   * 1..15 and a column in 1..16; the first empty in-box cell other than
   * the boss's own wins, and with none the boss stays.
   */
  function TeleportTarget(b: array2<Cell>, bs: BossState, tape: seq<nat>, attempts: nat): (target: Option<Pos>)
    requires Shaped(b)
    reads b
    ensures target.Some? ==> JumpOpen(b, bs, target.value)
    ensures var k := FirstOpenAttempt(b, bs, tape, attempts);
      target == if k.Some? then Some(Candidate(Skipped(tape, k.value))) else None
    decreases attempts
  {
    if attempts == 0 then None
    else if JumpOpen(b, bs, Candidate(tape)) then
      assert Skipped(tape, 0) == tape;
      Some(Candidate(tape))
    else
      var rest := Rest(Rest(tape));
      var target := TeleportTarget(b, bs, rest, attempts - 1);
      var later := FirstOpenAttempt(b, bs, rest, attempts - 1);
      assert later.Some? ==> Skipped(tape, later.value + 1) == Skipped(rest, later.value);
      target
  }

  /**
   * The tape a teleport search leaves: two draws for every attempt made,
   * stopping after the attempt that found the target.
   */
  function TapeAfterTeleport(b: array2<Cell>, bs: BossState, tape: seq<nat>, attempts: nat): (rest: seq<nat>)
    requires Shaped(b)
    reads b
    ensures var k := FirstOpenAttempt(b, bs, tape, attempts);
      rest == Skipped(tape, if k.Some? then k.value + 1 else attempts)
    decreases attempts
  {
    if attempts == 0 then tape
    else if JumpOpen(b, bs, Candidate(tape)) then
      assert Skipped(tape, 1) == Rest(Rest(tape));
      Rest(Rest(tape))
    else
      var next := Rest(Rest(tape));
      var later := FirstOpenAttempt(b, bs, next, attempts - 1);
      var used := if later.Some? then later.value + 1 else attempts - 1;
      assert Skipped(tape, used + 1) == Skipped(next, used);
      TapeAfterTeleport(b, bs, next, attempts - 1)
  }

  /** The cell one teleport attempt draws: a row in 1..15, then a column in 1..16. */
  function Candidate(tape: seq<nat>): (t: Pos)
    ensures 1 <= t.row <= PLAYER_START_ROW - 1 && 1 <= t.col <= COLS - 2
  {
    Pos(Peek(tape, PLAYER_START_ROW - 1) + 1, Peek(Rest(tape), COLS - 2) + 1)
  }

  /** A cell the boss may teleport to: inside the box, not its own cell, and empty. */
  predicate JumpOpen(b: array2<Cell>, bs: BossState, t: Pos)
    requires Shaped(b)
    reads b
  {
    WithinVertical(t.row) && WithinHorizontal(t.col) &&
    !(t.row == bs.row && t.col == bs.col) && KindAt(b, t.row, t.col, Empty)
  }

  /** The two draws of one teleport attempt. */
  method DrawCandidate(rng: Random) returns (t: Pos)
    modifies rng
    ensures t == Candidate(old(rng.tape)) && rng.tape == Rest(Rest(old(rng.tape)))
  {
    var targetRow := rng.Below(PLAYER_START_ROW - 1);
    var targetCol := rng.Below(COLS - 2);
    t := Pos(targetRow + 1, targetCol + 1);
  }

  /** The boss record after a teleport: the new cell, and each heading turned toward the jump unless that axis did not change. */
  function Teleported(bs: BossState, t: Pos): (nb: BossState)
    ensures nb.row == t.row && nb.col == t.col
    ensures nb.lives == bs.lives && nb.fireCooldown == bs.fireCooldown
    ensures nb.moveCooldown == bs.moveCooldown && nb.teleportCooldown == bs.teleportCooldown
    ensures nb.diagonalDirection == bs.diagonalDirection
  {
    bs.(row := t.row, col := t.col,
        horizontalDirection := if t.col > bs.col then Right else if t.col < bs.col then Left else bs.horizontalDirection,
        verticalDirection := if t.row > bs.row then Some(Down) else if t.row < bs.row then Some(Up) else bs.verticalDirection)
  }

  /** How many cells one teleport draws before giving up. */
  const TELEPORT_ATTEMPTS: nat := 6

  /** `teleportBoss`: jumps to the cell `TeleportTarget` finds with six attempts, or stays. */
  method TeleportBoss(g: Game, rng: Random) returns (teleported: bool)
    requires g.Valid() && g.boss.Some?
    modifies g.board, g`boss, rng
    ensures g.Valid()
    ensures var bs := old(g.boss).value;
            var t := old(TeleportTarget(g.board, bs, rng.tape, TELEPORT_ATTEMPTS));
            (teleported <==> t.Some?) &&
            (teleported ==> Relocated(g, bs, Teleported(bs, t.value))) &&
            (!teleported ==> unchanged(g.board) && g.boss == old(g.boss)) &&
            rng.tape == old(TapeAfterTeleport(g.board, bs, rng.tape, TELEPORT_ATTEMPTS))
  {
    var found := FindTeleportTarget(g.board, g.boss.value, rng);
    if found.None? {
      return false;
    }
    JumpTo(g, found.value);
    return true;
  }

  /** The attempt loop of `teleportBoss`: up to six drawn cells, stopping at the first open one. */
  method FindTeleportTarget(b: array2<Cell>, bs: BossState, rng: Random) returns (found: Option<Pos>)
    requires Shaped(b)
    modifies rng
    ensures found == TeleportTarget(b, bs, old(rng.tape), TELEPORT_ATTEMPTS)
    ensures rng.tape == TapeAfterTeleport(b, bs, old(rng.tape), TELEPORT_ATTEMPTS)
  {
    ghost var target := TeleportTarget(b, bs, rng.tape, TELEPORT_ATTEMPTS);
    ghost var left := TapeAfterTeleport(b, bs, rng.tape, TELEPORT_ATTEMPTS);
    found := None;
    var attempts := 0;
    while attempts < TELEPORT_ATTEMPTS && found.None?
      invariant 0 <= attempts <= TELEPORT_ATTEMPTS
      invariant found.None? ==> target == TeleportTarget(b, bs, rng.tape, TELEPORT_ATTEMPTS - attempts)
      invariant found.None? ==> left == TapeAfterTeleport(b, bs, rng.tape, TELEPORT_ATTEMPTS - attempts)
      invariant found.Some? ==> target == found && left == rng.tape
    {
      var t := DrawCandidate(rng);
      if WithinVertical(t.row) && WithinHorizontal(t.col) &&
         !(t.row == bs.row && t.col == bs.col) && b[t.row, t.col].kind == Empty {
        found := Some(t);
      }
      attempts := attempts + 1;
    }
  }

  /** The jump itself: the boss cell moves to an empty cell of the box. */
  method JumpTo(g: Game, t: Pos)
    requires g.Valid() && g.boss.Some?
    requires JumpOpen(g.board, g.boss.value, t)
    modifies g.board, g`boss
    ensures g.Valid()
    ensures Relocated(g, old(g.boss).value, Teleported(old(g.boss).value, t))
  {
    var bs := g.boss.value;
    MoveCell(g.board, bs.row, bs.col, t.row, t.col);
    g.boss := Some(Teleported(bs, t));
  }

  /**
   * The teleport phase of `updateBoss`: a running cooldown counts down
   * without a draw; a spent one draws once, and with probability 0.1
   * (a draw of 0 out of 10) searches for a target; the boss jumps there and
   * re-arms for ten ticks only when the search found one.
   */
  method TeleportPhase(g: Game, rng: Random)
    requires g.Valid() && g.boss.Some?
    modifies g.board, g`boss, rng
    ensures g.Valid() && g.boss.Some?
    ensures var a := old(g.boss).value;
      if a.teleportCooldown > 0 then
        g.boss == Some(a.(teleportCooldown := a.teleportCooldown - 1)) && unchanged(g.board) && rng.tape == old(rng.tape)
      else if Peek(old(rng.tape), 10) >= 1 then
        g.boss == old(g.boss) && unchanged(g.board) && rng.tape == Rest(old(rng.tape))
      else
        var tape := Rest(old(rng.tape));
        var target := old(TeleportTarget(g.board, a, tape, TELEPORT_ATTEMPTS));
        rng.tape == old(TapeAfterTeleport(g.board, a, tape, TELEPORT_ATTEMPTS)) &&
        (target.None? ==> g.boss == old(g.boss) && unchanged(g.board)) &&
        (target.Some? ==> Relocated(g, a, Teleported(a, target.value).(teleportCooldown := BOSS_TELEPORT_COOLDOWN)))
    ensures var a, b := old(g.boss).value, g.boss.value;
      b.lives == a.lives && b.moveCooldown == a.moveCooldown && b.fireCooldown == a.fireCooldown
  {
    var start := g.boss.value;
    if start.teleportCooldown > 0 {
      g.boss := Some(start.(teleportCooldown := start.teleportCooldown - 1));
    } else {
      var roll := rng.Below(10);
      if roll < 1 {
        TeleportAndRearm(g, rng);
      }
    }
  }

  /** A teleport attempt of the teleport phase: the boss jumps and re-arms for ten ticks, or stays as it was. */
  method TeleportAndRearm(g: Game, rng: Random)
    requires g.Valid() && g.boss.Some?
    modifies g.board, g`boss, rng
    ensures g.Valid() && g.boss.Some?
    ensures var a := old(g.boss).value;
      var target := old(TeleportTarget(g.board, a, rng.tape, TELEPORT_ATTEMPTS));
      rng.tape == old(TapeAfterTeleport(g.board, a, rng.tape, TELEPORT_ATTEMPTS)) &&
      (target.None? ==> g.boss == old(g.boss) && unchanged(g.board)) &&
      (target.Some? ==> Relocated(g, a, Teleported(a, target.value).(teleportCooldown := BOSS_TELEPORT_COOLDOWN)))
  {
    var teleported := TeleportBoss(g, rng);
    if teleported {
      g.boss := Some(g.boss.value.(teleportCooldown := BOSS_TELEPORT_COOLDOWN));
    }
  }

  /** The move phase: count down, or try a move and re-arm for two ticks after a move, one tick otherwise. */
  method MovePhase(g: Game, rng: Random)
    requires g.Valid() && g.boss.Some?
    modifies g.board, g`boss, rng
    ensures g.Valid() && g.boss.Some?
    ensures var a, b := old(g.boss).value, g.boss.value;
      (a.moveCooldown > 0 ==> b == a.(moveCooldown := a.moveCooldown - 1) && unchanged(g.board)) &&
      (a.moveCooldown <= 0 ==> (b.moveCooldown == BOSS_MOVE_COOLDOWN <==> b.row != a.row || b.col != a.col)) &&
      (a.moveCooldown <= 0 ==> (b.moveCooldown == 1 <==> b.row == a.row && b.col == a.col)) &&
      b.lives == a.lives && b.teleportCooldown == a.teleportCooldown && b.fireCooldown == a.fireCooldown
    ensures var a := old(g.boss).value;
      if a.moveCooldown > 0 then
        rng.tape == old(rng.tape)
      else
        var order := MoveOrder(a, Peek(old(rng.tape), 10) < 4);
        var i := old(FirstOpen(g.board, a, order));
        rng.tape == Rest(old(rng.tape)) &&
        (i.None? ==> g.boss == Some(a.(moveCooldown := 1)) && unchanged(g.board)) &&
        (i.Some? ==> Relocated(g, a, Stepped(a, order[i.value]).(moveCooldown := BOSS_MOVE_COOLDOWN)))
  {
    var start := g.boss.value;
    if start.moveCooldown > 0 {
      g.boss := Some(start.(moveCooldown := start.moveCooldown - 1));
    } else {
      var moved := MoveBoss(g, rng);
      g.boss := Some(g.boss.value.(moveCooldown := if moved then BOSS_MOVE_COOLDOWN else 1));
    }
  }

  /** The fire phase: count down, or fire both guns and re-arm for four ticks only if either fired. */
  method FirePhase(g: Game)
    requires g.Valid() && g.boss.Some?
    modifies g.board, g`boss, g`metrics, g`status, g`ammo, g`player, g`events
    ensures g.Valid() && g.boss.Some?
    ensures var a, b := old(g.boss).value, g.boss.value;
      (a.fireCooldown > 0 ==>
         b == a.(fireCooldown := a.fireCooldown - 1) && unchanged(g.board) && SideOf(g) == old(SideOf(g)).(boss := g.boss)) &&
      (a.fireCooldown <= 0 ==>
         var fired := !old(VerticalShotPlan(g.board, a)).NoShot? || !old(DiagonalShotPlan(g.board, a)).plan.NoShot?;
         b.fireCooldown == (if fired then BOSS_FIRE_COOLDOWN else a.fireCooldown)) &&
      b.row == a.row && b.col == a.col && b.lives == a.lives &&
      b.teleportCooldown == a.teleportCooldown && b.moveCooldown == a.moveCooldown
    ensures var a := old(g.boss).value;
      a.fireCooldown <= 0 ==>
        var vertical := old(VerticalShotPlan(g.board, a));
        var shot := old(DiagonalShotPlan(g.board, a));
        g.board == old(g.board) && g.boss.value.diagonalDirection == shot.direction &&
        BothLanded(g.board, vertical, shot.plan, Cell(BossDiagonalBullet, false, Some(shot.direction))) &&
        SideOf(g) == AfterBossShot(AfterBossShot(old(SideOf(g)), vertical), shot.plan).(boss := g.boss)
  {
    var start := g.boss.value;
    if start.fireCooldown > 0 {
      g.boss := Some(start.(fireCooldown := start.fireCooldown - 1));
    } else {
      var fired := FireBossWeapons(g);
      if fired {
        g.boss := Some(g.boss.value.(fireCooldown := BOSS_FIRE_COOLDOWN));
      }
    }
  }

  /** How one tick moves the three boss cooldowns: a positive one counts down by one, a spent one re-arms. */
  predicate CooldownsStepped(a: BossState, b: BossState) {
    (a.teleportCooldown > 0 ==> b.teleportCooldown == a.teleportCooldown - 1) &&
    (a.teleportCooldown <= 0 ==> b.teleportCooldown == a.teleportCooldown || b.teleportCooldown == BOSS_TELEPORT_COOLDOWN) &&
    (a.moveCooldown > 0 ==> b.moveCooldown == a.moveCooldown - 1) &&
    (a.moveCooldown <= 0 ==> b.moveCooldown == BOSS_MOVE_COOLDOWN || b.moveCooldown == 1) &&
    (a.fireCooldown > 0 ==> b.fireCooldown == a.fireCooldown - 1) &&
    (a.fireCooldown <= 0 ==> b.fireCooldown == a.fireCooldown || b.fireCooldown == BOSS_FIRE_COOLDOWN) &&
    b.lives == a.lives
  }

  /**
   * `updateBoss`: the teleport, move and fire phases in that order, each
   * gated by its own cooldown. The boss keeps its lives and stays inside
   * its box.
   */
  method UpdateBoss(g: Game, rng: Random)
    requires g.Valid()
    modifies g.board, g`boss, g`metrics, g`status, g`ammo, g`player, g`events, rng
    ensures g.Valid()
    ensures g.boss.Some? <==> old(g.boss).Some?
    ensures old(g.boss).Some? ==> CooldownsStepped(old(g.boss).value, g.boss.value)
    ensures old(g.boss).None? ==> HitUntouched(g)
  {
    if g.boss.None? {
      return;
    }
    TeleportPhase(g, rng);
    MovePhase(g, rng);
    FirePhase(g);
  }
}
