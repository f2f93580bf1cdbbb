/**
 * Projectile resolution (engine/projectiles.js). Each family is moved from a
 * snapshot of its cells: a cell that no longer holds the family's kind is
 * skipped, a blocked cell only loses its flag, and a moving projectile
 * vacates its cell and resolves what it reaches through a collision table.
 *
 * The tables are pure functions from the reached cell to an `Effect`; the
 * step methods are proved to carry out the `Plan` those tables give.
 */
module Projectiles {
  import opened Constants
  import opened Grid
  import opened Board
  import opened GameState
  import opened Oracle
  import opened Player
  import opened Enemy

  /** What a moving projectile does to the cell it reaches. */
  datatype Effect =
    | NoEffect            // the projectile is spent and the cell is left alone
    | Refund              // the projectile leaves play and its round comes back
    | Absorb              // the cell (a player bullet) is cleared and its round comes back
    | HitTarget           // `hitPlayer` on the cell
    | KillTarget          // `killEnemy` on the cell
    | DrawPlayer
    | DrawEnemy
    | DrawBoth
    | DrawDiagonal(d: HDir)
    | DrawCombined(d: HDir)
    | Steer(d: HDir)      // a combined bullet takes a new heading

  datatype Shot = Shot(at: Pos, effect: Effect)

  /**
   * One projectile's step: what its own cell becomes, then two shots
   * resolved in order. `rest` is what is left of the random tape, for the
   * families that draw.
   */
  datatype Plan = Plan(origin: Cell, first: Shot, second: Shot, rest: seq<nat>)

  function Idle(p: Pos): Shot {
    Shot(p, NoEffect)
  }

  /** The tables never draw over the player, the boss or the border, and only hit or kill what can be hit or killed. */
  predicate Legal(e: Effect, k: CellKind) {
    match e
    case NoEffect => true
    case Refund => true
    case HitTarget => k == Player
    case KillTarget => k == Enemy || k == Boss
    case _ => k != Player && k != Boss && k != Border
  }

  /** A draw that the setters would refuse on a border cell. */
  function Drawn(c: Cell, v: Cell): Cell {
    if c.kind == Border then c else v
  }

  /** The reached cell after the effect, given the boss record before it. */
  function NewCell(e: Effect, c: Cell, boss: Option<BossState>): Cell {
    match e
    case NoEffect => c
    case Refund => c
    case Absorb => Cleared(c)
    case HitTarget => if c.kind == Player then EmptyCell else c
    case KillTarget =>
      if c.kind == Enemy || (c.kind == Boss && boss.Some? && boss.value.lives <= 1) then EmptyCell else c
    case DrawPlayer => Drawn(c, Cell(PlayerBullet, false, None))
    case DrawEnemy => Drawn(c, Cell(EnemyBullet, false, None))
    case DrawBoth => Drawn(c, Cell(BothBullets, true, None))
    case DrawDiagonal(d) => Drawn(c, Cell(BossDiagonalBullet, false, Some(d)))
    case DrawCombined(d) => Drawn(c, Cell(BossCombinedBullet, false, Some(d)))
    case Steer(d) => c.(occupant := Some(d))
  }

  function Refunded(s: Side): Side {
    s.(ammo := s.ammo.(remainingShots := s.ammo.remainingShots + 1))
  }

  /** The fields besides the board after the effect on a cell that held `c`. */
  function EffectSide(e: Effect, s: Side, c: Cell): Side {
    match e
    case Refund => Refunded(s)
    case Absorb => Refunded(s)
    case HitTarget => if c.kind == Player then AfterHit(s) else s
    case KillTarget =>
      if c.kind == Enemy then AfterEnemyKill(s)
      else if c.kind == Boss && s.boss.Some? then AfterBossHit(s)
      else s
    case _ => s
  }

  /** A shot has been carried out: its cell changed as `NewCell` says, the other fields as `EffectSide` says. */
  twostate predicate Applied(g: Game, s: Shot)
    reads g`board, g`enemies, g`player, g`boss, g`status, g`metrics, g`ammo, g`events, g.board
  {
    g.board == old(g.board) && Shaped(g.board) &&
    var c := old(CellAt(g.board, s.at.row, s.at.col));
    Replaced(g.board, s.at.row, s.at.col, NewCell(s.effect, c, old(g.boss))) &&
    SideOf(g) == EffectSide(s.effect, old(SideOf(g)), c)
  }

  /**
   * A projectile's step has been carried out: its own cell at p became
   * `origin`, then the shots s1 and s2 were resolved in that order, on
   * cells other than its own.
   */
  twostate predicate Steps(g: Game, p: Pos, origin: Cell, s1: Shot, s2: Shot)
    reads g`board, g`enemies, g`player, g`boss, g`status, g`metrics, g`ammo, g`events, g.board
  {
    g.board == old(g.board) && Shaped(g.board) &&
    var c1 := old(CellAt(g.board, s1.at.row, s1.at.col));
    var c2 := old(CellAt(g.board, s2.at.row, s2.at.col));
    var side1 := EffectSide(s1.effect, old(SideOf(g)), c1);
    (forall r, c :: InBounds(r, c) ==>
      g.board[r, c] ==
        if r == p.row && c == p.col then origin
        else if r == s1.at.row && c == s1.at.col then NewCell(s1.effect, c1, old(g.boss))
        else if r == s2.at.row && c == s2.at.col then NewCell(s2.effect, c2, side1.boss)
        else old(g.board[r, c])) &&
    SideOf(g) == EffectSide(s2.effect, side1, c2)
  }

  twostate predicate Resolved(g: Game, p: Pos, plan: Plan)
    reads g`board, g`enemies, g`player, g`boss, g`status, g`metrics, g`ammo, g`events, g.board
  {
    Steps(g, p, plan.origin, plan.first, plan.second)
  }

  /** `Math.random() < 0.5 ? 'left' : 'right'`. */
  function Coin(tape: seq<nat>): HDir {
    if Peek(tape, 2) == 0 then Left else Right
  }

  method Toss(rng: Random) returns (d: HDir)
    modifies rng
    ensures d == Coin(old(rng.tape)) && rng.tape == Rest(old(rng.tape))
  {
    var v := rng.Below(2);
    d := if v == 0 then Left else Right;
  }

  /** A stored heading, or a coin toss when none is stored. */
  function Heading(hint: Option<HDir>, tape: seq<nat>): HDir {
    if hint.Some? then hint.value else Coin(tape)
  }

  function AfterHeading(hint: Option<HDir>, tape: seq<nat>): seq<nat> {
    if hint.Some? then tape else Rest(tape)
  }

  /** Where a diagonal projectile goes next: one row down, one column along its (bounced) heading. */
  datatype Aim = Aim(at: Pos, heading: HDir)

  function DiagonalAim(row: int, col: int, d: HDir): (aim: Option<Aim>)
    ensures aim.Some? ==> aim.value.heading == Bounce(col, d) && aim.value.at == Pos(row + 1, col + Delta(aim.value.heading))
    ensures aim.Some? ==> aim.value.at.row < ROWS - 1 && 0 < aim.value.at.col < COLS - 1
    ensures 0 < col < COLS - 1 ==> (aim.None? <==> row + 1 >= ROWS - 1)
  {
    var nextRow := row + 1;
    if nextRow >= ROWS - 1 then None
    else
      var heading := Bounce(col, d);
      var nextCol := col + Delta(heading);
      if nextCol <= 0 || nextCol >= COLS - 1 then None
      else Some(Aim(Pos(nextRow, nextCol), heading))
  }

  // The collision tables.

  /**
   * A player bullet, or the upper half of a merged bullet, rising from
   * `row` into `above`: it merges with an enemy or diagonal bullet, kills an
   * enemy or hits the boss, moves into an empty cell, and otherwise (at the
   * top row too) leaves play with its round refunded.
   */
  function RiseTable(row: int, above: Cell): (e: Effect)
    ensures Legal(e, above.kind)
    ensures row <= 1 ==> e == Refund
    ensures row > 1 && (above.kind == EnemyBullet || above.kind == BossDiagonalBullet) ==> e == DrawBoth
    ensures row > 1 && (above.kind == Enemy || above.kind == Boss) ==> e == KillTarget
    ensures row > 1 && above.kind == Empty ==> e == DrawPlayer
    ensures e == Refund || e == DrawBoth || e == KillTarget || e == DrawPlayer
  {
    if row > 1 then
      if above.kind == EnemyBullet || above.kind == BossDiagonalBullet then DrawBoth
      else if above.kind == Enemy || above.kind == Boss then KillTarget
      else if above.kind == Empty then DrawPlayer
      else Refund
    else Refund
  }

  /**
   * An enemy bullet falling from `row` onto `below`: it merges with a player
   * bullet, turns a diagonal bullet into a combined one (keeping its heading,
   * or a coin toss when it has none), hits the player, moves into an empty
   * cell, and is otherwise spent; from row 16 it simply disappears.
   */
  function FallTable(row: int, below: Cell, coin: HDir): (e: Effect)
    ensures Legal(e, below.kind)
    ensures row >= ROWS - 2 ==> e == NoEffect
    ensures row < ROWS - 2 && below.kind == PlayerBullet ==> e == DrawBoth
    ensures row < ROWS - 2 && below.kind == Player ==> e == HitTarget
    ensures row < ROWS - 2 && below.kind == Empty ==> e == DrawEnemy
    ensures e.DrawCombined? ==> below.kind == BossDiagonalBullet
  {
    if row < ROWS - 2 then
      if below.kind == PlayerBullet then DrawBoth
      else if below.kind == BossDiagonalBullet then DrawCombined(if below.occupant.Some? then below.occupant.value else coin)
      else if below.kind == Player then HitTarget
      else if below.kind == Empty then DrawEnemy
      else NoEffect
    else NoEffect
  }

  /** The lower half of a merged bullet falling from `row` onto `below`. */
  function BothFallTable(row: int, below: Cell): (e: Effect)
    ensures Legal(e, below.kind)
    ensures row >= ROWS - 2 ==> e == NoEffect
    ensures row < ROWS - 2 && (below.kind == PlayerBullet || below.kind == BossDiagonalBullet) ==> e == DrawBoth
    ensures row < ROWS - 2 && below.kind == Player ==> e == HitTarget
    ensures row < ROWS - 2 && below.kind == Empty ==> e == DrawEnemy
  {
    if row < ROWS - 2 then
      if below.kind == PlayerBullet || below.kind == BossDiagonalBullet then DrawBoth
      else if below.kind == Player then HitTarget
      else if below.kind == Empty then DrawEnemy
      else NoEffect
    else NoEffect
  }

  /** The diagonal shot a combined bullet sheds, reaching `target` with heading `d`. */
  function ContinuationTable(target: Cell, d: HDir): (e: Effect)
    ensures Legal(e, target.kind)
    ensures target.kind == PlayerBullet ==> e == Absorb
    ensures target.kind == Player ==> e == HitTarget
    ensures target.kind == Empty || target.kind == BossDiagonalBullet ==> e == DrawDiagonal(d)
  {
    if target.kind == PlayerBullet then Absorb
    else if target.kind == Player then HitTarget
    else if target.kind == EnemyBullet then DrawCombined(d)
    else if target.kind == BossDiagonalBullet then DrawDiagonal(d)
    else if target.kind == BossCombinedBullet then Steer(d)
    else if target.kind == BothBullets then NoEffect
    else if target.kind == Empty then DrawDiagonal(d)
    else NoEffect
  }

  /** A diagonal bullet reaching `target` with heading `d`; the coin decides the heading of a combined result. */
  function DiagonalTable(target: Cell, d: HDir, coin: HDir): (e: Effect)
    ensures Legal(e, target.kind)
    ensures target.kind == PlayerBullet ==> e == Absorb
    ensures target.kind == Player ==> e == HitTarget
    ensures target.kind == Empty || target.kind == BossDiagonalBullet ==> e == DrawDiagonal(d)
    ensures target.kind == EnemyBullet ==> e == DrawCombined(coin)
    ensures target.kind == BossCombinedBullet ==> e == Steer(coin)
  {
    if target.kind == PlayerBullet then Absorb
    else if target.kind == EnemyBullet then DrawCombined(coin)
    else if target.kind == BossDiagonalBullet then DrawDiagonal(d)
    else if target.kind == BossCombinedBullet then Steer(coin)
    else if target.kind == BothBullets then NoEffect
    else if target.kind == Player then HitTarget
    else if target.kind == Empty then DrawDiagonal(d)
    else NoEffect
  }

  // The plans of one projectile's step.

  /** `spawnDiagonalContinuation`'s shot from (p.row, p.col) with heading `d`. */
  function Continuation(b: array2<Cell>, p: Pos, d: HDir): (s: Shot)
    requires Shaped(b)
    reads b
    ensures s.at != p || s.effect == NoEffect
    ensures s.effect != NoEffect ==> s.at.row == p.row + 1
  {
    match DiagonalAim(p.row, p.col, d)
    case None => Idle(p)
    case Some(aim) => Shot(aim.at, ContinuationTable(CellAt(b, aim.at.row, aim.at.col), aim.heading))
  }

  /** One player bullet: skipped when stale, unblocked when blocked, otherwise risen by one row. */
  function PlayerBulletPlan(b: array2<Cell>, p: Pos): (plan: Plan)
    requires Shaped(b)
    reads b
    ensures var c := CellAt(b, p.row, p.col);
            (c.kind != PlayerBullet ==> plan.origin == c && plan.first.effect == NoEffect) &&
            (c.kind == PlayerBullet && c.blocked ==> plan.origin == c.(blocked := false) && plan.first.effect == NoEffect) &&
            (c.kind == PlayerBullet && !c.blocked ==> plan.origin == EmptyCell && plan.first.effect != NoEffect)
    ensures plan.first.at == Pos(p.row - 1, p.col) && plan.second == Idle(p)
    ensures p.row <= 1 && CellAt(b, p.row, p.col) == Cell(PlayerBullet, false, None) ==> plan.first.effect == Refund
  {
    var c := CellAt(b, p.row, p.col);
    var up := Pos(p.row - 1, p.col);
    if c.kind != PlayerBullet then Plan(c, Idle(up), Idle(p), [])
    else if c.blocked then Plan(c.(blocked := false), Idle(up), Idle(p), [])
    else Plan(EmptyCell, Shot(up, RiseTable(p.row, CellAt(b, up.row, up.col))), Idle(p), [])
  }

  /** One merged bullet: its upper half rises as a player bullet, then its lower half falls. */
  function BothPlan(b: array2<Cell>, p: Pos): (plan: Plan)
    requires Shaped(b)
    reads b
    ensures var c := CellAt(b, p.row, p.col);
            (c.kind != BothBullets ==> plan.origin == c && plan.first.effect == NoEffect && plan.second.effect == NoEffect) &&
            (c.kind == BothBullets && c.blocked ==>
               plan.origin == c.(blocked := false) && plan.first.effect == NoEffect && plan.second.effect == NoEffect) &&
            (c.kind == BothBullets && !c.blocked ==> plan.origin == EmptyCell && plan.first.effect != NoEffect)
    ensures plan.first.at == Pos(p.row - 1, p.col) && plan.second.at == Pos(p.row + 1, p.col)
  {
    var c := CellAt(b, p.row, p.col);
    var up := Pos(p.row - 1, p.col);
    var down := Pos(p.row + 1, p.col);
    if c.kind != BothBullets then Plan(c, Idle(up), Idle(down), [])
    else if c.blocked then Plan(c.(blocked := false), Idle(up), Idle(down), [])
    else Plan(EmptyCell, Shot(up, RiseTable(p.row, CellAt(b, up.row, up.col))),
              Shot(down, BothFallTable(p.row, CellAt(b, down.row, down.col))), [])
  }

  /**
   * One enemy or combined bullet (`kind`). A combined bullet first sheds a
   * diagonal shot (even while blocked); a bullet that is not blocked then
   * vacates its cell and falls as a plain enemy bullet.
   */
  function EnemyBulletPlan(b: array2<Cell>, p: Pos, kind: CellKind, tape: seq<nat>): (plan: Plan)
    requires Shaped(b)
    reads b
    ensures var c := CellAt(b, p.row, p.col);
            (c.kind != kind ==> plan.origin == c && plan.rest == tape &&
                                plan.first.effect == NoEffect && plan.second.effect == NoEffect) &&
            (c.kind == kind && c.blocked ==> plan.origin == c.(blocked := false) && plan.second.effect == NoEffect) &&
            (c.kind == kind && !c.blocked ==> plan.origin == EmptyCell)
    ensures kind != BossCombinedBullet ==> plan.first.effect == NoEffect
    ensures p.row >= ROWS - 2 ==> plan.second.effect == NoEffect
    ensures plan.second.at == Pos(p.row + 1, p.col)
    ensures plan.first.at != p || plan.first.effect == NoEffect
    ensures plan.second.at != p && (plan.first.at != plan.second.at || plan.first.effect == NoEffect)
  {
    var c := CellAt(b, p.row, p.col);
    var down := Pos(p.row + 1, p.col);
    if c.kind != kind then Plan(c, Idle(p), Idle(down), tape)
    else
      var combined := kind == BossCombinedBullet;
      var tape1 := if combined then AfterHeading(c.occupant, tape) else tape;
      var shed := if combined then Continuation(b, p, Heading(c.occupant, tape)) else Idle(p);
      if c.blocked then Plan(c.(blocked := false), shed, Idle(down), tape1)
      else
        var below := CellAt(b, down.row, down.col);
        var tossed := p.row < ROWS - 2 && below.kind == BossDiagonalBullet && below.occupant.None?;
        Plan(EmptyCell, shed, Shot(down, FallTable(p.row, below, Coin(tape1))),
             if tossed then Rest(tape1) else tape1)
  }

  /** One diagonal bullet: it vacates its cell and reaches the next row along its bounced heading. */
  function DiagonalPlan(b: array2<Cell>, p: Pos, tape: seq<nat>): (plan: Plan)
    requires Shaped(b)
    reads b
    ensures var c := CellAt(b, p.row, p.col);
            (c.kind != BossDiagonalBullet ==> plan.origin == c && plan.rest == tape && plan.first.effect == NoEffect) &&
            (c.kind == BossDiagonalBullet && c.blocked ==> plan.origin == c.(blocked := false) && plan.first.effect == NoEffect) &&
            (c.kind == BossDiagonalBullet && !c.blocked ==> plan.origin == EmptyCell)
    ensures plan.first.effect != NoEffect ==>
              plan.first.at.row == p.row + 1 && plan.first.at.row < ROWS - 1 && 0 < plan.first.at.col < COLS - 1 &&
              (plan.first.at.col == p.col + 1 || plan.first.at.col == p.col - 1)
    ensures plan.first.at != p || plan.first.effect == NoEffect
    ensures plan.second == Idle(p)
  {
    var c := CellAt(b, p.row, p.col);
    if c.kind != BossDiagonalBullet then Plan(c, Idle(p), Idle(p), tape)
    else if c.blocked then Plan(c.(blocked := false), Idle(p), Idle(p), tape)
    else
      var d := if c.occupant == Some(Left) then Left else Right;
      match DiagonalAim(p.row, p.col, d)
      case None => Plan(EmptyCell, Idle(p), Idle(p), tape)
      case Some(aim) =>
        var target := CellAt(b, aim.at.row, aim.at.col);
        var tossed := target.kind == EnemyBullet || target.kind == BossCombinedBullet;
        Plan(EmptyCell, Shot(aim.at, DiagonalTable(target, aim.heading, Coin(tape))), Idle(p),
             if tossed then Rest(tape) else tape)
  }

  // Carrying the plans out.

  /** Resolves one shot on the board and the state. */
  method ApplyEffect(g: Game, t: Pos, e: Effect)
    requires g.Valid() && InBounds(t.row, t.col) && Legal(e, g.board[t.row, t.col].kind)
    modifies g.board, g`enemies, g`player, g`boss, g`status, g`metrics, g`ammo, g`events
    ensures g.Valid()
    ensures Applied(g, Shot(t, e))
  {
    if e.HitTarget? {
      HitPlayer(g, t.row, t.col);
    } else if e.KillTarget? {
      KillEnemy(g, t.row, t.col);
    } else if e.Refund? || e.Absorb? {
      Recover(g, t, e);
    } else {
      Paint(g, t, e);
    }
  }

  /** A refund, and for `Absorb` the player bullet it clears. */
  method Recover(g: Game, t: Pos, e: Effect)
    requires g.Valid() && InBounds(t.row, t.col) && Legal(e, g.board[t.row, t.col].kind)
    requires e == Refund || e == Absorb
    modifies g.board, g`ammo
    ensures g.Valid()
    ensures Applied(g, Shot(t, e))
  {
    if e == Absorb {
      ClearCell(g.board, t.row, t.col);
    }
    g.ammo := g.ammo.(remainingShots := g.ammo.remainingShots + 1);
  }

  /** The effects that only redraw the reached cell. */
  method Paint(g: Game, t: Pos, e: Effect)
    requires g.Valid() && InBounds(t.row, t.col) && Legal(e, g.board[t.row, t.col].kind)
    requires !(e.HitTarget? || e.KillTarget? || e.Refund? || e.Absorb?)
    modifies g.board
    ensures g.Valid()
    ensures Applied(g, Shot(t, e))
  {
    match e
    case DrawPlayer =>
      DrawPlayerBullet(g.board, t.row, t.col);
    case DrawEnemy =>
      DrawEnemyBullet(g.board, t.row, t.col);
    case DrawBoth =>
      DrawBothBullets(g.board, t.row, t.col);
    case DrawDiagonal(d) =>
      DrawBossDiagonalBullet(g.board, t.row, t.col, d);
    case DrawCombined(d) =>
      DrawBossCombinedBullet(g.board, t.row, t.col, d);
    case Steer(d) =>
      g.board[t.row, t.col] := g.board[t.row, t.col].(occupant := Some(d));
    case NoEffect =>
  }

  /** The one-step grace of a blocked projectile: only its flag is cleared. */
  method Unblock(g: Game, p: Pos)
    requires g.Valid() && InBounds(p.row, p.col)
    modifies g.board
    ensures g.Valid()
    ensures Replaced(g.board, p.row, p.col, old(g.board[p.row, p.col]).(blocked := false))
  {
    g.board[p.row, p.col] := g.board[p.row, p.col].(blocked := false);
  }

  /** A projectile leaves its cell. */
  method Vacate(g: Game, p: Pos)
    requires g.Valid() && InBounds(p.row, p.col)
    requires g.board[p.row, p.col].kind !in {Border, Player, Boss}
    modifies g.board
    ensures g.Valid()
    ensures Replaced(g.board, p.row, p.col, EmptyCell)
  {
    ClearCell(g.board, p.row, p.col);
  }

  /** A projectile leaves its cell at p and resolves one shot elsewhere. */
  method Fly(g: Game, p: Pos, s: Shot)
    requires g.Valid() && InBounds(p.row, p.col) && InBounds(s.at.row, s.at.col) && s.at != p
    requires g.board[p.row, p.col].kind !in {Border, Player, Boss}
    requires Legal(s.effect, g.board[s.at.row, s.at.col].kind)
    modifies g.board, g`enemies, g`player, g`boss, g`status, g`metrics, g`ammo, g`events
    ensures g.Valid()
    ensures Steps(g, p, EmptyCell, s, Idle(p))
  {
    Vacate(g, p);
    ApplyEffect(g, s.at, s.effect);
  }

  /** `spawnDiagonalContinuation`: the diagonal shot a combined bullet at p sheds. */
  method ContinueDiagonal(g: Game, p: Pos, hint: Option<HDir>, rng: Random)
    requires g.Valid() && InBounds(p.row, p.col)
    modifies g.board, g`enemies, g`player, g`boss, g`status, g`metrics, g`ammo, g`events, rng
    ensures g.Valid()
    ensures Applied(g, old(Continuation(g.board, p, Heading(hint, rng.tape))))
    ensures rng.tape == AfterHeading(hint, old(rng.tape))
  {
    var direction: HDir;
    if hint.Some? {
      direction := hint.value;
    } else {
      direction := Toss(rng);
    }
    var aim := DiagonalAim(p.row, p.col, direction);
    if aim.None? {
      return;
    }
    var at := aim.value.at;
    var target := CellAt(g.board, at.row, at.col);
    ApplyEffect(g, at, ContinuationTable(target, aim.value.heading));
  }

  /** One iteration of `movePlayerBullets`. */
  method MovePlayerBullet(g: Game, p: Pos)
    requires g.Valid() && InBounds(p.row, p.col)
    modifies g.board, g`enemies, g`player, g`boss, g`status, g`metrics, g`ammo, g`events
    ensures g.Valid()
    ensures Resolved(g, p, old(PlayerBulletPlan(g.board, p)))
  {
    var cell := GetCell(g.board, p.row, p.col);
    if cell.None? || cell.value.kind != PlayerBullet {
      return;
    }
    if cell.value.blocked {
      Unblock(g, p);
      return;
    }
    InsideRing(g.board, p.row, p.col);
    var above := CellAt(g.board, p.row - 1, p.col);
    Fly(g, p, Shot(Pos(p.row - 1, p.col), RiseTable(p.row, above)));
  }

  /** One iteration of `moveBothBullets`. */
  method MoveBothBullet(g: Game, p: Pos)
    requires g.Valid() && InBounds(p.row, p.col)
    modifies g.board, g`enemies, g`player, g`boss, g`status, g`metrics, g`ammo, g`events
    ensures g.Valid()
    ensures Resolved(g, p, old(BothPlan(g.board, p)))
  {
    var cell := GetCell(g.board, p.row, p.col);
    if cell.None? || cell.value.kind != BothBullets {
      return;
    }
    if cell.value.blocked {
      Unblock(g, p);
      return;
    }
    LaunchBoth(g, p);
  }

  /** A merged bullet that is not blocked: the upper half rises, then the lower half falls. */
  method LaunchBoth(g: Game, p: Pos)
    requires g.Valid() && InBounds(p.row, p.col)
    requires g.board[p.row, p.col].kind == BothBullets && !g.board[p.row, p.col].blocked
    modifies g.board, g`enemies, g`player, g`boss, g`status, g`metrics, g`ammo, g`events
    ensures g.Valid()
    ensures Resolved(g, p, old(BothPlan(g.board, p)))
  {
    InsideRing(g.board, p.row, p.col);
    var above := CellAt(g.board, p.row - 1, p.col);
    var below := CellAt(g.board, p.row + 1, p.col);
    Fly(g, p, Shot(Pos(p.row - 1, p.col), RiseTable(p.row, above)));
    ApplyEffect(g, Pos(p.row + 1, p.col), BothFallTable(p.row, below));
  }

  /** One iteration of `processBullet` in `moveEnemyBullets`, for an enemy or a combined bullet. */
  method MoveEnemyBullet(g: Game, p: Pos, kind: CellKind, rng: Random)
    requires g.Valid() && InBounds(p.row, p.col)
    requires kind == EnemyBullet || kind == BossCombinedBullet
    modifies g.board, g`enemies, g`player, g`boss, g`status, g`metrics, g`ammo, g`events, rng
    ensures g.Valid()
    ensures var plan := old(EnemyBulletPlan(g.board, p, kind, rng.tape));
            Resolved(g, p, plan) && rng.tape == plan.rest
  {
    var cell := GetCell(g.board, p.row, p.col);
    if cell.None? || cell.value.kind != kind {
      return;
    }
    if cell.value.blocked {
      PauseEnemyBullet(g, p, kind, rng);
    } else {
      LaunchEnemyBullet(g, p, kind, rng);
    }
  }

  /** A blocked enemy or combined bullet loses its flag; a combined one still sheds its diagonal shot. */
  method PauseEnemyBullet(g: Game, p: Pos, kind: CellKind, rng: Random)
    requires g.Valid() && InBounds(p.row, p.col)
    requires kind == EnemyBullet || kind == BossCombinedBullet
    requires g.board[p.row, p.col].kind == kind && g.board[p.row, p.col].blocked
    modifies g.board, g`enemies, g`player, g`boss, g`status, g`metrics, g`ammo, g`events, rng
    ensures g.Valid()
    ensures var plan := old(EnemyBulletPlan(g.board, p, kind, rng.tape));
            Resolved(g, p, plan) && rng.tape == plan.rest
  {
    ghost var plan := EnemyBulletPlan(g.board, p, kind, rng.tape);
    var hint := g.board[p.row, p.col].occupant;
    assert plan.origin == g.board[p.row, p.col].(blocked := false);
    Unblock(g, p);
    if kind == BossCombinedBullet {
      assert plan.first == Continuation(g.board, p, Heading(hint, rng.tape));
      ContinueDiagonal(g, p, hint, rng);
    }
  }

  /** An enemy or combined bullet that is not blocked: a combined one sheds its diagonal shot, then it falls. */
  method LaunchEnemyBullet(g: Game, p: Pos, kind: CellKind, rng: Random)
    requires g.Valid() && InBounds(p.row, p.col)
    requires kind == EnemyBullet || kind == BossCombinedBullet
    requires g.board[p.row, p.col].kind == kind && !g.board[p.row, p.col].blocked
    modifies g.board, g`enemies, g`player, g`boss, g`status, g`metrics, g`ammo, g`events, rng
    ensures g.Valid()
    ensures var plan := old(EnemyBulletPlan(g.board, p, kind, rng.tape));
            Resolved(g, p, plan) && rng.tape == plan.rest
  {
    if kind == BossCombinedBullet {
      LaunchCombined(g, p, rng);
    } else {
      Fall(g, p, rng);
    }
  }

  /** A combined bullet that is not blocked sheds its diagonal shot, then falls as an enemy bullet. */
  method LaunchCombined(g: Game, p: Pos, rng: Random)
    requires g.Valid() && InBounds(p.row, p.col)
    requires g.board[p.row, p.col].kind == BossCombinedBullet && !g.board[p.row, p.col].blocked
    modifies g.board, g`enemies, g`player, g`boss, g`status, g`metrics, g`ammo, g`events, rng
    ensures g.Valid()
    ensures var plan := old(EnemyBulletPlan(g.board, p, BossCombinedBullet, rng.tape));
            Resolved(g, p, plan) && rng.tape == plan.rest
  {
    ghost var plan := EnemyBulletPlan(g.board, p, BossCombinedBullet, rng.tape);
    var hint := g.board[p.row, p.col].occupant;
    ghost var tape1 := AfterHeading(hint, rng.tape);
    assert plan.first == Continuation(g.board, p, Heading(hint, rng.tape));
    ContinueDiagonal(g, p, hint, rng);
    assert rng.tape == tape1;
    Fall(g, p, rng);
  }

  /** An enemy or combined bullet that is not blocked vacates its cell and falls one row. */
  method Fall(g: Game, p: Pos, rng: Random)
    requires g.Valid() && InBounds(p.row, p.col)
    requires g.board[p.row, p.col].kind == EnemyBullet || g.board[p.row, p.col].kind == BossCombinedBullet
    modifies g.board, g`enemies, g`player, g`boss, g`status, g`metrics, g`ammo, g`events, rng
    ensures g.Valid()
    ensures var below := old(CellAt(g.board, p.row + 1, p.col));
            Steps(g, p, EmptyCell, Idle(p), Shot(Pos(p.row + 1, p.col), FallTable(p.row, below, Coin(old(rng.tape))))) &&
            rng.tape == if p.row < ROWS - 2 && below.kind == BossDiagonalBullet && below.occupant.None?
                        then Rest(old(rng.tape)) else old(rng.tape)
  {
    InsideRing(g.board, p.row, p.col);
    var effect := FallEffect(g.board, p, rng);
    Fly(g, p, Shot(Pos(p.row + 1, p.col), effect));
  }

  /** The fall's collision, drawing a heading only for a diagonal bullet that has none. */
  method FallEffect(b: array2<Cell>, p: Pos, rng: Random) returns (effect: Effect)
    requires Shaped(b)
    modifies rng
    ensures var below := CellAt(b, p.row + 1, p.col);
            effect == FallTable(p.row, below, Coin(old(rng.tape))) &&
            rng.tape == if p.row < ROWS - 2 && below.kind == BossDiagonalBullet && below.occupant.None?
                        then Rest(old(rng.tape)) else old(rng.tape)
  {
    var below := CellAt(b, p.row + 1, p.col);
    var coin := Right;
    if p.row < ROWS - 2 && below.kind == BossDiagonalBullet && below.occupant.None? {
      coin := Toss(rng);
    }
    effect := FallTable(p.row, below, coin);
  }

  /** One iteration of `moveBossDiagonalBullets`. */
  method MoveDiagonalBullet(g: Game, p: Pos, rng: Random)
    requires g.Valid() && InBounds(p.row, p.col)
    modifies g.board, g`enemies, g`player, g`boss, g`status, g`metrics, g`ammo, g`events, rng
    ensures g.Valid()
    ensures var plan := old(DiagonalPlan(g.board, p, rng.tape));
            Resolved(g, p, plan) && rng.tape == plan.rest
  {
    var cell := GetCell(g.board, p.row, p.col);
    if cell.None? || cell.value.kind != BossDiagonalBullet {
      return;
    }
    if cell.value.blocked {
      Unblock(g, p);
      return;
    }
    LaunchDiagonal(g, p, rng);
  }

  /** A diagonal bullet that is not blocked vacates its cell and reaches the next row, if any. */
  method LaunchDiagonal(g: Game, p: Pos, rng: Random)
    requires g.Valid() && InBounds(p.row, p.col)
    requires g.board[p.row, p.col].kind == BossDiagonalBullet && !g.board[p.row, p.col].blocked
    modifies g.board, g`enemies, g`player, g`boss, g`status, g`metrics, g`ammo, g`events, rng
    ensures g.Valid()
    ensures var plan := old(DiagonalPlan(g.board, p, rng.tape));
            Resolved(g, p, plan) && rng.tape == plan.rest
  {
    ghost var plan := DiagonalPlan(g.board, p, rng.tape);
    var direction := if g.board[p.row, p.col].occupant == Some(Left) then Left else Right;
    var aim := DiagonalAim(p.row, p.col, direction);
    if aim.None? {
      assert plan == Plan(EmptyCell, Idle(p), Idle(p), rng.tape);
      Vacate(g, p);
      return;
    }
    var at := aim.value.at;
    var target := CellAt(g.board, at.row, at.col);
    var effect := DiagonalEffect(target, aim.value.heading, rng);
    Fly(g, p, Shot(at, effect));
  }

  /** The diagonal collision, drawing a heading only when the target is an enemy or combined bullet. */
  method DiagonalEffect(target: Cell, d: HDir, rng: Random) returns (effect: Effect)
    modifies rng
    ensures effect == DiagonalTable(target, d, Coin(old(rng.tape)))
    ensures rng.tape == if target.kind == EnemyBullet || target.kind == BossCombinedBullet
                        then Rest(old(rng.tape)) else old(rng.tape)
  {
    var coin := Right;
    if target.kind == EnemyBullet || target.kind == BossCombinedBullet {
      coin := Toss(rng);
    }
    effect := DiagonalTable(target, d, coin);
  }

  // The four families, each over a snapshot taken before it moves.

  /** `moveEnemyBullets`: both snapshots first, then every combined bullet, then every plain enemy bullet. */
  method MoveEnemyBullets(g: Game, rng: Random)
    requires g.Valid()
    modifies g.board, g`enemies, g`player, g`boss, g`status, g`metrics, g`ammo, g`events, rng
    ensures g.Valid()
  {
    var enemyCoords := CollectCellsOfType(g.board, EnemyBullet);
    var combinedCoords := CollectCellsOfType(g.board, BossCombinedBullet);
    for i := 0 to |combinedCoords|
      invariant g.Valid()
      invariant forall j :: 0 <= j < |combinedCoords| ==> InBounds(combinedCoords[j].row, combinedCoords[j].col)
    {
      MoveEnemyBullet(g, combinedCoords[i], BossCombinedBullet, rng);
    }
    for i := 0 to |enemyCoords|
      invariant g.Valid()
      invariant forall j :: 0 <= j < |enemyCoords| ==> InBounds(enemyCoords[j].row, enemyCoords[j].col)
    {
      MoveEnemyBullet(g, enemyCoords[i], EnemyBullet, rng);
    }
  }

  /** `movePlayerBullets`. */
  method MovePlayerBullets(g: Game)
    requires g.Valid()
    modifies g.board, g`enemies, g`player, g`boss, g`status, g`metrics, g`ammo, g`events
    ensures g.Valid()
  {
    var coords := CollectCellsOfType(g.board, PlayerBullet);
    for i := 0 to |coords|
      invariant g.Valid()
      invariant forall j :: 0 <= j < |coords| ==> InBounds(coords[j].row, coords[j].col)
    {
      MovePlayerBullet(g, coords[i]);
    }
  }

  /** `moveBothBullets`. */
  method MoveBothBullets(g: Game)
    requires g.Valid()
    modifies g.board, g`enemies, g`player, g`boss, g`status, g`metrics, g`ammo, g`events
    ensures g.Valid()
  {
    var coords := CollectCellsOfType(g.board, BothBullets);
    for i := 0 to |coords|
      invariant g.Valid()
      invariant forall j :: 0 <= j < |coords| ==> InBounds(coords[j].row, coords[j].col)
    {
      MoveBothBullet(g, coords[i]);
    }
  }

  /** `moveBossDiagonalBullets`. */
  method MoveDiagonalBullets(g: Game, rng: Random)
    requires g.Valid()
    modifies g.board, g`enemies, g`player, g`boss, g`status, g`metrics, g`ammo, g`events, rng
    ensures g.Valid()
  {
    var coords := CollectCellsOfType(g.board, BossDiagonalBullet);
    for i := 0 to |coords|
      invariant g.Valid()
      invariant forall j :: 0 <= j < |coords| ==> InBounds(coords[j].row, coords[j].col)
    {
      MoveDiagonalBullet(g, coords[i], rng);
    }
  }
}
