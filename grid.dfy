/**
 * Grid primitives over the 18x18 board (engine/grid.js): bounds-checked
 * access, the border-protecting writers, `MoveCell`, the row-major scan and
 * the row filler. The board is an `array2<Cell>` written in place.
 */
module Grid {
  import opened Constants

  predicate InBounds(row: int, col: int) {
    0 <= row < ROWS && 0 <= col < COLS
  }

  /** The outer ring of the board. */
  predicate OnBorder(row: int, col: int) {
    row == 0 || row == ROWS - 1 || col == 0 || col == COLS - 1
  }

  const BorderCell: Cell := Cell(Border, false, None)
  /** The cell `clearCell` leaves behind. */
  const EmptyCell: Cell := Cell(Empty, false, None)
  const FillerCell: Cell := Cell(Filler, true, None)

  ghost predicate Shaped(b: array2<Cell>) {
    b.Length0 == ROWS && b.Length1 == COLS
  }

  /** Border immutability: every cell of the outer ring is a plain border cell. */
  ghost predicate BorderIntact(b: array2<Cell>)
    reads b
  {
    Shaped(b) && forall r, c :: InBounds(r, c) && OnBorder(r, c) ==> b[r, c] == BorderCell
  }

  predicate KindAt(b: array2<Cell>, row: int, col: int, k: CellKind)
    requires Shaped(b)
    reads b
  {
    InBounds(row, col) && b[row, col].kind == k
  }

  /** A cell the setters are willing to overwrite: in range and not a border. */
  predicate Writable(b: array2<Cell>, row: int, col: int)
    requires Shaped(b)
    reads b
  {
    InBounds(row, col) && b[row, col].kind != Border
  }

  /** What `clearCell` does to one cell. */
  function Cleared(c: Cell): Cell {
    if c.kind == Border then c else EmptyCell
  }

  /** The board is its previous self with the cell at (row, col) replaced by v. */
  twostate predicate Replaced(b: array2<Cell>, row: int, col: int, v: Cell)
    reads b
  {
    Shaped(b) &&
    forall r, c :: InBounds(r, c) ==> b[r, c] == (if r == row && c == col then v else old(b[r, c]))
  }

  /** The board is its previous self with two cells replaced (the first pair wins on a clash). */
  twostate predicate Replaced2(b: array2<Cell>, r1: int, c1: int, v1: Cell, r2: int, c2: int, v2: Cell)
    reads b
  {
    Shaped(b) &&
    forall r, c :: InBounds(r, c) ==>
      b[r, c] == (if r == r1 && c == c1 then v1 else if r == r2 && c == c2 then v2 else old(b[r, c]))
  }

  /** The effect of `moveCell` between two in-range cells. */
  twostate predicate Moved(b: array2<Cell>, fr: int, fc: int, tr: int, tc: int)
    reads b
  {
    Shaped(b) && InBounds(fr, fc) &&
    Replaced2(b, fr, fc, Cleared(old(b[fr, fc])), tr, tc, old(b[fr, fc]))
  }

  /** Only cells whose kind was one of `kinds` may have changed. */
  twostate predicate Confined(b: array2<Cell>, kinds: set<CellKind>)
    reads b
  {
    Shaped(b) && forall r, c :: InBounds(r, c) && old(b[r, c]).kind !in kinds ==> b[r, c] == old(b[r, c])
  }

  /** The row interior `fillRowWithFiller` paints: columns 1..16 of rows 1..16, nothing for other rows. */
  predicate Painted(row: int, r: int, c: int) {
    0 < row < ROWS - 1 && r == row && 0 < c < COLS - 1
  }

  /** The board is its previous self with the interior of `row` painted with filler. */
  twostate predicate Filled(b: array2<Cell>, row: int)
    reads b
  {
    Shaped(b) && forall r, c :: InBounds(r, c) ==> b[r, c] == (if Painted(row, r, c) then FillerCell else old(b[r, c]))
  }

  // The same relations between two distinct boards `t` and `s`, for results built on a copy.

  /** `t` holds the cells of `s`. */
  ghost predicate SameCells(t: array2<Cell>, s: array2<Cell>)
    reads t, s
  {
    Shaped(t) && Shaped(s) && forall r, c :: InBounds(r, c) ==> t[r, c] == s[r, c]
  }

  /** `t` is `s` with the cell at (row, col) replaced by v. */
  ghost predicate ReplacedFrom(t: array2<Cell>, s: array2<Cell>, row: int, col: int, v: Cell)
    reads t, s
  {
    Shaped(t) && Shaped(s) &&
    forall r, c :: InBounds(r, c) ==> t[r, c] == (if r == row && c == col then v else s[r, c])
  }

  /** `t` is `s` after `moveCell` between two in-range cells. */
  ghost predicate MovedFrom(t: array2<Cell>, s: array2<Cell>, fr: int, fc: int, tr: int, tc: int)
    reads t, s
  {
    Shaped(t) && Shaped(s) && InBounds(fr, fc) &&
    forall r, c :: InBounds(r, c) ==>
      t[r, c] == (if r == fr && c == fc then Cleared(s[fr, fc]) else if r == tr && c == tc then s[fr, fc] else s[r, c])
  }

  /** `t` is `s` with the interior of `row` painted with filler. */
  ghost predicate FilledFrom(t: array2<Cell>, s: array2<Cell>, row: int)
    reads t, s
  {
    Shaped(t) && Shaped(s) &&
    forall r, c :: InBounds(r, c) ==> t[r, c] == (if Painted(row, r, c) then FillerCell else s[r, c])
  }

  /** `getCell`: the cell, or nothing when the coordinates are off the board. */
  function GetCell(b: array2<Cell>, row: int, col: int): (cell: Option<Cell>)
    requires Shaped(b)
    reads b
    ensures cell.None? <==> !InBounds(row, col)
    ensures cell.Some? ==> cell.value == b[row, col]
  {
    if InBounds(row, col) then Some(b[row, col]) else None
  }

  /** The cell at (row, col), read as a border cell off the board. */
  function CellAt(b: array2<Cell>, row: int, col: int): (cell: Cell)
    requires Shaped(b)
    reads b
    ensures InBounds(row, col) ==> cell == b[row, col]
    ensures !InBounds(row, col) ==> cell.kind == Border
  {
    if InBounds(row, col) then b[row, col] else BorderCell
  }

  /** A cell other than a border cell lies inside the ring when the border is intact. */
  lemma InsideRing(b: array2<Cell>, row: int, col: int)
    requires BorderIntact(b) && InBounds(row, col) && b[row, col].kind != Border
    ensures 1 <= row <= ROWS - 2 && 1 <= col <= COLS - 2
  {
  }

  /**
   * The heading a diagonal projectile leaves column `col` with: `d` itself,
   * or its reverse when `d` would take it out of columns 1..16. From any of
   * those columns the bounced heading stays inside them.
   */
  function Bounce(col: int, d: HDir): (aim: HDir)
    ensures 0 < col + Delta(d) < COLS - 1 ==> aim == d
    ensures !(0 < col + Delta(d) < COLS - 1) ==> aim == Flip(d)
    ensures 0 < col < COLS - 1 ==> 0 < col + Delta(aim) < COLS - 1
  {
    if 0 < col + Delta(d) < COLS - 1 then d else Flip(d)
  }

  /** `setCellType`: refuses border and off-board cells; `blocked` is set only for both-bullets. */
  method SetCellType(b: array2<Cell>, row: int, col: int, kind: CellKind) returns (written: bool)
    requires Shaped(b)
    modifies b
    ensures written == old(Writable(b, row, col))
    ensures written ==> Replaced(b, row, col, Cell(kind, kind == BothBullets, None))
    ensures !written ==> unchanged(b)
    ensures old(BorderIntact(b)) ==> BorderIntact(b)
  {
    var cell := GetCell(b, row, col);
    if cell.None? || cell.value.kind == Border {
      return false;
    }
    b[row, col] := Cell(kind, kind == BothBullets, None);
    return true;
  }

  method ClearCell(b: array2<Cell>, row: int, col: int)
    requires Shaped(b)
    modifies b
    ensures old(Writable(b, row, col)) ==> Replaced(b, row, col, EmptyCell)
    ensures !old(Writable(b, row, col)) ==> unchanged(b)
    ensures old(BorderIntact(b)) ==> BorderIntact(b)
  {
    var cell := GetCell(b, row, col);
    if cell.None? || cell.value.kind == Border {
      return;
    }
    b[row, col] := EmptyCell;
  }

  method DrawEnemyBullet(b: array2<Cell>, row: int, col: int)
    requires Shaped(b)
    modifies b
    ensures old(Writable(b, row, col)) ==> Replaced(b, row, col, Cell(EnemyBullet, false, None))
    ensures !old(Writable(b, row, col)) ==> unchanged(b)
    ensures old(BorderIntact(b)) ==> BorderIntact(b)
  {
    var written := SetCellType(b, row, col, EnemyBullet);
    if written {
      b[row, col] := b[row, col].(blocked := false);
    }
  }

  method DrawPlayerBullet(b: array2<Cell>, row: int, col: int)
    requires Shaped(b)
    modifies b
    ensures old(Writable(b, row, col)) ==> Replaced(b, row, col, Cell(PlayerBullet, false, None))
    ensures !old(Writable(b, row, col)) ==> unchanged(b)
    ensures old(BorderIntact(b)) ==> BorderIntact(b)
  {
    var written := SetCellType(b, row, col, PlayerBullet);
    if written {
      b[row, col] := b[row, col].(blocked := false);
    }
  }

  /** A merged player+enemy bullet is drawn blocked, so it sits out one step. */
  method DrawBothBullets(b: array2<Cell>, row: int, col: int)
    requires Shaped(b)
    modifies b
    ensures old(Writable(b, row, col)) ==> Replaced(b, row, col, Cell(BothBullets, true, None))
    ensures !old(Writable(b, row, col)) ==> unchanged(b)
    ensures old(BorderIntact(b)) ==> BorderIntact(b)
  {
    var written := SetCellType(b, row, col, BothBullets);
    if written {
      b[row, col] := b[row, col].(blocked := true);
    }
  }

  method DrawBossDiagonalBullet(b: array2<Cell>, row: int, col: int, direction: HDir)
    requires Shaped(b)
    modifies b
    ensures old(Writable(b, row, col)) ==> Replaced(b, row, col, Cell(BossDiagonalBullet, false, Some(direction)))
    ensures !old(Writable(b, row, col)) ==> unchanged(b)
    ensures old(BorderIntact(b)) ==> BorderIntact(b)
  {
    var written := SetCellType(b, row, col, BossDiagonalBullet);
    if written {
      b[row, col] := b[row, col].(blocked := false, occupant := Some(direction));
    }
  }

  method DrawBossCombinedBullet(b: array2<Cell>, row: int, col: int, direction: HDir)
    requires Shaped(b)
    modifies b
    ensures old(Writable(b, row, col)) ==> Replaced(b, row, col, Cell(BossCombinedBullet, false, Some(direction)))
    ensures !old(Writable(b, row, col)) ==> unchanged(b)
    ensures old(BorderIntact(b)) ==> BorderIntact(b)
  {
    var written := SetCellType(b, row, col, BossCombinedBullet);
    if written {
      b[row, col] := b[row, col].(blocked := false, occupant := Some(direction));
    }
  }

  /**
   * `moveCell`: copies the origin cell onto the target and clears the origin.
   * It does not itself protect a border target: callers check the target first.
   */
  method MoveCell(b: array2<Cell>, fromRow: int, fromCol: int, toRow: int, toCol: int)
    requires Shaped(b)
    modifies b
    ensures !(InBounds(fromRow, fromCol) && InBounds(toRow, toCol)) ==> unchanged(b)
    ensures InBounds(fromRow, fromCol) && InBounds(toRow, toCol) ==> Moved(b, fromRow, fromCol, toRow, toCol)
    ensures old(BorderIntact(b)) && !OnBorder(toRow, toCol) ==> BorderIntact(b)
  {
    var origin := GetCell(b, fromRow, fromCol);
    var target := GetCell(b, toRow, toCol);
    if origin.None? || target.None? {
      return;
    }
    b[toRow, toCol] := origin.value;
    ClearCell(b, fromRow, fromCol);
  }

  /** Row-major order on coordinates; strictly increasing means each cell at most once. */
  predicate Before(p: Pos, q: Pos) {
    p.row < q.row || (p.row == q.row && p.col < q.col)
  }

  /** The cells of `kind` among the first `n` columns of `row`, left to right, each once. */
  function RowScan(b: array2<Cell>, row: int, kind: CellKind, n: nat): (found: seq<Pos>)
    requires Shaped(b) && 0 <= row < ROWS && n <= COLS
    reads b
    ensures forall i :: 0 <= i < |found| ==> found[i].row == row && found[i].col < n && KindAt(b, row, found[i].col, kind)
    ensures forall i, j :: 0 <= i < j < |found| ==> found[i].col < found[j].col
    ensures forall c :: c < n && KindAt(b, row, c, kind) ==> Pos(row, c) in found
  {
    if n == 0 then []
    else RowScan(b, row, kind, n - 1) + (if b[row, n - 1].kind == kind then [Pos(row, n - 1)] else [])
  }

  /** The cells of `kind` in the first `n` rows, row by row: each once, in row-major order. */
  function Scan(b: array2<Cell>, kind: CellKind, n: nat): (coords: seq<Pos>)
    requires Shaped(b) && n <= ROWS
    reads b
    ensures forall i :: 0 <= i < |coords| ==> coords[i].row < n && KindAt(b, coords[i].row, coords[i].col, kind)
    ensures forall i, j :: 0 <= i < j < |coords| ==> Before(coords[i], coords[j])
    ensures forall r, c :: r < n && KindAt(b, r, c, kind) ==> Pos(r, c) in coords
  {
    if n == 0 then [] else Scan(b, kind, n - 1) + RowScan(b, n - 1, kind, COLS)
  }

  /** The row-major scan of the whole board for `kind`. */
  function CellsOfType(b: array2<Cell>, kind: CellKind): seq<Pos>
    requires Shaped(b)
    reads b
  {
    Scan(b, kind, ROWS)
  }

  /** `collectCellsOfType`: the row-major scan, so exactly the cells of that kind, each once, in row-major order. */
  method CollectCellsOfType(b: array2<Cell>, kind: CellKind) returns (coords: seq<Pos>)
    requires Shaped(b)
    ensures coords == CellsOfType(b, kind)
    ensures forall i :: 0 <= i < |coords| ==> KindAt(b, coords[i].row, coords[i].col, kind)
    ensures forall i, j :: 0 <= i < j < |coords| ==> Before(coords[i], coords[j])
    ensures forall r, c :: KindAt(b, r, c, kind) ==> Pos(r, c) in coords
  {
    coords := [];
    var row := 0;
    while row < ROWS
      invariant 0 <= row <= ROWS
      invariant coords == Scan(b, kind, row)
    {
      var found := CollectRow(b, row, kind);
      coords := coords + found;
      row := row + 1;
    }
  }

  /** The cells of one row holding `kind`, left to right. */
  method CollectRow(b: array2<Cell>, row: int, kind: CellKind) returns (found: seq<Pos>)
    requires Shaped(b) && 0 <= row < ROWS
    ensures found == RowScan(b, row, kind, COLS)
  {
    found := [];
    var col := 0;
    while col < COLS
      invariant 0 <= col <= COLS
      invariant found == RowScan(b, row, kind, col)
    {
      if b[row, col].kind == kind {
        found := found + [Pos(row, col)];
      }
      col := col + 1;
    }
  }

  /** `fillRowWithFiller`: paints the interior of one interior row; a no-op for rows 0 and 17 and beyond. */
  method FillRowWithFiller(b: array2<Cell>, row: int)
    requires Shaped(b)
    modifies b
    ensures Filled(b, row)
    ensures old(BorderIntact(b)) ==> BorderIntact(b)
  {
    if row <= 0 || row >= ROWS - 1 {
      return;
    }
    var col := 1;
    while col < COLS - 1
      invariant 1 <= col <= COLS - 1
      invariant forall r, c :: InBounds(r, c) ==>
        b[r, c] == (if r == row && 0 < c < col then FillerCell else old(b[r, c]))
    {
      b[row, col] := FillerCell;
      col := col + 1;
    }
  }
}
