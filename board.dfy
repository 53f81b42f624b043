/** One side's 10x10 grid (src/game/board.ts, cell type of types/game.d.ts):
    placement with bounds and collision checks, attack resolution, sunk
    marking and the masked view shown to the opponent. */
module Boards {
  import opened Common
  import opened Ships

  /** What a cell records about the ship occupying it. */
  datatype Occupant = Occupant(idx: int, isSunk: bool, name: string, length: nat, axis: Axis)

  datatype Cell = Cell(isHit: bool, hasShip: Option<Occupant>)

  /** Rows of cells; a board is always BoardSize x BoardSize. */
  type Grid = seq<seq<Cell>>

  predicate WellFormed(g: Grid) {
    |g| == BoardSize && forall i :: 0 <= i < |g| ==> |g[i]| == BoardSize
  }

  function At(g: Grid, p: Pos): Cell
    requires WellFormed(g) && InBounds(p)
  {
    g[p.row][p.col]
  }

  /** Replaces one cell and nothing else. */
  function Update(g: Grid, p: Pos, c: Cell): (r: Grid)
    requires WellFormed(g) && InBounds(p)
    ensures WellFormed(r)
    ensures At(r, p) == c
    ensures forall q :: InBounds(q) && q != p ==> At(r, q) == At(g, q)
  {
    g[p.row := g[p.row][p.col := c]]
  }

  const EmptyCell: Cell := Cell(false, None)

  /** generateEmptyBoard: every one of the 100 cells unhit and empty. */
  function EmptyGrid(): (g: Grid)
    ensures WellFormed(g)
    ensures forall p :: InBounds(p) ==> At(g, p) == EmptyCell
  {
    seq(BoardSize, _ => seq(BoardSize, _ => EmptyCell))
  }

  // ---------------------------------------------------------------------
  // Placement

  /** The i-th cell of a ship placed at (row, col) along axis. */
  function CellOf(row: int, col: int, axis: Axis, i: int): Pos {
    if axis == X then Pos(row, col + i) else Pos(row + i, col)
  }

  /** The ordered positions a placed ship records. */
  function ShipCells(row: int, col: int, axis: Axis, len: nat): (r: seq<Pos>)
    ensures |r| == len
    ensures forall i :: 0 <= i < len ==> r[i] == CellOf(row, col, axis, i)
  {
    seq(len, i => CellOf(row, col, axis, i))
  }

  lemma ShipCellsSnoc(row: int, col: int, axis: Axis, i: nat)
    ensures ShipCells(row, col, axis, i + 1) == ShipCells(row, col, axis, i) + [CellOf(row, col, axis, i)]
  {
  }

  lemma ShipCellsDistinct(row: int, col: int, axis: Axis, len: nat)
    ensures Distinct(ShipCells(row, col, axis, len))
  {
  }

  /** The end cell that is checked against the grid's upper bounds. */
  function EndRow(row: int, axis: Axis, len: nat): int {
    if axis == X then row else row + len - 1
  }

  function EndCol(col: int, axis: Axis, len: nat): int {
    if axis == Y then col else col + len - 1
  }

  /** For a ship of positive length from a nonnegative origin, the upper-bound
      test on the end cell is exactly "every cell of the ship is on the grid". */
  lemma EndCheckIsBoundsCheck(row: nat, col: nat, axis: Axis, len: nat)
    requires len > 0
    ensures (EndRow(row, axis, len) < BoardSize && EndCol(col, axis, len) < BoardSize)
        <==> AllInBounds(ShipCells(row, col, axis, len))
  {
    var cells := ShipCells(row, col, axis, len);
    assert cells[len - 1] == CellOf(row, col, axis, len - 1) && cells[len - 1] in cells;
    if EndRow(row, axis, len) < BoardSize && EndCol(col, axis, len) < BoardSize {
      forall p | p in cells ensures InBounds(p) {
        var i :| 0 <= i < len && cells[i] == p;
      }
    }
  }

  /** A ship whose cell list is on the grid has each of its cells on the grid. */
  lemma CellsInBounds(row: int, col: int, axis: Axis, len: nat)
    requires AllInBounds(ShipCells(row, col, axis, len))
    ensures forall k :: 0 <= k < len ==> InBounds(CellOf(row, col, axis, k))
  {
    forall k | 0 <= k < len ensures InBounds(CellOf(row, col, axis, k)) {
      assert ShipCells(row, col, axis, len)[k] == CellOf(row, col, axis, k);
    }
  }

  /** The scan of isNotCollision, from the i-th cell on. */
  function CellsFree(g: Grid, row: int, col: int, axis: Axis, i: nat, len: nat): (r: bool)
    requires WellFormed(g) && i <= len
    requires forall k :: i <= k < len ==> InBounds(CellOf(row, col, axis, k))
    ensures r <==> forall k :: i <= k < len ==> At(g, CellOf(row, col, axis, k)).hasShip.None?
    decreases len - i
  {
    if i == len then true
    else if At(g, CellOf(row, col, axis, i)).hasShip.Some? then false
    else CellsFree(g, row, col, axis, i + 1, len)
  }

  /** isNotCollision: only the end cell is checked against the upper bounds
      (the origin is a nonnegative coordinate), then every cell must be empty. */
  function IsNotCollision(g: Grid, len: nat, row: nat, col: nat, axis: Axis): (r: bool)
    requires WellFormed(g)
    ensures r <==> EndRow(row, axis, len) < BoardSize && EndCol(col, axis, len) < BoardSize
                   && forall k :: 0 <= k < len ==> At(g, CellOf(row, col, axis, k)).hasShip.None?
    ensures r ==> AllInBounds(ShipCells(row, col, axis, len))
  {
    if EndRow(row, axis, len) >= BoardSize || EndCol(col, axis, len) >= BoardSize then false
    else CellsFree(g, row, col, axis, 0, len)
  }

  /** The occupant record written into the i-th cell of a placed ship. */
  function OccupantOf(name: string, len: nat, axis: Axis, i: int): Occupant {
    Occupant(i, false, name, len, axis)
  }

  /** Gives a cell an occupant, keeping its hit flag. */
  function Claim(g: Grid, p: Pos, o: Occupant): Grid
    requires WellFormed(g) && InBounds(p)
  {
    Update(g, p, At(g, p).(hasShip := Some(o)))
  }

  /** The grid after the first i iterations of placeShip's loop. */
  function PlaceCells(g: Grid, name: string, len: nat, row: int, col: int, axis: Axis, i: nat): (r: Grid)
    requires WellFormed(g) && i <= len
    requires forall k :: 0 <= k < i ==> InBounds(CellOf(row, col, axis, k))
    ensures WellFormed(r)
    ensures forall k :: 0 <= k < i ==>
      At(r, CellOf(row, col, axis, k)) == Cell(At(g, CellOf(row, col, axis, k)).isHit, Some(OccupantOf(name, len, axis, k)))
    ensures forall q :: InBounds(q) && q !in ShipCells(row, col, axis, i) ==> At(r, q) == At(g, q)
  {
    if i == 0 then g
    else Claim(PlaceCells(g, name, len, row, col, axis, i - 1), CellOf(row, col, axis, i - 1), OccupantOf(name, len, axis, i - 1))
  }

  /** placeShip on the grid: None when rejected, else the grid with the ship. */
  function PlaceOnGrid(g: Grid, name: string, len: nat, row: nat, col: nat, axis: Axis): Option<Grid>
    requires WellFormed(g)
  {
    if IsNotCollision(g, len, row, col, axis) then Some(PlaceCells(g, name, len, row, col, axis, len))
    else None
  }

  /** Placement never overwrites an occupied cell and changes only the ship's
      own cells, each of which gets its occupant record. */
  lemma PlaceOnGridEffect(g: Grid, name: string, len: nat, row: nat, col: nat, axis: Axis)
    requires WellFormed(g)
    requires PlaceOnGrid(g, name, len, row, col, axis).Some?
    ensures var r := PlaceOnGrid(g, name, len, row, col, axis).value;
      && WellFormed(r)
      && (forall q :: InBounds(q) && At(g, q).hasShip.Some? ==> At(r, q) == At(g, q))
      && (forall q :: InBounds(q) && q !in ShipCells(row, col, axis, len) ==> At(r, q) == At(g, q))
      && (forall k :: 0 <= k < len ==>
            At(r, CellOf(row, col, axis, k)) == Cell(At(g, CellOf(row, col, axis, k)).isHit, Some(OccupantOf(name, len, axis, k))))
      && (forall q :: InBounds(q) ==> At(r, q).isHit == At(g, q).isHit)
  {
    var r := PlaceOnGrid(g, name, len, row, col, axis).value;
    var cells := ShipCells(row, col, axis, len);
    forall q | InBounds(q) && At(g, q).hasShip.Some?
      ensures At(r, q) == At(g, q)
    {
      forall k | 0 <= k < len ensures q != CellOf(row, col, axis, k) {
        assert At(g, CellOf(row, col, axis, k)).hasShip.None?;
      }
    }
    forall q | InBounds(q) && q !in cells
      ensures At(r, q) == At(g, q)
    {
      forall k | 0 <= k < len ensures q != CellOf(row, col, axis, k) {
        assert cells[k] == CellOf(row, col, axis, k);
      }
    }
    forall q | InBounds(q) ensures At(r, q).isHit == At(g, q).isHit {
      if k :| 0 <= k < len && q == CellOf(row, col, axis, k) {
      }
    }
  }

  // ---------------------------------------------------------------------
  // Attacks and sinking

  /** Marks one cell hit. */
  function SetHit(g: Grid, p: Pos): (r: Grid)
    requires WellFormed(g) && InBounds(p)
    ensures WellFormed(r)
  {
    Update(g, p, At(g, p).(isHit := true))
  }

  /** receiveAttack, in the source's order: a closed board answers false before
      any bounds check, an out-of-range coordinate throws, a cell already hit
      answers false, and otherwise the cell becomes hit and the answer is true.
      The grid is returned with the answer. */
  function Attack(g: Grid, allowed: bool, row: int, col: int): (Grid, Result<bool>)
    requires WellFormed(g)
  {
    if !allowed then (g, Ok(false))
    else if !InBounds(Pos(row, col)) then (g, Err(OutOfBounds))
    else if At(g, Pos(row, col)).isHit then (g, Ok(false))
    else (SetHit(g, Pos(row, col)), Ok(true))
  }

  /** An attack is accepted exactly when the board is open, the coordinate is
      on the grid and the cell is unhit; it then sets that one hit flag. Any
      other outcome leaves the grid as it was. */
  lemma AttackEffect(g: Grid, allowed: bool, row: int, col: int)
    requires WellFormed(g)
    ensures var (r, res) := Attack(g, allowed, row, col);
      && WellFormed(r)
      && (res == Ok(true) <==> allowed && InBounds(Pos(row, col)) && !At(g, Pos(row, col)).isHit)
      && (res.Err? <==> allowed && !InBounds(Pos(row, col)))
      && (res != Ok(true) ==> r == g)
      && (res == Ok(true) ==>
            && At(r, Pos(row, col)) == At(g, Pos(row, col)).(isHit := true)
            && forall q :: InBounds(q) && q != Pos(row, col) ==> At(r, q) == At(g, q))
  {
  }

  /** A second attack on the same cell is refused and changes nothing, so an
      attack succeeds at most once per cell. */
  lemma AttackAtMostOnce(g: Grid, allowed: bool, row: int, col: int)
    requires WellFormed(g)
    requires Attack(g, allowed, row, col).1 == Ok(true)
    ensures var g1 := Attack(g, allowed, row, col).0;
      Attack(g1, allowed, row, col) == (g1, Ok(false))
  {
  }

  /** setIsSunk: flags the occupant of the cell as sunk; no-op on an empty cell. */
  function SetSunk(g: Grid, p: Pos): (r: Grid)
    requires WellFormed(g) && InBounds(p)
    ensures WellFormed(r)
    ensures At(g, p).hasShip.None? ==> r == g
    ensures At(g, p).hasShip.Some? ==>
      At(r, p) == At(g, p).(hasShip := Some(At(g, p).hasShip.value.(isSunk := true)))
    ensures forall q :: InBounds(q) && q != p ==> At(r, q) == At(g, q)
  {
    var c := At(g, p);
    if c.hasShip.Some? then Update(g, p, c.(hasShip := Some(c.hasShip.value.(isSunk := true))))
    else g
  }

  /** The setIsSunk calls over a sunk ship's positions, in order. */
  function MarkSunkAll(g: Grid, ps: seq<Pos>): (r: Grid)
    requires WellFormed(g) && AllInBounds(ps)
    ensures WellFormed(r)
    decreases |ps|
  {
    if ps == [] then g else SetSunk(MarkSunkAll(g, ps[..|ps| - 1]), ps[|ps| - 1])
  }

  /** Two grids agree on everything but the occupants' sunk flags. */
  ghost predicate SameButSunk(g: Grid, r: Grid)
    requires WellFormed(g) && WellFormed(r)
  {
    forall q :: InBounds(q) ==>
      && At(r, q).isHit == At(g, q).isHit
      && At(r, q).hasShip.Some? == At(g, q).hasShip.Some?
      && (At(g, q).hasShip.Some? ==> At(r, q).hasShip.value == At(g, q).hasShip.value.(isSunk := At(r, q).hasShip.value.isSunk))
  }

  /** Sunk-marking sets the flag on every occupied cell listed, touches no
      other cell, and changes nothing but sunk flags. */
  lemma {:induction false} MarkSunkAllEffect(g: Grid, ps: seq<Pos>)
    requires WellFormed(g) && AllInBounds(ps)
    ensures var r := MarkSunkAll(g, ps);
      && SameButSunk(g, r)
      && (forall p :: p in ps && At(g, p).hasShip.Some? ==> At(r, p).hasShip.value.isSunk)
      && (forall q :: InBounds(q) && q !in ps ==> At(r, q) == At(g, q))
    decreases |ps|
  {
    if ps != [] {
      var init := ps[..|ps| - 1];
      var last := ps[|ps| - 1];
      MarkSunkAllEffect(g, init);
      var m := MarkSunkAll(g, init);
      var r := MarkSunkAll(g, ps);
      assert r == SetSunk(m, last);
      forall p | p in ps && At(g, p).hasShip.Some? ensures At(r, p).hasShip.value.isSunk {
        if p != last {
          assert p in init;
        }
      }
      forall q | InBounds(q) && q !in ps ensures At(r, q) == At(g, q) {
        assert q !in init;
      }
    }
  }

  // ---------------------------------------------------------------------
  // Fog of war

  /** A masked cell keeps its hit flag and shows its occupant only if hit. */
  function MaskCell(c: Cell): Cell {
    Cell(c.isHit, if c.isHit then c.hasShip else None)
  }

  /** getMaskedBoard: the only view of a grid that the opponent receives. */
  function Mask(g: Grid): (m: Grid)
    requires WellFormed(g)
    ensures WellFormed(m)
    ensures forall p :: InBounds(p) ==> At(m, p).isHit == At(g, p).isHit
    ensures forall p :: InBounds(p) && At(m, p).hasShip.Some? ==> At(g, p).isHit
    ensures forall p :: InBounds(p) && At(g, p).isHit ==> At(m, p) == At(g, p)
  {
    seq(BoardSize, i requires 0 <= i < BoardSize => seq(BoardSize, j requires 0 <= j < BoardSize => MaskCell(g[i][j])))
  }

  /** What an opponent is entitled to know about a grid: the hit flags, and the
      occupants of hit cells. */
  ghost predicate PublicAgree(g1: Grid, g2: Grid)
    requires WellFormed(g1) && WellFormed(g2)
  {
    forall p :: InBounds(p) ==>
      && At(g1, p).isHit == At(g2, p).isHit
      && (At(g1, p).isHit ==> At(g1, p).hasShip == At(g2, p).hasShip)
  }

  lemma GridExt(a: Grid, b: Grid)
    requires WellFormed(a) && WellFormed(b)
    requires forall p :: InBounds(p) ==> At(a, p) == At(b, p)
    ensures a == b
  {
    forall i | 0 <= i < BoardSize ensures a[i] == b[i] {
      forall j | 0 <= j < BoardSize ensures a[i][j] == b[i][j] {
        assert At(a, Pos(i, j)) == At(b, Pos(i, j));
      }
    }
  }

  /** Masking hides exactly what it should: two grids have the same masked
      view if and only if they agree on the public part. Nothing about an
      unhit cell's occupant influences the view. */
  lemma MaskNonInterference(g1: Grid, g2: Grid)
    requires WellFormed(g1) && WellFormed(g2)
    ensures Mask(g1) == Mask(g2) <==> PublicAgree(g1, g2)
  {
    if PublicAgree(g1, g2) {
      forall p | InBounds(p) ensures At(Mask(g1), p) == At(Mask(g2), p) {
        assert At(Mask(g1), p) == MaskCell(At(g1, p));
        assert At(Mask(g2), p) == MaskCell(At(g2, p));
      }
      GridExt(Mask(g1), Mask(g2));
    }
  }

  /** Masking an already masked grid changes nothing. */
  lemma MaskIdempotent(g: Grid)
    requires WellFormed(g)
    ensures Mask(Mask(g)) == Mask(g)
  {
    forall p | InBounds(p) ensures At(Mask(Mask(g)), p) == At(Mask(g), p) {
      assert At(Mask(Mask(g)), p) == MaskCell(At(Mask(g), p));
      assert At(Mask(g), p) == MaskCell(At(g, p));
    }
    GridExt(Mask(Mask(g)), Mask(g));
  }

  // ---------------------------------------------------------------------
  // The object

  class Board {
    var cells: Grid
    var allowed: bool

    ghost predicate Valid()
      reads this
    {
      WellFormed(cells)
    }

    /** A new board: empty grid, open for attacks. */
    constructor ()
      ensures Valid() && cells == EmptyGrid() && allowed
    {
      cells := EmptyGrid();
      allowed := true;
    }

    /** getBoard: the full grid, unhit ships included. */
    function GetBoard(): Grid
      reads this
    {
      cells
    }

    /** resetBoard: back to an empty grid, open for attacks. */
    method ResetBoard()
      modifies this
      ensures Valid() && cells == EmptyGrid() && allowed
    {
      cells := EmptyGrid();
      allowed := true;
    }

    /** placeShip: rejected with no change to board or ship unless the ship
        fits; otherwise claims its cells in order and records them on it. */
    method PlaceShip(ship: Ship, row: nat, col: nat, axis: Axis) returns (ok: bool)
      requires Valid()
      modifies this`cells, ship`positions
      ensures Valid()
      ensures ok == IsNotCollision(old(cells), ship.length, row, col, axis)
      ensures ok ==> Some(cells) == PlaceOnGrid(old(cells), ship.name, ship.length, row, col, axis)
      ensures ok ==> ship.positions == ShipCells(row, col, axis, ship.length)
      ensures !ok ==> cells == old(cells) && ship.positions == old(ship.positions)
    {
      if !IsNotCollision(cells, ship.length, row, col, axis) {
        return false;
      }
      CellsInBounds(row, col, axis, ship.length);
      var shipLocations := WriteShip(ship.name, ship.length, row, col, axis);
      var _ := ship.SetPositions(shipLocations);
      ok := true;
    }

    /** The writing loop of placeShip: claims the ship's cells one by one and
        collects their positions. */
    method WriteShip(name: string, len: nat, row: int, col: int, axis: Axis) returns (shipLocations: seq<Pos>)
      requires Valid()
      requires forall k :: 0 <= k < len ==> InBounds(CellOf(row, col, axis, k))
      modifies this`cells
      ensures Valid()
      ensures cells == PlaceCells(old(cells), name, len, row, col, axis, len)
      ensures shipLocations == ShipCells(row, col, axis, len)
    {
      ghost var cells0 := cells;
      shipLocations := [];
      for i := 0 to len
        invariant shipLocations == ShipCells(row, col, axis, i)
        invariant cells == PlaceCells(cells0, name, len, row, col, axis, i)
      {
        var position := CellOf(row, col, axis, i);
        ShipCellsSnoc(row, col, axis, i);
        shipLocations := shipLocations + [position];
        ClaimNext(cells0, name, len, row, col, axis, i);
      }
    }

    /** One iteration of placeShip's loop on the grid. */
    method ClaimNext(ghost g: Grid, name: string, len: nat, row: int, col: int, axis: Axis, i: nat)
      requires WellFormed(g) && i < len
      requires forall k :: 0 <= k < len ==> InBounds(CellOf(row, col, axis, k))
      requires cells == PlaceCells(g, name, len, row, col, axis, i)
      modifies this`cells
      ensures cells == PlaceCells(g, name, len, row, col, axis, i + 1)
    {
      cells := Claim(cells, CellOf(row, col, axis, i), OccupantOf(name, len, axis, i));
    }

    /** setIsSunk on one cell of the grid. */
    method SetIsSunk(row: int, col: int)
      requires Valid() && InBounds(Pos(row, col))
      modifies this`cells
      ensures Valid()
      ensures cells == SetSunk(old(cells), Pos(row, col))
    {
      var currentCell := At(cells, Pos(row, col));
      if currentCell.hasShip.Some? {
        cells := Update(cells, Pos(row, col), currentCell.(hasShip := Some(currentCell.hasShip.value.(isSunk := true))));
      }
    }

    /** receiveAttack. */
    method ReceiveAttack(row: int, col: int) returns (r: Result<bool>)
      requires Valid()
      modifies this`cells
      ensures Valid()
      ensures (cells, r) == Attack(old(cells), allowed, row, col)
    {
      if !allowed {
        return Ok(false);
      }
      if row < 0 || row >= BoardSize || col < 0 || col >= BoardSize {
        return Err(OutOfBounds);
      }
      if At(cells, Pos(row, col)).isHit {
        return Ok(false);
      }
      cells := SetHit(cells, Pos(row, col));
      r := Ok(true);
    }
  }
}
