/** A ship: its name, length, the ordered cells it occupies and the log of
    hits registered on it (src/game/ship.ts). */
module Ships {
  import opened Common

  /** The value held by a Ship object. */
  datatype ShipState = ShipState(
    name: string,
    length: nat,
    isSunk: bool,
    positions: seq<Pos>,
    hitCells: seq<Pos>)

  /** A ship as the constructor leaves it: not placed, not hit, not sunk. */
  function NewShip(name: string, length: nat): ShipState {
    ShipState(name, length, false, [], [])
  }

  /** The sunk flag as every hit recomputes it: a placed ship whose hit count
      equals its number of positions. Equality, not "at least". */
  predicate SunkByCount(positions: seq<Pos>, hitCells: seq<Pos>) {
    |positions| > 0 && |positions| == |hitCells|
  }

  /** isHit: log the hit and recompute the sunk flag. */
  function Hit(s: ShipState, p: Pos): ShipState {
    s.(hitCells := s.hitCells + [p], isSunk := SunkByCount(s.positions, s.hitCells + [p]))
  }

  /** A sequence of isHit calls, oldest first. */
  function HitAll(s: ShipState, hits: seq<Pos>): ShipState
    decreases |hits|
  {
    if hits == [] then s else HitAll(Hit(s, hits[0]), hits[1..])
  }

  /** Hits only ever append to the log, one entry per call, without looking at
      the positions; the flag afterwards is the count test on the whole log. */
  lemma {:induction false} HitAllEffect(s: ShipState, hits: seq<Pos>)
    ensures HitAll(s, hits).hitCells == s.hitCells + hits
    ensures HitAll(s, hits).positions == s.positions
    ensures HitAll(s, hits).name == s.name && HitAll(s, hits).length == s.length
    ensures hits != [] ==> HitAll(s, hits).isSunk == SunkByCount(s.positions, s.hitCells + hits)
    ensures hits == [] ==> HitAll(s, hits).isSunk == s.isSunk
    decreases |hits|
  {
    if hits != [] {
      HitAllEffect(Hit(s, hits[0]), hits[1..]);
      assert s.hitCells + [hits[0]] + hits[1..] == s.hitCells + hits;
    }
  }

  /** A ship that was never placed can never become sunk, whatever is hit. */
  lemma UnplacedNeverSunk(s: ShipState, hits: seq<Pos>)
    requires s.positions == [] && !s.isSunk
    ensures !HitAll(s, hits).isSunk
  {
    HitAllEffect(s, hits);
  }

  /** A freshly placed ship is sunk after a nonempty run of hits exactly when
      the run is as long as the ship: one hit too many makes it afloat again. */
  lemma SunkExactlyAtLength(s: ShipState, hits: seq<Pos>)
    requires s.hitCells == [] && |s.positions| > 0 && hits != []
    ensures HitAll(s, hits).isSunk <==> |hits| == |s.positions|
  {
    HitAllEffect(s, hits);
  }

  /** A hit on a ship that is already sunk by count clears its sunk flag. */
  lemma OverHitUnsinks(s: ShipState, p: Pos)
    requires SunkByCount(s.positions, s.hitCells)
    ensures !Hit(s, p).isSunk
    ensures |Hit(s, p).hitCells| == |s.positions| + 1
  {
  }

  class Ship {
    const name: string
    const length: nat
    var isSunk: bool
    var positions: seq<Pos>
    var hitCells: seq<Pos>

    function Model(): ShipState
      reads this
    {
      ShipState(name, length, isSunk, positions, hitCells)
    }

    constructor (name: string, length: nat)
      ensures Model() == NewShip(name, length)
    {
      this.name := name;
      this.length := length;
      positions := [];
      hitCells := [];
      isSunk := false;
    }

    /** setPositions: throws unless given exactly `length` positions; on
        success the positions are replaced, in order. */
    method SetPositions(ps: seq<Pos>) returns (r: Result<()>)
      modifies this`positions
      ensures r.Ok? <==> |ps| == length
      ensures r.Err? ==> r.error == InvalidPositionCount
      ensures positions == if r.Ok? then ps else old(positions)
    {
      if |ps| != length {
        return Err(InvalidPositionCount);
      }
      positions := ps;
      r := Ok(());
    }

    /** isHit: appends exactly one log entry and recomputes the sunk flag. */
    method IsHit(row: int, col: int)
      modifies this`hitCells, this`isSunk
      ensures hitCells == old(hitCells) + [Pos(row, col)]
      ensures isSunk == SunkByCount(positions, hitCells)
      ensures Model() == Hit(old(Model()), Pos(row, col))
    {
      hitCells := hitCells + [Pos(row, col)];
      isSunk := |positions| > 0 && |positions| == |hitCells|;
    }
  }
}
