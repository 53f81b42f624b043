/** One side of a match: a roster of at most five ships over one board, the
    resolution of incoming shots into report codes, and the two views of the
    side (src/game/player.ts). */
module Players {
  import opened Common
  import opened Ships
  import opened Boards

  /** An entry of the sunk log, the only roster data an opponent sees. */
  datatype SunkEntry = SunkEntry(name: string, length: nat, isSunk: bool)

  /** recieveShot's answer: report 0 miss, 1 hit, 2 sunk, 3 all sunk; the
      details carry the ship's name on 2 and 3. */
  datatype HitData = HitData(report: nat, details: Option<string>)

  const Miss: HitData := HitData(0, None)

  /** The value held by a Player object: its board, its roster and its log. */
  datatype PlayerState = PlayerState(
    cells: Grid,
    allowed: bool,
    ships: seq<ShipState>,
    sunkShips: seq<SunkEntry>)

  /** setupShips refuses once the roster holds this many ships. */
  const MaxShips: nat := 5

  /** A new player, and the state reset() returns to. */
  function NewPlayer(): PlayerState {
    PlayerState(EmptyGrid(), true, [], [])
  }

  /** The shape every operation relies on: a 10x10 grid and roster positions
      on it. */
  ghost predicate Shaped(ps: PlayerState) {
    WellFormed(ps.cells) && forall k :: 0 <= k < |ps.ships| ==> AllInBounds(ps.ships[k].positions)
  }

  /** ships.find(ship => ship.name === name): the first ship with that name. */
  function FindByName(ships: seq<ShipState>, name: string): (r: Option<nat>)
    ensures r.Some? ==> r.value < |ships| && ships[r.value].name == name
    ensures r.Some? ==> forall j :: 0 <= j < r.value ==> ships[j].name != name
    ensures r.None? <==> forall j :: 0 <= j < |ships| ==> ships[j].name != name
  {
    if ships == [] then None
    else if ships[0].name == name then Some(0)
    else match FindByName(ships[1..], name)
      case None => None
      case Some(k) => Some(k + 1)
  }

  /** ships.every(ship => ship.isSunk). */
  predicate AllSunk(ships: seq<ShipState>) {
    forall k :: 0 <= k < |ships| ==> ships[k].isSunk
  }

  function LogEntry(s: ShipState): SunkEntry {
    SunkEntry(s.name, s.length, true)
  }

  /** setupShips: refuses with no change once five ships are placed; otherwise
      places the ship on the board and, only if that succeeds, appends it to
      the roster. Returns the new player, the new ship and the answer. */
  function Setup(ps: PlayerState, s: ShipState, row: nat, col: nat, axis: Axis): (r: (PlayerState, ShipState, bool))
    requires WellFormed(ps.cells)
    ensures WellFormed(r.0.cells)
    ensures !r.2 ==> r.0 == ps
  {
    if |ps.ships| >= MaxShips then (ps, s, false)
    else match PlaceOnGrid(ps.cells, s.name, s.length, row, col, axis)
      case None => (ps, s, false)
      case Some(g) =>
        var placed := s.(positions := ShipCells(row, col, axis, s.length));
        (ps.(cells := g, ships := ps.ships + [placed]), placed, true)
  }

  /** The part of recieveShot after a hit on the cell of roster ship k: the
      hit registers on the ship; if that sinks it, its cells are marked sunk,
      it is logged and the report is 2; if then every roster ship is sunk, the
      board closes, the ship is logged a second time and the report is 3. */
  function ShipHit(ps: PlayerState, p: Pos, k: nat): (PlayerState, HitData)
    requires Shaped(ps) && k < |ps.ships|
  {
    var s := Hit(ps.ships[k], p);
    var ships := ps.ships[k := s];
    var g2 := if s.isSunk then MarkSunkAll(ps.cells, s.positions) else ps.cells;
    var log := if s.isSunk then ps.sunkShips + [LogEntry(s)] else ps.sunkShips;
    var report := if s.isSunk then HitData(2, Some(s.name)) else HitData(1, None);
    if AllSunk(ships) then (PlayerState(g2, false, ships, log + [LogEntry(s)]), HitData(3, Some(s.name)))
    else (PlayerState(g2, ps.allowed, ships, log), report)
  }

  /** recieveShot: resolves an incoming shot into a report and the new state.
      An out-of-bounds shot throws; a refused attack is a miss with no change;
      a shot on an empty cell is a miss that marks the cell; a hit on a cell
      whose occupant names no roster ship throws after marking the cell; any
      other hit is resolved by ShipHit on the first ship of that name. */
  function Shot(ps: PlayerState, row: int, col: int): (PlayerState, Result<HitData>)
    requires Shaped(ps)
  {
    var (g1, valid) := Attack(ps.cells, ps.allowed, row, col);
    if valid.Err? then (ps, Err(valid.error))
    else if !valid.value then (ps, Ok(Miss))
    else
      var p := Pos(row, col);
      var occupant := At(g1, p).hasShip;
      if occupant.None? then (ps.(cells := g1), Ok(Miss))
      else match FindByName(ps.ships, occupant.value.name)
        case None => (ps.(cells := g1), Err(ShipNotFound))
        case Some(k) =>
          var (after, h) := ShipHit(ps.(cells := g1), p, k);
          (after, Ok(h))
  }

  // ---------------------------------------------------------------------
  // Views

  datatype ShipInfo = ShipInfo(name: string, length: nat)

  /** What a side is sent about itself. */
  datatype SelfView = SelfView(ships: seq<ShipInfo>, board: Grid)

  /** What a side's opponent is sent about it. */
  datatype OpponentView = OpponentView(ships: seq<SunkEntry>, board: Grid)

  /** data_to_self: the whole roster (name and length) and the full board. */
  function DataToSelf(ps: PlayerState): (v: SelfView)
    ensures v.board == ps.cells
    ensures |v.ships| == |ps.ships|
    ensures forall k :: 0 <= k < |ps.ships| ==> v.ships[k] == ShipInfo(ps.ships[k].name, ps.ships[k].length)
  {
    SelfView(seq(|ps.ships|, k requires 0 <= k < |ps.ships| => ShipInfo(ps.ships[k].name, ps.ships[k].length)), ps.cells)
  }

  /** data_to_opponent: only the sunk log and the masked board. No occupant of
      an unhit cell is ever part of it. */
  function DataToOpponent(ps: PlayerState): (v: OpponentView)
    requires WellFormed(ps.cells)
    ensures v.ships == ps.sunkShips
    ensures WellFormed(v.board)
    ensures forall p :: InBounds(p) && At(v.board, p).hasShip.Some? ==> At(ps.cells, p).isHit
    ensures forall p :: InBounds(p) ==> At(v.board, p).isHit == At(ps.cells, p).isHit
  {
    OpponentView(ps.sunkShips, Mask(ps.cells))
  }

  /** The opponent view is a function of the public part of the state alone:
      two sides look the same to their opponent exactly when their sunk logs
      are equal and their boards agree on hit flags and on hit occupants. */
  lemma OpponentViewNonInterference(a: PlayerState, b: PlayerState)
    requires WellFormed(a.cells) && WellFormed(b.cells)
    ensures DataToOpponent(a) == DataToOpponent(b) <==> a.sunkShips == b.sunkShips && PublicAgree(a.cells, b.cells)
  {
    MaskNonInterference(a.cells, b.cells);
  }

  // ---------------------------------------------------------------------
  // The roster invariant

  /** The number of sunk roster ships. */
  function SunkCount(ships: seq<ShipState>): (n: nat)
    ensures n <= |ships|
    ensures n == |ships| <==> AllSunk(ships)
  {
    if ships == [] then 0
    else
      var rest := SunkCount(ships[1..]);
      assert AllSunk(ships) <==> ships[0].isSunk && AllSunk(ships[1..]) by {
        forall k | 1 <= k < |ships| ensures ships[k] == ships[1..][k - 1] { }
      }
      (if ships[0].isSunk then 1 else 0) + rest
  }

  lemma {:induction false} SunkCountUpdate(ships: seq<ShipState>, k: nat, s: ShipState)
    requires k < |ships|
    ensures SunkCount(ships[k := s]) + (if ships[k].isSunk then 1 else 0)
         == SunkCount(ships) + (if s.isSunk then 1 else 0)
  {
    if k == 0 {
      assert ships[k := s][1..] == ships[1..];
    } else {
      assert ships[k := s][1..] == ships[1..][k - 1 := s];
      SunkCountUpdate(ships[1..], k - 1, s);
    }
  }

  lemma {:induction false} SunkCountAppend(ships: seq<ShipState>, s: ShipState)
    ensures SunkCount(ships + [s]) == SunkCount(ships) + (if s.isSunk then 1 else 0)
  {
    if ships != [] {
      assert (ships + [s])[1..] == ships[1..] + [s];
      SunkCountAppend(ships[1..], s);
    }
  }

  predicate UniqueNames(ships: seq<ShipState>) {
    forall i, j :: 0 <= i < j < |ships| ==> ships[i].name != ships[j].name
  }

  /** With unique names the lookup finds the one ship of a name. */
  lemma FindUnique(ships: seq<ShipState>, k: nat)
    requires UniqueNames(ships) && k < |ships|
    ensures FindByName(ships, ships[k].name) == Some(k)
  {
  }

  lemma {:induction false} FindAppend(ships: seq<ShipState>, s: ShipState, name: string)
    ensures FindByName(ships + [s], name) ==
      if FindByName(ships, name).Some? then FindByName(ships, name)
      else if s.name == name then Some(|ships|) else None
  {
    if ships != [] {
      assert (ships + [s])[1..] == ships[1..] + [s];
      FindAppend(ships[1..], s, name);
    }
  }

  lemma {:induction false} FindSameNames(a: seq<ShipState>, b: seq<ShipState>, name: string)
    requires |a| == |b| && forall i :: 0 <= i < |a| ==> a[i].name == b[i].name
    ensures FindByName(a, name) == FindByName(b, name)
  {
    if a != [] {
      FindSameNames(a[1..], b[1..], name);
    }
  }

  /** A roster ship's agreement with the board: distinct positions, each
      occupied by a record of its name and sunk flag, hit exactly when it is
      in the ship's hit log, which is duplicate-free and within the positions;
      and the sunk flag is the count test. */
  ghost predicate ShipOnBoard(g: Grid, s: ShipState)
    requires WellFormed(g) && AllInBounds(s.positions)
  {
    && Distinct(s.positions) && Distinct(s.hitCells)
    && s.isSunk == SunkByCount(s.positions, s.hitCells)
    && (forall c :: c in s.hitCells ==> c in s.positions)
    && (forall c :: c in s.positions ==>
          && At(g, c).hasShip.Some?
          && At(g, c).hasShip.value.name == s.name
          && At(g, c).hasShip.value.isSunk == s.isSunk
          && (At(g, c).isHit <==> c in s.hitCells))
  }

  /** An occupied cell belongs to the roster ship its record names. */
  ghost predicate Owned(ps: PlayerState, p: Pos)
    requires Shaped(ps) && InBounds(p)
  {
    match At(ps.cells, p).hasShip
      case None => true
      case Some(o) =>
        var f := FindByName(ps.ships, o.name);
        f.Some? && p in ps.ships[f.value].positions
  }

  /** The invariant setupShips and recieveShot keep: at most five ships with
      unique names, each agreeing with the board, every occupied cell owned,
      and the sunk log holding one entry per sunk ship plus the repeated last
      entry once the board has closed. */
  ghost predicate Consistent(ps: PlayerState) {
    && Shaped(ps)
    && |ps.ships| <= MaxShips
    && UniqueNames(ps.ships)
    && (forall k :: 0 <= k < |ps.ships| ==> ShipOnBoard(ps.cells, ps.ships[k]))
    && (forall p :: InBounds(p) ==> Owned(ps, p))
    && |ps.sunkShips| == SunkCount(ps.ships) + (if ps.allowed then 0 else 1)
  }

  lemma NewPlayerConsistent()
    ensures Consistent(NewPlayer())
  {
  }

  /** No cell is claimed by two roster ships. */
  lemma NoOverlap(ps: PlayerState, k: nat, l: nat, c: Pos)
    requires Consistent(ps) && k < |ps.ships| && l < |ps.ships| && k != l
    requires c in ps.ships[k].positions
    ensures c !in ps.ships[l].positions
  {
    assert ShipOnBoard(ps.cells, ps.ships[k]) && ShipOnBoard(ps.cells, ps.ships[l]);
  }

  /** A roster ship is sunk exactly when it is placed and every one of its
      cells has been hit. */
  lemma SunkIffFullyHit(ps: PlayerState, k: nat)
    requires Consistent(ps) && k < |ps.ships|
    ensures ps.ships[k].isSunk <==>
      |ps.ships[k].positions| > 0 && forall c :: c in ps.ships[k].positions ==> At(ps.cells, c).isHit
  {
    var s := ps.ships[k];
    assert ShipOnBoard(ps.cells, s);
    ElementsCard(s.positions);
    ElementsCard(s.hitCells);
    if s.isSunk {
      DistinctCovers(s.hitCells, s.positions);
    }
    if |s.positions| > 0 && forall c :: c in s.positions ==> At(ps.cells, c).isHit {
      assert Elements(s.positions) == Elements(s.hitCells);
    }
  }

  lemma FrameShip(g: Grid, r: Grid, s: ShipState)
    requires WellFormed(g) && WellFormed(r) && AllInBounds(s.positions)
    requires ShipOnBoard(g, s)
    requires forall c :: c in s.positions ==> At(r, c) == At(g, c)
    ensures ShipOnBoard(r, s)
  {
  }

  /** A consistent state never makes recieveShot throw "Cannot find ship". */
  lemma ShotFindsShip(ps: PlayerState, row: int, col: int)
    requires Consistent(ps)
    ensures Shot(ps, row, col).1 != Err(ShipNotFound)
  {
    var p := Pos(row, col);
    if ps.allowed && InBounds(p) && !At(ps.cells, p).isHit {
      assert Owned(ps, p);
    }
  }

  /** The cells a fresh hit on ship s0 at p leaves: p hit, and all of the
      ship's cells marked sunk if the hit sinks it. */
  function HitGrid(g: Grid, s0: ShipState, p: Pos): (r: Grid)
    requires WellFormed(g) && InBounds(p) && AllInBounds(s0.positions)
    ensures WellFormed(r)
  {
    var s := Hit(s0, p);
    if s.isSunk then MarkSunkAll(SetHit(g, p), s.positions) else SetHit(g, p)
  }

  /** A fresh hit on one of its cells keeps a ship agreeing with the board;
      the board changes only on the ship's cells, and there only in hit and
      sunk flags. */
  lemma HitGridEffect(g: Grid, s0: ShipState, p: Pos)
    requires WellFormed(g) && InBounds(p) && AllInBounds(s0.positions)
    requires ShipOnBoard(g, s0) && !s0.isSunk && p in s0.positions && !At(g, p).isHit
    ensures ShipOnBoard(HitGrid(g, s0, p), Hit(s0, p))
    ensures forall q :: InBounds(q) && q !in s0.positions ==> At(HitGrid(g, s0, p), q) == At(g, q)
    ensures forall q :: InBounds(q) ==>
      && At(HitGrid(g, s0, p), q).hasShip.Some? == At(g, q).hasShip.Some?
      && (At(g, q).hasShip.Some? ==> At(HitGrid(g, s0, p), q).hasShip.value.name == At(g, q).hasShip.value.name)
  {
    var g1 := SetHit(g, p);
    var s := Hit(s0, p);
    var g2 := HitGrid(g, s0, p);
    assert p !in s0.hitCells;
    if s.isSunk {
      MarkSunkAllEffect(g1, s.positions);
    }
    assert SameButSunk(g1, g2);
    assert Distinct(s.hitCells);
    forall c | c in s.positions
      ensures At(g2, c).hasShip.Some? && At(g2, c).hasShip.value.name == s.name
      ensures At(g2, c).hasShip.value.isSunk == s.isSunk
      ensures At(g2, c).isHit <==> c in s.hitCells
    {
      assert At(g1, c).hasShip == At(g, c).hasShip;
      assert At(g1, c).isHit == (c == p || At(g, c).isHit);
    }
  }

  /** A fresh hit on a cell of roster ship k keeps the invariant. */
  lemma ShipHitPreserves(ps: PlayerState, p: Pos, k: nat)
    requires Consistent(ps) && InBounds(p) && ps.allowed && !At(ps.cells, p).isHit
    requires k < |ps.ships| && p in ps.ships[k].positions
    ensures var ps1 := ps.(cells := SetHit(ps.cells, p));
      Shaped(ps1) && Consistent(ShipHit(ps1, p, k).0)
  {
    var ps1 := ps.(cells := SetHit(ps.cells, p));
    var s0 := ps.ships[k];
    assert ShipOnBoard(ps.cells, s0);
    SunkIffFullyHit(ps, k);
    var after := ShipHit(ps1, p, k).0;
    assert after == PlayerState(HitGrid(ps.cells, s0, p), after.allowed, ps.ships[k := Hit(s0, p)], after.sunkShips);
    HitKeepsShips(ps, p, k);
    HitKeepsOwners(ps, p, k, after.allowed, after.sunkShips);
    HitKeepsCount(ps, p, k);
    assert UniqueNames(after.ships);
  }

  /** The sinking log keeps its count across a fresh hit on ship k. */
  lemma HitKeepsCount(ps: PlayerState, p: Pos, k: nat)
    requires Consistent(ps) && InBounds(p) && ps.allowed && !At(ps.cells, p).isHit
    requires k < |ps.ships| && p in ps.ships[k].positions && !ps.ships[k].isSunk
    ensures var after := ShipHit(ps.(cells := SetHit(ps.cells, p)), p, k).0;
      |after.sunkShips| == SunkCount(after.ships) + (if after.allowed then 0 else 1)
  {
    SunkCountUpdate(ps.ships, k, Hit(ps.ships[k], p));
  }

  /** After a fresh hit on ship k, every roster ship still matches the board. */
  lemma HitKeepsShips(ps: PlayerState, p: Pos, k: nat)
    requires Consistent(ps) && InBounds(p) && !At(ps.cells, p).isHit
    requires k < |ps.ships| && p in ps.ships[k].positions && !ps.ships[k].isSunk
    ensures WellFormed(HitGrid(ps.cells, ps.ships[k], p))
    ensures var ships := ps.ships[k := Hit(ps.ships[k], p)];
      forall l :: 0 <= l < |ships| ==> AllInBounds(ships[l].positions) && ShipOnBoard(HitGrid(ps.cells, ps.ships[k], p), ships[l])
  {
    var g := ps.cells;
    var s0 := ps.ships[k];
    var g2 := HitGrid(g, s0, p);
    var ships := ps.ships[k := Hit(s0, p)];
    HitGridEffect(g, s0, p);
    forall l | 0 <= l < |ships| ensures AllInBounds(ships[l].positions) && ShipOnBoard(g2, ships[l]) {
      if l != k {
        forall c | c in ps.ships[l].positions ensures At(g2, c) == At(g, c) {
          NoOverlap(ps, l, k, c);
        }
        FrameShip(g, g2, ps.ships[l]);
      }
    }
  }

  /** After a fresh hit on ship k, every occupied cell still has its owner. */
  lemma HitKeepsOwners(ps: PlayerState, p: Pos, k: nat, allowed: bool, log: seq<SunkEntry>)
    requires Consistent(ps) && InBounds(p) && !At(ps.cells, p).isHit
    requires k < |ps.ships| && p in ps.ships[k].positions && !ps.ships[k].isSunk
    ensures var after := PlayerState(HitGrid(ps.cells, ps.ships[k], p), allowed, ps.ships[k := Hit(ps.ships[k], p)], log);
      Shaped(after) && forall q :: InBounds(q) ==> Owned(after, q)
  {
    var g := ps.cells;
    var s0 := ps.ships[k];
    var ships := ps.ships[k := Hit(s0, p)];
    var after := PlayerState(HitGrid(g, s0, p), allowed, ships, log);
    HitGridEffect(g, s0, p);
    forall q | InBounds(q) ensures Owned(after, q) {
      assert Owned(ps, q);
      if At(g, q).hasShip.Some? {
        FindSameNames(ps.ships, ships, At(g, q).hasShip.value.name);
      }
    }
  }

  /** recieveShot keeps the invariant. */
  lemma ShotPreserves(ps: PlayerState, row: int, col: int)
    requires Consistent(ps)
    ensures Consistent(Shot(ps, row, col).0)
  {
    var p := Pos(row, col);
    if ps.allowed && InBounds(p) && !At(ps.cells, p).isHit {
      var g1 := SetHit(ps.cells, p);
      assert Owned(ps, p);
      match At(ps.cells, p).hasShip
      case None =>
        var after := ps.(cells := g1);
        forall l | 0 <= l < |ps.ships| ensures ShipOnBoard(g1, ps.ships[l]) {
          assert ShipOnBoard(ps.cells, ps.ships[l]);
          FrameShip(ps.cells, g1, ps.ships[l]);
        }
        forall q | InBounds(q) ensures Owned(after, q) {
          assert Owned(ps, q);
        }
      case Some(o) =>
        var k := FindByName(ps.ships, o.name).value;
        ShipHitPreserves(ps, p, k);
    }
  }

  /** What each report of recieveShot means on a consistent state. A closed
      board answers a miss and changes nothing; the only error is an
      off-grid shot on an open board, which changes nothing; a report of 1 or
      more is a fresh hit on an occupied cell; 2 and 3 are exactly the shots
      that sink a ship, and each logs it with its name in the details; 3 is
      exactly the shot that closes the board, after which every ship is sunk
      and the log holds one entry more than the roster. */
  lemma ShotReports(ps: PlayerState, row: int, col: int)
    requires Consistent(ps)
    ensures var (after, r) := Shot(ps, row, col);
      var p := Pos(row, col);
      && (!ps.allowed ==> after == ps && r == Ok(Miss))
      && (r.Err? <==> ps.allowed && !InBounds(p))
      && (r.Err? ==> after == ps && r.error == OutOfBounds)
      && (r.Ok? ==> r.value.report <= 3)
      && (r.Ok? && r.value.report >= 1 ==>
            ps.allowed && InBounds(p) && !At(ps.cells, p).isHit && At(ps.cells, p).hasShip.Some?)
      && (r.Ok? ==> SunkCount(after.ships) == SunkCount(ps.ships) + (if r.value.report >= 2 then 1 else 0))
      && (r.Ok? ==> |after.sunkShips| == |ps.sunkShips| + (if r.value.report == 3 then 2 else if r.value.report == 2 then 1 else 0))
      && (r.Ok? && r.value.report >= 2 ==>
            r.value.details.Some? && after.sunkShips[|ps.sunkShips|].name == r.value.details.value)
      && (r.Ok? && r.value.report <= 1 ==> r.value.details.None?)
      && (r.Ok? && r.value.report == 3 <==> ps.allowed && !after.allowed)
      && (r.Ok? && r.value.report == 3 ==> AllSunk(after.ships) && |after.sunkShips| == |after.ships| + 1)
      && (ps.allowed && InBounds(p) && !At(ps.cells, p).isHit && At(ps.cells, p).hasShip.Some? && AllSunk(after.ships) ==>
            r == Ok(HitData(3, Some(At(ps.cells, p).hasShip.value.name))))
      && (r.Ok? && r.value.report >= 2 ==>
            InBounds(p) && At(ps.cells, p).hasShip.Some? && r.value.details == Some(At(ps.cells, p).hasShip.value.name))
      && (r.Ok? && r.value.report <= 1 ==> after.sunkShips == ps.sunkShips)
      && (r.Ok? && r.value.report >= 2 ==>
            && InBounds(p) && At(ps.cells, p).hasShip.Some?
            && FindByName(ps.ships, At(ps.cells, p).hasShip.value.name).Some?
            && var e := LogEntry(ps.ships[FindByName(ps.ships, At(ps.cells, p).hasShip.value.name).value]);
               after.sunkShips == ps.sunkShips + (if r.value.report == 3 then [e, e] else [e]))
  {
    var p := Pos(row, col);
    ShotPreserves(ps, row, col);
    ShotFindsShip(ps, row, col);
    ShotWins(ps, row, col);
    if ps.allowed && InBounds(p) && !At(ps.cells, p).isHit && At(ps.cells, p).hasShip.Some? {
      assert Owned(ps, p);
      var k := FindByName(ps.ships, At(ps.cells, p).hasShip.value.name).value;
      SunkIffFullyHit(ps, k);
      var s := Hit(ps.ships[k], p);
      SunkCountUpdate(ps.ships, k, s);
      if AllSunk(ps.ships[k := s]) {
        assert ps.ships[k := s][k].isSunk;
      }
    }
  }

  /** The log entries a ship hit appends: none for report 1, the ship's entry
      for report 2, and that entry twice for report 3. */
  lemma ShipHitLog(ps: PlayerState, p: Pos, k: nat)
    requires Shaped(ps) && k < |ps.ships|
    ensures var (after, h) := ShipHit(ps, p, k);
      var e := LogEntry(ps.ships[k]);
      && (h.report <= 1 ==> after.sunkShips == ps.sunkShips)
      && (h.report >= 2 ==> after.sunkShips == ps.sunkShips + (if h.report == 3 then [e, e] else [e]))
  {
    var s := Hit(ps.ships[k], p);
    assert LogEntry(s) == LogEntry(ps.ships[k]);
    if AllSunk(ps.ships[k := s]) {
      assert ps.ships[k := s][k].isSunk;
    }
  }

  /** The winning shot and the ship a report names. recieveShot keeps the
      roster's length; a fresh hit on an occupied cell that leaves every
      ship sunk answers 3; and a report of 2 or 3 names the ship whose cell
      was hit. */
  lemma ShotWins(ps: PlayerState, row: int, col: int)
    requires Consistent(ps)
    ensures var (after, r) := Shot(ps, row, col);
      var p := Pos(row, col);
      && |after.ships| == |ps.ships|
      && (ps.allowed && InBounds(p) && !At(ps.cells, p).isHit && At(ps.cells, p).hasShip.Some? && AllSunk(after.ships) ==>
            r == Ok(HitData(3, Some(At(ps.cells, p).hasShip.value.name))))
      && (r.Ok? && r.value.report >= 2 ==>
            InBounds(p) && At(ps.cells, p).hasShip.Some? && r.value.details == Some(At(ps.cells, p).hasShip.value.name))
      && (r.Ok? && r.value.report <= 1 ==> after.sunkShips == ps.sunkShips)
      && (r.Ok? && r.value.report >= 2 ==>
            && InBounds(p) && At(ps.cells, p).hasShip.Some?
            && FindByName(ps.ships, At(ps.cells, p).hasShip.value.name).Some?
            && var e := LogEntry(ps.ships[FindByName(ps.ships, At(ps.cells, p).hasShip.value.name).value]);
               after.sunkShips == ps.sunkShips + (if r.value.report == 3 then [e, e] else [e]))
  {
    var p := Pos(row, col);
    if ps.allowed && InBounds(p) && !At(ps.cells, p).isHit && At(ps.cells, p).hasShip.Some? {
      var g1 := SetHit(ps.cells, p);
      assert At(g1, p).hasShip == At(ps.cells, p).hasShip;
      assert Owned(ps, p);
      ShipHitLog(ps.(cells := g1), p, FindByName(ps.ships, At(ps.cells, p).hasShip.value.name).value);
    }
  }

  /** The misses and the lookup failure of recieveShot, on any well-shaped
      side. The answer is a miss exactly when the board is closed, or the
      cell was already hit, or it is empty; a miss changes nothing but the
      hit flag of a fresh empty cell. The shot throws "Cannot find ship"
      exactly on a fresh hit whose occupant names no roster ship, after
      marking the cell. */
  lemma ShotOutcomes(ps: PlayerState, row: int, col: int)
    requires Shaped(ps)
    ensures var (after, r) := Shot(ps, row, col);
      var p := Pos(row, col);
      var unshot := ps.allowed && InBounds(p) && !At(ps.cells, p).isHit;
      && (r == Ok(Miss) <==> !ps.allowed || (InBounds(p) && (At(ps.cells, p).isHit || At(ps.cells, p).hasShip.None?)))
      && (r == Ok(Miss) && unshot ==> after == ps.(cells := SetHit(ps.cells, p)))
      && (r == Ok(Miss) && !unshot ==> after == ps)
      && (r == Err(ShipNotFound) <==>
            unshot && At(ps.cells, p).hasShip.Some? && FindByName(ps.ships, At(ps.cells, p).hasShip.value.name).None?)
      && (r == Err(ShipNotFound) ==> after == ps.(cells := SetHit(ps.cells, p)))
  {
    var p := Pos(row, col);
    if ps.allowed && InBounds(p) && !At(ps.cells, p).isHit {
      var g1 := SetHit(ps.cells, p);
      assert At(g1, p).hasShip == At(ps.cells, p).hasShip;
    }
  }

  /** A sunk ship stays sunk: its cells are all hit, so no later shot can
      register on it. */
  lemma SunkStaysSunk(ps: PlayerState, row: int, col: int, k: nat)
    requires Consistent(ps) && k < |ps.ships| && ps.ships[k].isSunk
    ensures |Shot(ps, row, col).0.ships| == |ps.ships|
    ensures Shot(ps, row, col).0.ships[k] == ps.ships[k]
  {
    var p := Pos(row, col);
    SunkIffFullyHit(ps, k);
    if ps.allowed && InBounds(p) && !At(ps.cells, p).isHit && At(ps.cells, p).hasShip.Some? {
      assert Owned(ps, p);
      var j := FindByName(ps.ships, At(ps.cells, p).hasShip.value.name).value;
      assert j != k;
    }
  }

  /** setupShips: refused once five ships are placed or when placement is
      refused, with nothing changed; otherwise the ship, with its positions
      set to the ordered cells, is appended to the roster, exactly those
      cells get its occupant records, and nothing else changes. */
  lemma SetupEffect(ps: PlayerState, s: ShipState, row: nat, col: nat, axis: Axis)
    requires WellFormed(ps.cells)
    ensures var (after, placed, ok) := Setup(ps, s, row, col, axis);
      && (ok <==> |ps.ships| < MaxShips && IsNotCollision(ps.cells, s.length, row, col, axis))
      && (!ok ==> after == ps && placed == s)
      && (ok ==>
            && placed == s.(positions := ShipCells(row, col, axis, s.length))
            && after.ships == ps.ships + [placed]
            && after.allowed == ps.allowed && after.sunkShips == ps.sunkShips
            && WellFormed(after.cells)
            && (forall i :: 0 <= i < s.length ==>
                  At(after.cells, CellOf(row, col, axis, i))
                    == Cell(At(ps.cells, CellOf(row, col, axis, i)).isHit, Some(OccupantOf(s.name, s.length, axis, i))))
            && (forall q :: InBounds(q) && q !in placed.positions ==> At(after.cells, q) == At(ps.cells, q)))
  {
    if |ps.ships| < MaxShips && IsNotCollision(ps.cells, s.length, row, col, axis) {
      PlaceOnGridEffect(ps.cells, s.name, s.length, row, col, axis);
    }
  }

  /** setupShips keeps the grid shape. */
  lemma SetupShaped(ps: PlayerState, s: ShipState, row: nat, col: nat, axis: Axis)
    requires Shaped(ps)
    ensures Shaped(Setup(ps, s, row, col, axis).0)
  {
    SetupEffect(ps, s, row, col, axis);
  }

  /** A ship just placed on unshot cells agrees with the board. */
  lemma PlacedOnBoard(g: Grid, s: ShipState, row: nat, col: nat, axis: Axis)
    requires WellFormed(g) && PlaceOnGrid(g, s.name, s.length, row, col, axis).Some?
    requires s.hitCells == [] && !s.isSunk
    requires forall q :: q in ShipCells(row, col, axis, s.length) && InBounds(q) ==> !At(g, q).isHit
    ensures var placed := s.(positions := ShipCells(row, col, axis, s.length));
      AllInBounds(placed.positions) && ShipOnBoard(PlaceOnGrid(g, s.name, s.length, row, col, axis).value, placed)
  {
    var r := PlaceOnGrid(g, s.name, s.length, row, col, axis).value;
    var cells := ShipCells(row, col, axis, s.length);
    var placed := s.(positions := cells);
    PlaceOnGridEffect(g, s.name, s.length, row, col, axis);
    ShipCellsDistinct(row, col, axis, s.length);
    forall c | c in cells
      ensures At(r, c).hasShip.Some? && At(r, c).hasShip.value.name == s.name
      ensures !At(r, c).hasShip.value.isSunk && !At(r, c).isHit
    {
      var i :| 0 <= i < |cells| && cells[i] == c;
      assert At(r, CellOf(row, col, axis, i)) == Cell(At(g, CellOf(row, col, axis, i)).isHit, Some(OccupantOf(s.name, s.length, axis, i)));
    }
  }

  /** setupShips keeps the invariant when it is given a ship that was never
      hit, whose name is new to the roster, on cells that were never shot. */
  lemma SetupPreserves(ps: PlayerState, s: ShipState, row: nat, col: nat, axis: Axis)
    requires Consistent(ps)
    requires s.hitCells == [] && !s.isSunk && FindByName(ps.ships, s.name).None?
    requires forall q :: q in ShipCells(row, col, axis, s.length) && InBounds(q) ==> !At(ps.cells, q).isHit
    ensures Consistent(Setup(ps, s, row, col, axis).0)
  {
    var (after, placed, ok) := Setup(ps, s, row, col, axis);
    if ok {
      PlacedOnBoard(ps.cells, s, row, col, axis);
      assert after.ships == ps.ships + [placed];
      SetupKeepsShips(ps, s, row, col, axis);
      SetupKeepsOwners(ps, s, row, col, axis);
      SunkCountAppend(ps.ships, placed);
    }
  }

  /** setupShips does not look at hit flags: a ship placed on a cell that was
      already shot takes its occupant record next to a hit flag that its own
      hit log lacks, and the invariant fails. Shooting (0, 0) of a new side
      and then placing a one-cell ship there is such a run. */
  lemma SetupOnShotCell()
    ensures var ps := Shot(NewPlayer(), 0, 0).0;
      var (after, placed, ok) := Setup(ps, NewShip("a", 1), 0, 0, X);
      && Consistent(ps) && At(ps.cells, Pos(0, 0)).isHit
      && ok && placed.positions == [Pos(0, 0)] && placed.hitCells == []
      && At(after.cells, Pos(0, 0)).isHit
      && !Consistent(after)
  {
    var p := Pos(0, 0);
    NewPlayerConsistent();
    ShotPreserves(NewPlayer(), 0, 0);
    var ps := Shot(NewPlayer(), 0, 0).0;
    assert ps.cells == SetHit(EmptyGrid(), p);
    assert At(ps.cells, p).isHit && At(ps.cells, p).hasShip.None?;
    var s := NewShip("a", 1);
    assert IsNotCollision(ps.cells, 1, 0, 0, X);
    SetupEffect(ps, s, 0, 0, X);
    var (after, placed, ok) := Setup(ps, s, 0, 0, X);
    assert CellOf(0, 0, X, 0) == p;
    assert placed.positions == [p];
    assert after.ships == [placed];
    assert !ShipOnBoard(after.cells, after.ships[0]);
  }

  /** Placing a ship leaves every earlier roster ship matching the board. */
  lemma SetupKeepsShips(ps: PlayerState, s: ShipState, row: nat, col: nat, axis: Axis)
    requires Consistent(ps) && Setup(ps, s, row, col, axis).2
    ensures var after := Setup(ps, s, row, col, axis).0;
      forall l :: 0 <= l < |ps.ships| ==> ShipOnBoard(after.cells, ps.ships[l])
  {
    var g := ps.cells;
    var r := Setup(ps, s, row, col, axis).0.cells;
    PlaceOnGridEffect(g, s.name, s.length, row, col, axis);
    forall l | 0 <= l < |ps.ships| ensures ShipOnBoard(r, ps.ships[l]) {
      assert ShipOnBoard(g, ps.ships[l]);
      FrameShip(g, r, ps.ships[l]);
    }
  }

  /** Placing a ship under a new name keeps every occupied cell owned. */
  lemma SetupKeepsOwners(ps: PlayerState, s: ShipState, row: nat, col: nat, axis: Axis)
    requires Consistent(ps) && Setup(ps, s, row, col, axis).2
    requires FindByName(ps.ships, s.name).None?
    ensures var after := Setup(ps, s, row, col, axis).0;
      Shaped(after) && forall q :: InBounds(q) ==> Owned(after, q)
  {
    var (after, placed, _) := Setup(ps, s, row, col, axis);
    var g := ps.cells;
    var r := after.cells;
    var cells := ShipCells(row, col, axis, s.length);
    PlaceOnGridEffect(g, s.name, s.length, row, col, axis);
    SetupShaped(ps, s, row, col, axis);
    forall q | InBounds(q) ensures Owned(after, q) {
      assert Owned(ps, q);
      if q !in cells {
        assert At(r, q) == At(g, q);
        if At(g, q).hasShip.Some? {
          FindAppend(ps.ships, placed, At(g, q).hasShip.value.name);
        }
      } else {
        FindAppend(ps.ships, placed, s.name);
      }
    }
  }

  // ---------------------------------------------------------------------
  // Placement exclusivity

  /** What the collision check guarantees on its own: every roster position is
      occupied on the board, and no cell is a position of two roster ships.
      Unlike Consistent it asks nothing of names, hit logs or hit flags. */
  ghost predicate Exclusive(ps: PlayerState) {
    && Shaped(ps)
    && (forall k, c :: 0 <= k < |ps.ships| && c in ps.ships[k].positions ==> At(ps.cells, c).hasShip.Some?)
    && (forall k, l, c :: 0 <= k < l < |ps.ships| && c in ps.ships[k].positions ==> c !in ps.ships[l].positions)
  }

  lemma NewExclusive()
    ensures Exclusive(NewPlayer())
  {
  }

  /** Every setupShips keeps exclusivity, whatever the ship, its name and the
      hit flags: the collision check refuses an occupied cell, and a placement
      only adds occupants. */
  lemma SetupExclusive(ps: PlayerState, s: ShipState, row: nat, col: nat, axis: Axis)
    requires Exclusive(ps)
    ensures Exclusive(Setup(ps, s, row, col, axis).0)
  {
    var (after, placed, ok) := Setup(ps, s, row, col, axis);
    SetupShaped(ps, s, row, col, axis);
    if ok {
      SetupEffect(ps, s, row, col, axis);
      PlaceOnGridEffect(ps.cells, s.name, s.length, row, col, axis);
      var n := |ps.ships|;
      assert after.ships == ps.ships + [placed];
      forall k, c | 0 <= k < |after.ships| && c in after.ships[k].positions
        ensures At(after.cells, c).hasShip.Some?
      {
        if k < n {
          assert after.ships[k] == ps.ships[k];
        } else {
          var i :| 0 <= i < s.length && placed.positions[i] == c;
          assert c == CellOf(row, col, axis, i);
        }
      }
      forall k, l, c | 0 <= k < l < |after.ships| && c in after.ships[k].positions
        ensures c !in after.ships[l].positions
      {
        if l == n {
          assert after.ships[k] == ps.ships[k];
          forall i | 0 <= i < s.length ensures placed.positions[i] != c {
            assert placed.positions[i] == CellOf(row, col, axis, i);
          }
        } else {
          assert after.ships[k] == ps.ships[k] && after.ships[l] == ps.ships[l];
        }
      }
    }
  }

  /** Marking a cell hit keeps exclusivity. */
  lemma SetHitExclusive(ps: PlayerState, p: Pos)
    requires Exclusive(ps) && InBounds(p)
    ensures Exclusive(ps.(cells := SetHit(ps.cells, p)))
  {
    var g1 := SetHit(ps.cells, p);
    assert forall q :: InBounds(q) && q != p ==> At(g1, q) == At(ps.cells, q);
  }

  /** The hit part of recieveShot keeps exclusivity. */
  lemma ShipHitExclusive(ps: PlayerState, p: Pos, k: nat)
    requires Exclusive(ps) && k < |ps.ships|
    ensures Exclusive(ShipHit(ps, p, k).0)
  {
    var s := Hit(ps.ships[k], p);
    var after := ShipHit(ps, p, k).0;
    if s.isSunk {
      MarkSunkAllEffect(ps.cells, s.positions);
    }
    assert after.ships == ps.ships[k := s];
    assert forall j :: 0 <= j < |after.ships| ==> after.ships[j].positions == ps.ships[j].positions;
  }

  /** Every recieveShot keeps exclusivity: hits and sinking change flags, never
      occupants, and a hit leaves the ship's positions alone. */
  lemma ShotExclusive(ps: PlayerState, row: int, col: int)
    requires Exclusive(ps)
    ensures Exclusive(Shot(ps, row, col).0)
  {
    var p := Pos(row, col);
    if ps.allowed && InBounds(p) && !At(ps.cells, p).isHit {
      SetHitExclusive(ps, p);
      var ps1 := ps.(cells := SetHit(ps.cells, p));
      var occupant := At(ps1.cells, p).hasShip;
      if occupant.Some? && FindByName(ps.ships, occupant.value.name).Some? {
        ShipHitExclusive(ps1, p, FindByName(ps.ships, occupant.value.name).value);
      }
    }
  }

  // ---------------------------------------------------------------------
  // The object

  class Player {
    const board: Board
    var ships: seq<Ship>
    var sunkShips: seq<SunkEntry>

    ghost function Repr(): set<object>
      reads this
    {
      {this as object, board} + (set s: Ship | s in ships :: s as object)
    }

    ghost predicate Valid()
      reads this, board, ships
    {
      && board.Valid()
      && (forall i, j :: 0 <= i < j < |ships| ==> ships[i] != ships[j])
      && (forall k :: 0 <= k < |ships| ==> AllInBounds(ships[k].positions))
    }

    function ShipModels(): (r: seq<ShipState>)
      reads this, ships
      ensures |r| == |ships|
      ensures forall k :: 0 <= k < |ships| ==> r[k] == ships[k].Model()
    {
      var ss := ships;
      seq(|ss|, k requires 0 <= k < |ss| reads ss => ss[k].Model())
    }

    function Model(): PlayerState
      reads this, board, ships
    {
      PlayerState(board.cells, board.allowed, ShipModels(), sunkShips)
    }

    lemma ValidShaped()
      requires Valid()
      ensures Shaped(Model())
    {
    }

    constructor ()
      ensures Valid() && fresh(Repr())
      ensures Model() == NewPlayer()
    {
      board := new Board();
      ships := [];
      sunkShips := [];
    }

    /** setupShips. The ship must not already be in the roster. */
    method SetupShips(ship: Ship, row: nat, column: nat, axis: Axis) returns (placed: bool)
      requires Valid() && ship !in ships
      modifies this`ships, board`cells, ship`positions
      ensures Valid()
      ensures (Model(), ship.Model(), placed) == Setup(old(Model()), old(ship.Model()), row, column, axis)
      ensures ships == if placed then old(ships) + [ship] else old(ships)
    {
      if |ships| >= MaxShips {
        return false;
      }
      placed := board.PlaceShip(ship, row, column, axis);
      if placed {
        ships := ships + [ship];
      }
      assert ShipModels() == old(ShipModels()) + (if placed then [ship.Model()] else []);
    }

    /** recieveShot. */
    method RecieveShot(row: int, col: int) returns (r: Result<HitData>)
      requires Valid()
      modifies this`sunkShips, board, ships
      ensures Valid() && ships == old(ships)
      ensures (Model(), r) == Shot(old(Model()), row, col)
    {
      var validHit := board.ReceiveAttack(row, col);
      if validHit.Err? {
        return Err(validHit.error);
      }
      if !validHit.value {
        return Ok(Miss);
      }
      var hasShip := At(board.cells, Pos(row, col)).hasShip;
      if hasShip.None? {
        return Ok(Miss);
      }
      var found := FindByName(ShipModels(), hasShip.value.name);
      if found.None? {
        return Err(ShipNotFound);
      }
      var h := HitShip(found.value, row, col);
      r := Ok(h);
    }

    /** recieveShot from the ship lookup on: registers the hit on ship k. */
    method HitShip(k: nat, row: int, col: int) returns (h: HitData)
      requires Valid() && k < |ships| && InBounds(Pos(row, col))
      modifies this`sunkShips, board`cells, board`allowed, ships[k]
      ensures Valid() && ships == old(ships)
      ensures (Model(), h) == ShipHit(old(Model()), Pos(row, col), k)
    {
      ghost var ps0 := Model();
      ghost var p := Pos(row, col);
      ghost var s := Hit(ps0.ships[k], p);
      h := Strike(k, row, col);
      if forall j :: 0 <= j < |ships| ==> ships[j].isSunk {
        assert AllSunk(ShipModels());
        board.allowed := false;
        sunkShips := sunkShips + [SunkEntry(ships[k].name, ships[k].length, true)];
        h := HitData(3, Some(ships[k].name));
      } else {
        assert !AllSunk(ShipModels());
      }
      assert Model().ships == ShipHit(ps0, p, k).0.ships;
    }

    /** The hit on ship k and, if it sinks the ship, the marking of its
        cells and the log entry. */
    method Strike(k: nat, row: int, col: int) returns (h: HitData)
      requires Valid() && k < |ships| && InBounds(Pos(row, col))
      modifies this`sunkShips, board`cells, ships[k]
      ensures Valid() && ships == old(ships) && board.allowed == old(board.allowed)
      ensures var s := Hit(old(ships[k].Model()), Pos(row, col));
        && ShipModels() == old(ShipModels())[k := s]
        && board.cells == (if s.isSunk then MarkSunkAll(old(board.cells), s.positions) else old(board.cells))
        && sunkShips == (if s.isSunk then old(sunkShips) + [LogEntry(s)] else old(sunkShips))
        && h == (if s.isSunk then HitData(2, Some(s.name)) else HitData(1, None))
    {
      var hitShip := ships[k];
      hitShip.IsHit(row, col);
      h := HitData(1, None);
      if hitShip.isSunk {
        SinkCells(hitShip.positions);
        sunkShips := sunkShips + [SunkEntry(hitShip.name, hitShip.length, true)];
        h := HitData(2, Some(hitShip.name));
      }
      assert ShipModels() == old(ShipModels())[k := hitShip.Model()];
    }

    /** The loop of recieveShot that marks every cell of a sunk ship. */
    method SinkCells(positions: seq<Pos>)
      requires board.Valid() && AllInBounds(positions)
      modifies board`cells
      ensures board.Valid()
      ensures board.cells == MarkSunkAll(old(board.cells), positions)
    {
      for i := 0 to |positions|
        invariant board.Valid()
        invariant board.cells == MarkSunkAll(old(board.cells), positions[..i])
      {
        assert positions[..i + 1][..i] == positions[..i];
        board.SetIsSunk(positions[i].row, positions[i].col);
      }
      assert positions[..|positions|] == positions;
    }

    /** reset: empty board open for attacks, empty roster, empty log. */
    method Reset()
      requires Valid()
      modifies this`ships, this`sunkShips, board
      ensures Valid() && Repr() <= old(Repr())
      ensures Model() == NewPlayer()
    {
      board.ResetBoard();
      ships := [];
      sunkShips := [];
    }
  }
}
