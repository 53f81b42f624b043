/** The computer opponent (src/game/computer.ts): random fleet placement, an
    in-place Fisher-Yates shuffle, and the hunt-and-follow targeting strategy.
    Every random draw is a parameter, so each property holds for all draws. */
module Computers {
  import opened Common
  import opened Ships
  import opened Boards
  import opened Players

  // ---------------------------------------------------------------------
  // Shuffling

  /** The exchange of two entries. */
  function Swap<T>(s: seq<T>, i: nat, j: nat): (r: seq<T>)
    requires i < |s| && j < |s|
    ensures |r| == |s| && r[i] == s[j] && r[j] == s[i]
    ensures forall k :: 0 <= k < |s| && k != i && k != j ==> r[k] == s[k]
  {
    s[i := s[j]][j := s[i]]
  }

  /** An exchange only reorders. */
  lemma SwapPermutes<T>(s: seq<T>, i: nat, j: nat)
    requires i < |s| && j < |s|
    ensures multiset(Swap(s, i, j)) == multiset(s)
  {
    var t := s[i := s[j]];
    assert multiset(t) == multiset(s) - multiset{s[i]} + multiset{s[j]};
    assert multiset(t[j := s[i]]) == multiset(t) - multiset{t[j]} + multiset{s[i]};
  }

  /** The random indices shuffleArray draws for a sequence of length n, in draw
      order: the k-th draw picks a partner for index n-1-k among 0..n-1-k. */
  predicate ValidPicks(picks: seq<int>, n: nat) {
    && |picks| == (if n == 0 then 0 else n - 1)
    && forall k :: 0 <= k < |picks| ==> 0 <= picks[k] <= n - 1 - k
  }

  /** The sequence after the first k swaps of shuffleArray. */
  function ShuffleSteps<T>(s: seq<T>, picks: seq<int>, k: nat): (r: seq<T>)
    requires ValidPicks(picks, |s|) && k <= |picks|
    ensures |r| == |s|
  {
    if k == 0 then s
    else Swap(ShuffleSteps(s, picks, k - 1), |s| - k, picks[k - 1])
  }

  /** Every prefix of the swaps is a permutation of the original, whatever
      the draws. */
  lemma {:induction false} ShufflePermutes<T>(s: seq<T>, picks: seq<int>, k: nat)
    requires ValidPicks(picks, |s|) && k <= |picks|
    ensures multiset(ShuffleSteps(s, picks, k)) == multiset(s)
  {
    if k > 0 {
      var t := ShuffleSteps(s, picks, k - 1);
      var i: nat, j: nat := |s| - k, picks[k - 1];
      assert ShuffleSteps(s, picks, k) == Swap(t, i, j);
      ShufflePermutes(s, picks, k - 1);
      SwapPermutes(t, i, j);
    }
  }

  /** shuffleArray on values. */
  function Shuffle<T>(s: seq<T>, picks: seq<int>): (r: seq<T>)
    requires ValidPicks(picks, |s|)
    ensures |r| == |s|
  {
    ShuffleSteps(s, picks, |picks|)
  }

  /** shuffleArray: swaps in place from the last index down to 1. */
  method ShuffleArray<T>(a: array<T>, picks: seq<int>)
    requires ValidPicks(picks, a.Length)
    modifies a
    ensures a[..] == Shuffle(old(a[..]), picks)
    ensures multiset(a[..]) == multiset(old(a[..]))
  {
    ghost var s := a[..];
    ghost var k: nat := 0;
    var i := a.Length - 1;
    while i > 0
      invariant k <= |picks| && i == a.Length - 1 - k
      invariant a[..] == ShuffleSteps(s, picks, k)
    {
      var j := picks[a.Length - 1 - i];
      assert ShuffleSteps(s, picks, k + 1) == Swap(ShuffleSteps(s, picks, k), i, j);
      SwapAt(a, i, j);
      i, k := i - 1, k + 1;
    }
    ShufflePermutes(s, picks, |picks|);
  }

  /** One exchange of shuffleArray, in place. */
  method SwapAt<T>(a: array<T>, i: nat, j: nat)
    requires i < a.Length && j < a.Length
    modifies a
    ensures a[..] == Swap(old(a[..]), i, j)
  {
    a[i], a[j] := a[j], a[i];
  }

  // ---------------------------------------------------------------------
  // Targeting

  /** The four neighbour directions, in the source's listing order. */
  datatype Dir = North | South | West | East

  function DRow(d: Dir): int {
    match d
      case North => -1
      case South => 1
      case West => 0
      case East => 0
  }

  function DCol(d: Dir): int {
    match d
      case North => 0
      case South => 0
      case West => -1
      case East => 1
  }

  function Step(p: Pos, d: Dir): Pos {
    Pos(p.row + DRow(d), p.col + DCol(d))
  }

  /** How many steps along d remain on the grid; it drops by one each step. */
  function Remaining(p: Pos, d: Dir): int {
    match d
      case North => p.row
      case South => BoardSize - 1 - p.row
      case West => p.col
      case East => BoardSize - 1 - p.col
  }

  /** The walk of getNextMove in one direction from q: cells of the named
      ship are enqueued and the walk goes on; the first empty cell is enqueued
      and ends it; another ship's cell or the edge ends it with nothing. */
  function Walk(g: Grid, q: Pos, d: Dir, name: string): seq<Pos>
    requires WellFormed(g)
    decreases Remaining(q, d)
  {
    if !InBounds(q) then []
    else match At(g, q).hasShip
      case Some(o) =>
        if o.name == name then [q] + Walk(g, Step(q, d), d, name) else []
      case None => [q]
  }

  /** The walks in every direction of dirs, in order, from c. */
  function Probes(g: Grid, c: Pos, dirs: seq<Dir>, name: string): seq<Pos>
    requires WellFormed(g)
  {
    if dirs == [] then []
    else Probes(g, c, dirs[..|dirs| - 1], name) + Walk(g, Step(c, dirs[|dirs| - 1]), dirs[|dirs| - 1], name)
  }

  lemma ProbesSnoc(g: Grid, c: Pos, dirs: seq<Dir>, t: nat, name: string)
    requires WellFormed(g) && t < |dirs|
    ensures Probes(g, c, dirs[..t + 1], name) == Probes(g, c, dirs[..t], name) + Walk(g, Step(c, dirs[t]), dirs[t], name)
  {
    assert dirs[..t + 1][..t] == dirs[..t] && dirs[..t + 1][t] == dirs[t];
  }

  /** The i-th cell along d from q. */
  function Ray(q: Pos, d: Dir, i: int): Pos {
    match d
      case North => Pos(q.row - i, q.col)
      case South => Pos(q.row + i, q.col)
      case West => Pos(q.row, q.col - i)
      case East => Pos(q.row, q.col + i)
  }

  /** A walk is a straight run along d from q, on the grid: all but its last
      cell hold the named ship, and the last holds that ship or nothing. */
  lemma {:induction false} WalkShape(g: Grid, q: Pos, d: Dir, name: string)
    requires WellFormed(g)
    ensures var w := Walk(g, q, d, name);
      && AllInBounds(w)
      && (forall i :: 0 <= i < |w| ==> w[i] == Ray(q, d, i))
      && (forall i :: 0 <= i < |w| - 1 ==> At(g, w[i]).hasShip.Some? && At(g, w[i]).hasShip.value.name == name)
      && (w != [] ==> At(g, w[|w| - 1]).hasShip.None? || At(g, w[|w| - 1]).hasShip.value.name == name)
    decreases Remaining(q, d)
  {
    if InBounds(q) && At(g, q).hasShip.Some? && At(g, q).hasShip.value.name == name {
      var rest := Walk(g, Step(q, d), d, name);
      WalkShape(g, Step(q, d), d, name);
      var w := [q] + rest;
      assert w == Walk(g, q, d, name);
      forall i | 0 <= i < |w| ensures w[i] == Ray(q, d, i) {
        if i > 0 {
          assert w[i] == rest[i - 1];
        }
      }
      forall i | 0 <= i < |w| - 1 ensures At(g, w[i]).hasShip.Some? && At(g, w[i]).hasShip.value.name == name {
        if i > 0 {
          assert w[i] == rest[i - 1];
        }
      }
      assert w[|w| - 1] == if rest == [] then q else rest[|rest| - 1];
    }
  }

  /** Whether p is an on-grid cell of the named ship. */
  predicate OfShip(g: Grid, p: Pos, name: string)
    requires WellFormed(g)
  {
    InBounds(p) && At(g, p).hasShip.Some? && At(g, p).hasShip.value.name == name
  }

  /** Whether p stops a walk without being enqueued: it is off the grid or
      holds another ship. */
  predicate Blocks(g: Grid, p: Pos, name: string)
    requires WellFormed(g)
  {
    !InBounds(p) || (At(g, p).hasShip.Some? && At(g, p).hasShip.value.name != name)
  }

  /** A walk goes as far as it can: unless it ended on an empty cell, the
      next cell along d past its end is off the grid or holds another ship. */
  lemma {:induction false} WalkStops(g: Grid, q: Pos, d: Dir, name: string)
    requires WellFormed(g)
    ensures var w := Walk(g, q, d, name);
      (w == [] || OfShip(g, w[|w| - 1], name)) ==> Blocks(g, Ray(q, d, |w|), name)
    decreases Remaining(q, d)
  {
    if OfShip(g, q, name) {
      var rest := Walk(g, Step(q, d), d, name);
      WalkStops(g, Step(q, d), d, name);
      assert Walk(g, q, d, name) == [q] + rest;
      assert Ray(Step(q, d), d, |rest|) == Ray(q, d, |rest| + 1);
      if rest != [] {
        assert ([q] + rest)[|rest|] == rest[|rest| - 1];
      }
    }
  }

  lemma {:induction false} ProbesInBounds(g: Grid, c: Pos, dirs: seq<Dir>, name: string)
    requires WellFormed(g)
    ensures AllInBounds(Probes(g, c, dirs, name))
  {
    if dirs != [] {
      var d := dirs[|dirs| - 1];
      ProbesInBounds(g, c, dirs[..|dirs| - 1], name);
      WalkShape(g, Step(c, d), d, name);
    }
  }

  /** The index of the first draw not yet targeted. */
  function FirstFree(draws: seq<Pos>, targeted: set<Pos>): (i: nat)
    requires exists k :: 0 <= k < |draws| && draws[k] !in targeted
    ensures i < |draws| && draws[i] !in targeted
    ensures forall k :: 0 <= k < i ==> draws[k] in targeted
  {
    if draws[0] !in targeted then 0
    else
      assert exists k :: 0 <= k < |draws[1..]| && draws[1..][k] !in targeted by {
        var k :| 0 <= k < |draws| && draws[k] !in targeted;
        assert draws[1..][k - 1] == draws[k];
      }
      1 + FirstFree(draws[1..], targeted)
  }

  /** The targeting state of a Computer. */
  datatype AIState = AIState(targeted: set<Pos>, queue: seq<Pos>, allHits: nat)

  const Directions: seq<Dir> := [North, South, West, East]

  /** Whether a random-cell draw sequence reaches an untargeted cell. */
  predicate HasFree(draws: seq<Pos>, targeted: set<Pos>) {
    exists k :: 0 <= k < |draws| && draws[k] !in targeted
  }

  /** getNextMove against the opponent's unmasked grid g. With a pending
      queue its front is the move. Otherwise a random untargeted cell is the
      move; if it holds a ship, the walks from it in the shuffled directions
      become the queue. Either way the move is recorded as targeted and the
      move counter goes up by one. */
  function NextMove(ai: AIState, g: Grid, draws: seq<Pos>, picks: seq<int>): (AIState, Pos)
    requires WellFormed(g) && AllInBounds(draws) && ValidPicks(picks, 4)
    requires ai.queue == [] ==> HasFree(draws, ai.targeted)
  {
    if ai.queue != [] then
      var m := ai.queue[0];
      (AIState(ai.targeted + {m}, ai.queue[1..], ai.allHits + 1), m)
    else
      var c := draws[FirstFree(draws, ai.targeted)];
      assert c in draws;
      match At(g, c).hasShip
        case None => (AIState(ai.targeted + {c}, [], ai.allHits + 1), c)
        case Some(o) =>
          var q := [c] + Probes(g, c, Shuffle(Directions, picks), o.name);
          (AIState(ai.targeted + {q[0]}, q[1..], ai.allHits + 1), q[0])
  }

  /** Every call records its move as targeted and counts exactly one move;
      the move and the queue stay on the grid. */
  lemma NextMoveAccounting(ai: AIState, g: Grid, draws: seq<Pos>, picks: seq<int>)
    requires WellFormed(g) && AllInBounds(draws) && ValidPicks(picks, 4)
    requires ai.queue == [] ==> HasFree(draws, ai.targeted)
    requires AllInBounds(ai.queue)
    ensures var (next, m) := NextMove(ai, g, draws, picks);
      && next.targeted == ai.targeted + {m}
      && next.allHits == ai.allHits + 1
      && InBounds(m)
      && AllInBounds(next.queue)
  {
    if ai.queue == [] {
      var c := draws[FirstFree(draws, ai.targeted)];
      assert c in draws;
      if At(g, c).hasShip.Some? {
        ProbesInBounds(g, c, Shuffle(Directions, picks), At(g, c).hasShip.value.name);
      }
    } else {
      assert ai.queue[0] in ai.queue;
    }
  }

  /** A pending queue is drained front first, whatever the board and draws. */
  lemma QueueFirst(ai: AIState, g1: Grid, g2: Grid, draws1: seq<Pos>, draws2: seq<Pos>, picks1: seq<int>, picks2: seq<int>)
    requires WellFormed(g1) && AllInBounds(draws1) && ValidPicks(picks1, 4)
    requires WellFormed(g2) && AllInBounds(draws2) && ValidPicks(picks2, 4)
    requires ai.queue != []
    ensures NextMove(ai, g1, draws1, picks1) == NextMove(ai, g2, draws2, picks2)
    ensures NextMove(ai, g1, draws1, picks1).1 == ai.queue[0]
    ensures NextMove(ai, g1, draws1, picks1).0.queue == ai.queue[1..]
  {
  }

  /** With no queue the move is the first untargeted draw, so it is a cell
      never targeted before; on an empty cell the queue stays empty, on an
      occupied one the queue becomes the probes around it. */
  lemma HuntMove(ai: AIState, g: Grid, draws: seq<Pos>, picks: seq<int>)
    requires WellFormed(g) && AllInBounds(draws) && ValidPicks(picks, 4)
    requires ai.queue == [] && HasFree(draws, ai.targeted)
    ensures var (next, m) := NextMove(ai, g, draws, picks);
      && m == draws[FirstFree(draws, ai.targeted)]
      && m !in ai.targeted
      && (At(g, m).hasShip.None? ==> next.queue == [])
      && (At(g, m).hasShip.Some? ==>
            next.queue == Probes(g, m, Shuffle(Directions, picks), At(g, m).hasShip.value.name))
  {
    var c := draws[FirstFree(draws, ai.targeted)];
    assert c in draws;
    if At(g, c).hasShip.Some? {
      var q := [c] + Probes(g, c, Shuffle(Directions, picks), At(g, c).hasShip.value.name);
      assert q[0] == c && q[1..] == Probes(g, c, Shuffle(Directions, picks), At(g, c).hasShip.value.name);
    }
  }

  /** Whatever the draws, the shuffled directions are the four directions,
      each exactly once. */
  lemma ShuffledDirections(picks: seq<int>)
    requires ValidPicks(picks, 4)
    ensures var ds := Shuffle(Directions, picks);
      |ds| == 4 && forall d: Dir :: multiset(ds)[d] == 1
  {
    ShufflePermutes(Directions, picks, |picks|);
    DirectionsOnce();
  }

  /** The direction table lists each direction once. */
  lemma DirectionsOnce()
    ensures forall d: Dir :: multiset(Directions)[d] == 1
  {
    assert Directions == [North] + [South] + [West] + [East];
    assert multiset(Directions) == multiset{North} + multiset{South} + multiset{West} + multiset{East};
    forall d: Dir ensures multiset(Directions)[d] == 1 {
      match d
      case North =>
      case South =>
      case West =>
      case East =>
    }
  }

  // ---------------------------------------------------------------------
  // Fleet placement

  /** One entry of the fleet table. */
  datatype ShipSpec = ShipSpec(name: string, length: nat)

  /** One random placement attempt: an axis and an origin. */
  datatype Draw = Draw(axis: Axis, row: nat, col: nat)

  /** placeShips: each fleet ship in turn is retried with the next draw until
      setupShips accepts it. None when the draws run out first. */
  function PlaceFleet(ps: PlayerState, fleet: seq<ShipSpec>, draws: seq<Draw>): (r: Option<PlayerState>)
    requires WellFormed(ps.cells)
    ensures r.Some? ==> WellFormed(r.value.cells)
    ensures fleet != [] && r.Some? ==> draws != []
    decreases |draws|
  {
    if fleet == [] then Some(ps)
    else if draws == [] then None
    else
      var d := draws[0];
      var (after, _, ok) := Setup(ps, NewShip(fleet[0].name, fleet[0].length), d.row, d.col, d.axis);
      if ok then PlaceFleet(after, fleet[1..], draws[1..]) else PlaceFleet(ps, fleet, draws[1..])
  }

  function Names(fleet: seq<ShipSpec>): seq<string> {
    seq(|fleet|, k requires 0 <= k < |fleet| => fleet[k].name)
  }

  /** Whether no cell of the grid has been shot. */
  ghost predicate Unshot(g: Grid)
    requires WellFormed(g)
  {
    forall p :: InBounds(p) ==> !At(g, p).isHit
  }

  /** A completed placement appends the fleet to the roster in order, each
      ship with its own name and length, and leaves the log and the open flag
      alone. */
  lemma {:induction false} PlaceFleetShape(ps: PlayerState, fleet: seq<ShipSpec>, draws: seq<Draw>)
    requires WellFormed(ps.cells)
    requires PlaceFleet(ps, fleet, draws).Some?
    ensures var r := PlaceFleet(ps, fleet, draws).value;
      && |r.ships| == |ps.ships| + |fleet|
      && r.ships[..|ps.ships|] == ps.ships
      && (forall k :: 0 <= k < |fleet| ==>
            r.ships[|ps.ships| + k].name == fleet[k].name && r.ships[|ps.ships| + k].length == fleet[k].length)
      && r.sunkShips == ps.sunkShips && r.allowed == ps.allowed
    decreases |draws|
  {
    if fleet != [] {
      var d := draws[0];
      var s := NewShip(fleet[0].name, fleet[0].length);
      var (after, placed, ok) := Setup(ps, s, d.row, d.col, d.axis);
      SetupEffect(ps, s, d.row, d.col, d.axis);
      if ok {
        PlaceFleetShape(after, fleet[1..], draws[1..]);
        var r := PlaceFleet(ps, fleet, draws).value;
        assert r == PlaceFleet(after, fleet[1..], draws[1..]).value;
        assert r.ships[..|ps.ships|] == r.ships[..|after.ships|][..|ps.ships|];
        forall k | 0 <= k < |fleet|
          ensures r.ships[|ps.ships| + k].name == fleet[k].name && r.ships[|ps.ships| + k].length == fleet[k].length
        {
          if k == 0 {
            assert r.ships[|ps.ships|] == r.ships[..|after.ships|][|ps.ships|];
          } else {
            assert fleet[1..][k - 1] == fleet[k];
          }
        }
      } else {
        PlaceFleetShape(ps, fleet, draws[1..]);
      }
    }
  }

  /** Placement keeps the grid shape. */
  lemma {:induction false} PlaceFleetShaped(ps: PlayerState, fleet: seq<ShipSpec>, draws: seq<Draw>)
    requires Shaped(ps) && PlaceFleet(ps, fleet, draws).Some?
    ensures Shaped(PlaceFleet(ps, fleet, draws).value)
    decreases |draws|
  {
    if fleet != [] {
      var d := draws[0];
      var s := NewShip(fleet[0].name, fleet[0].length);
      SetupShaped(ps, s, d.row, d.col, d.axis);
      var (after, _, ok) := Setup(ps, s, d.row, d.col, d.axis);
      if ok {
        PlaceFleetShaped(after, fleet[1..], draws[1..]);
      } else {
        PlaceFleetShaped(ps, fleet, draws[1..]);
      }
    }
  }

  /** A placement attempt never marks a cell hit. */
  lemma SetupUnshot(ps: PlayerState, s: ShipState, row: nat, col: nat, axis: Axis)
    requires WellFormed(ps.cells) && Unshot(ps.cells)
    ensures Unshot(Setup(ps, s, row, col, axis).0.cells)
  {
    if Setup(ps, s, row, col, axis).2 {
      PlaceOnGridEffect(ps.cells, s.name, s.length, row, col, axis);
    }
  }

  /** Placement never marks a cell hit. */
  lemma {:induction false} PlaceFleetUnshot(ps: PlayerState, fleet: seq<ShipSpec>, draws: seq<Draw>)
    requires WellFormed(ps.cells) && Unshot(ps.cells)
    requires PlaceFleet(ps, fleet, draws).Some?
    ensures Unshot(PlaceFleet(ps, fleet, draws).value.cells)
    decreases |draws|
  {
    if fleet != [] {
      var d := draws[0];
      var s := NewShip(fleet[0].name, fleet[0].length);
      var (after, placed, ok) := Setup(ps, s, d.row, d.col, d.axis);
      SetupUnshot(ps, s, d.row, d.col, d.axis);
      if ok {
        PlaceFleetUnshot(after, fleet[1..], draws[1..]);
      } else {
        PlaceFleetUnshot(ps, fleet, draws[1..]);
      }
    }
  }

  /** The names of a fleet's tail stay distinct and new once its head has
      joined the roster. */
  lemma FreshNamesTail(ships: seq<ShipState>, placed: ShipState, fleet: seq<ShipSpec>)
    requires fleet != [] && placed.name == fleet[0].name && Distinct(Names(fleet))
    requires forall k :: 0 <= k < |fleet| ==> FindByName(ships, fleet[k].name).None?
    ensures Distinct(Names(fleet[1..]))
    ensures forall k :: 0 <= k < |fleet[1..]| ==> FindByName(ships + [placed], fleet[1..][k].name).None?
  {
    forall i, j | 0 <= i < j < |fleet[1..]| ensures Names(fleet[1..])[i] != Names(fleet[1..])[j] {
      assert Names(fleet)[i + 1] != Names(fleet)[j + 1];
    }
    forall k | 0 <= k < |fleet[1..]| ensures FindByName(ships + [placed], fleet[1..][k].name).None? {
      FindAppend(ships, placed, fleet[k + 1].name);
      assert Names(fleet)[0] != Names(fleet)[k + 1];
    }
  }

  /** From a consistent unshot side, placing a fleet of distinct names new to
      the roster gives a consistent side. */
  lemma {:induction false} PlaceFleetConsistent(ps: PlayerState, fleet: seq<ShipSpec>, draws: seq<Draw>)
    requires Consistent(ps) && Unshot(ps.cells) && Distinct(Names(fleet))
    requires forall k :: 0 <= k < |fleet| ==> FindByName(ps.ships, fleet[k].name).None?
    requires PlaceFleet(ps, fleet, draws).Some?
    ensures Consistent(PlaceFleet(ps, fleet, draws).value)
    decreases |draws|
  {
    if fleet != [] {
      var d := draws[0];
      var s := NewShip(fleet[0].name, fleet[0].length);
      var (after, placed, ok) := Setup(ps, s, d.row, d.col, d.axis);
      if ok {
        SetupPreserves(ps, s, d.row, d.col, d.axis);
        SetupUnshot(ps, s, d.row, d.col, d.axis);
        SetupEffect(ps, s, d.row, d.col, d.axis);
        assert Names(fleet)[0] == fleet[0].name;
        FreshNamesTail(ps.ships, placed, fleet);
        PlaceFleetConsistent(after, fleet[1..], draws[1..]);
      } else {
        PlaceFleetConsistent(ps, fleet, draws[1..]);
      }
    }
  }

  // ---------------------------------------------------------------------
  // The object

  /** A Computer is a side whose moves are chosen by the targeting state. */
  class Computer {
    const side: Player
    var targetedCells: set<Pos>
    var possibleHits: seq<Pos>
    var allHits: nat

    function Model(): AIState
      reads this
    {
      AIState(targetedCells, possibleHits, allHits)
    }

    /** The constructor: a fresh side with the fleet placed, nothing targeted,
        no queue and no moves counted. */
    constructor (fleet: seq<ShipSpec>, draws: seq<Draw>)
      requires PlaceFleet(NewPlayer(), fleet, draws).Some?
      ensures side.Valid() && fresh(side.Repr())
      ensures side.Model() == PlaceFleet(NewPlayer(), fleet, draws).value
      ensures Model() == AIState({}, [], 0)
    {
      side := new Player();
      targetedCells := {};
      possibleHits := [];
      allHits := 0;
      new;
      PlaceShips(fleet, draws);
    }

    /** placeShips: new ships for the fleet, each retried with the next draw
        until setupShips accepts it. */
    method PlaceShips(fleet: seq<ShipSpec>, draws: seq<Draw>)
      requires side.Valid()
      requires PlaceFleet(side.Model(), fleet, draws).Some?
      modifies side`ships, side.board`cells
      ensures side.Valid()
      ensures side.Model() == PlaceFleet(old(side.Model()), fleet, draws).value
      ensures fresh(side.Repr() - old(side.Repr()))
    {
      ghost var target := PlaceFleet(side.Model(), fleet, draws);
      var j := 0;
      for i := 0 to |fleet|
        invariant 0 <= j <= |draws|
        invariant side.Valid()
        invariant PlaceFleet(side.Model(), fleet[i..], draws[j..]) == target
        invariant fresh(side.Repr() - old(side.Repr()))
      {
        assert fleet[i..] == [fleet[i]] + fleet[i + 1..];
        j := PlaceOne(fleet[i], fleet[i + 1..], draws, j);
      }
      assert fleet[|fleet|..] == [];
    }

    /** One round of placeShips' forEach: a new ship for spec, retried with
        draws from index j0 on until it is placed. */
    method PlaceOne(spec: ShipSpec, rest: seq<ShipSpec>, draws: seq<Draw>, j0: nat) returns (j: nat)
      requires side.Valid() && j0 <= |draws|
      requires PlaceFleet(side.Model(), [spec] + rest, draws[j0..]).Some?
      modifies side`ships, side.board`cells
      ensures side.Valid() && j0 < j <= |draws|
      ensures PlaceFleet(side.Model(), rest, draws[j..]) == PlaceFleet(old(side.Model()), [spec] + rest, draws[j0..])
      ensures exists ship: Ship :: fresh(ship) && side.ships == old(side.ships) + [ship]
    {
      ghost var target := PlaceFleet(side.Model(), [spec] + rest, draws[j0..]);
      var ship := new Ship(spec.name, spec.length);
      j := j0;
      var invalidPlacement := true;
      while invalidPlacement
        invariant j0 <= j <= |draws|
        invariant side.Valid()
        invariant invalidPlacement ==> ship.Model() == NewShip(spec.name, spec.length) && ship !in side.ships
        invariant PlaceFleet(side.Model(), if invalidPlacement then [spec] + rest else rest, draws[j..]) == target
        invariant !invalidPlacement ==> j0 < j
        invariant side.ships == old(side.ships) + (if invalidPlacement then [] else [ship])
        decreases |draws| - j
      {
        var placed := Attempt(ship, spec, rest, draws, j);
        j := j + 1;
        invalidPlacement := !placed;
      }
    }

    /** One iteration of placeShips' retry loop: setupShips with draw j. */
    method Attempt(ship: Ship, spec: ShipSpec, rest: seq<ShipSpec>, draws: seq<Draw>, j: nat) returns (placed: bool)
      requires side.Valid() && ship !in side.ships && ship.Model() == NewShip(spec.name, spec.length)
      requires j <= |draws| && PlaceFleet(side.Model(), [spec] + rest, draws[j..]).Some?
      modifies side`ships, side.board`cells, ship`positions
      ensures side.Valid() && j < |draws|
      ensures placed ==> side.ships == old(side.ships) + [ship]
      ensures placed ==> PlaceFleet(side.Model(), rest, draws[j + 1..]) == PlaceFleet(old(side.Model()), [spec] + rest, draws[j..])
      ensures !placed ==> side.ships == old(side.ships) && ship.Model() == old(ship.Model())
      ensures !placed ==> PlaceFleet(side.Model(), [spec] + rest, draws[j + 1..]) == PlaceFleet(old(side.Model()), [spec] + rest, draws[j..])
    {
      var d := draws[j];
      assert ([spec] + rest)[0] == spec && ([spec] + rest)[1..] == rest;
      assert draws[j..][0] == d && draws[j..][1..] == draws[j + 1..];
      placed := side.SetupShips(ship, d.row, d.col, d.axis);
    }

    /** getRandomUntargetedCell: the first draw not yet targeted. */
    method GetRandomUntargetedCell(draws: seq<Pos>) returns (cell: Pos)
      requires AllInBounds(draws) && HasFree(draws, targetedCells)
      ensures cell == draws[FirstFree(draws, targetedCells)]
      ensures InBounds(cell) && cell !in targetedCells
    {
      var i := 0;
      cell := draws[0];
      while cell in targetedCells
        invariant 0 <= i < |draws| && cell == draws[i]
        invariant forall k :: 0 <= k < i ==> draws[k] in targetedCells
        invariant i <= FirstFree(draws, targetedCells)
        decreases FirstFree(draws, targetedCells) - i
      {
        i := i + 1;
        cell := draws[i];
      }
      assert cell in draws;
    }

    /** getNextMove after a hunt hit at c: enqueues the walk in each of the
        shuffled directions, in order. */
    method EnqueueAround(board: Grid, c: Pos, name: string, directions: array<Dir>)
      requires WellFormed(board)
      modifies this`possibleHits
      ensures possibleHits == old(possibleHits) + Probes(board, c, directions[..], name)
    {
      ghost var dirs := directions[..];
      for t := 0 to directions.Length
        invariant possibleHits == old(possibleHits) + Probes(board, c, dirs[..t], name)
      {
        EnqueueWalk(board, c, directions[t], name);
        ProbesSnoc(board, c, dirs, t, name);
      }
      assert dirs[..directions.Length] == dirs;
    }

    /** The four directions, shuffled in place. */
    static method ShuffledDirections(picks: seq<int>) returns (directions: array<Dir>)
      requires ValidPicks(picks, 4)
      ensures fresh(directions) && directions[..] == Shuffle(Directions, picks)
    {
      directions := new Dir[4][North, South, West, East];
      assert directions[..] == Directions;
      ShuffleArray(directions, picks);
    }

    /** The while loop of getNextMove for one direction. */
    method EnqueueWalk(board: Grid, c: Pos, dir: Dir, name: string)
      requires WellFormed(board)
      modifies this`possibleHits
      ensures possibleHits == old(possibleHits) + Walk(board, Step(c, dir), dir, name)
    {
      var newRow := c.row + DRow(dir);
      var newCol := c.col + DCol(dir);
      while 0 <= newRow < BoardSize && 0 <= newCol < BoardSize
        invariant old(possibleHits) + Walk(board, Step(c, dir), dir, name)
               == possibleHits + Walk(board, Pos(newRow, newCol), dir, name)
        decreases Remaining(Pos(newRow, newCol), dir)
      {
        var cell := At(board, Pos(newRow, newCol));
        if cell.hasShip.Some? && cell.hasShip.value.name == name {
          possibleHits := possibleHits + [Pos(newRow, newCol)];
          newRow := newRow + DRow(dir);
          newCol := newCol + DCol(dir);
        } else if cell.hasShip.None? {
          possibleHits := possibleHits + [Pos(newRow, newCol)];
          break;
        } else {
          break;
        }
      }
    }

    /** getNextMove against the opponent's unmasked grid. */
    method GetNextMove(board: Grid, draws: seq<Pos>, picks: seq<int>) returns (nextMove: Pos)
      requires WellFormed(board) && AllInBounds(draws) && ValidPicks(picks, 4)
      requires possibleHits == [] ==> HasFree(draws, targetedCells)
      modifies this
      ensures (Model(), nextMove) == NextMove(old(Model()), board, draws, picks)
    {
      if possibleHits != [] {
        nextMove := possibleHits[0];
        possibleHits := possibleHits[1..];
        allHits := allHits + 1;
        targetedCells := targetedCells + {nextMove};
        return;
      }
      nextMove := GetRandomUntargetedCell(draws);
      if At(board, nextMove).hasShip.None? {
        allHits := allHits + 1;
        targetedCells := targetedCells + {nextMove};
        return;
      }
      possibleHits := possibleHits + [nextMove];
      var currentShipName := At(board, nextMove).hasShip.value.name;
      var directions := ShuffledDirections(picks);
      EnqueueAround(board, nextMove, currentShipName, directions);
      nextMove := possibleHits[0];
      possibleHits := possibleHits[1..];
      targetedCells := targetedCells + {nextMove};
      allHits := allHits + 1;
    }
  }
}
