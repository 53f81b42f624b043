/** A room of two sides and its turn-taking state machine (src/room.ts),
    without the sockets: the two sides in insertion order, the full flag, and
    the match data that is absent while waiting, then started or ended. */
module Rooms {
  import opened Common
  import opened Ships
  import opened Boards
  import opened Players
  import opened Computers

  datatype Status = Started | Ended

  /** roomData once a match has started. */
  datatype RoomData = RoomData(turn: string, status: Status, winner: Option<string>)

  /** One entry of the players dictionary, as a value: its id and name, its
      ready flag, its side and, for a computer, its targeting state. */
  datatype Side = Side(id: string, name: string, ready: bool, player: PlayerState, ai: Option<AIState>)

  /** The value held by a Room object. */
  datatype RoomState = RoomState(players: seq<Side>, isFull: bool, roomData: Option<RoomData>)

  /** A computer counter-move waiting on its timer: who shot, who answers. */
  datatype Schedule = Schedule(attacker: nat, receiver: nat)

  function NewRoom(): RoomState {
    RoomState([], false, None)
  }

  /** `const [id1, id2] = Object.keys(players)` followed by
      `userId === id1 ? players[id1] : players[id2]`: the caller's index. */
  function Mine(ps: seq<Side>, id: string): nat {
    if |ps| > 0 && ps[0].id == id then 0 else 1
  }

  /** `userId === id1 ? players[id2] : players[id1]`: the other index. */
  function Theirs(ps: seq<Side>, id: string): nat {
    if |ps| > 0 && ps[0].id == id then 1 else 0
  }

  /** The index of the entry under key id. */
  function IndexOf(ps: seq<Side>, id: string): (r: Option<nat>)
    ensures r.Some? ==> r.value < |ps| && ps[r.value].id == id
    ensures r.None? ==> forall k :: 0 <= k < |ps| ==> ps[k].id != id
  {
    if ps == [] then None
    else if ps[0].id == id then Some(0)
    else match IndexOf(ps[1..], id)
      case None => None
      case Some(k) => Some(k + 1)
  }

  predicate UniqueIds(ps: seq<Side>) {
    forall i, j :: 0 <= i < j < |ps| ==> ps[i].id != ps[j].id
  }

  /** Every side's board has the grid shape. */
  ghost predicate SidesShaped(ps: seq<Side>) {
    forall k :: 0 <= k < |ps| ==> Shaped(ps[k].player)
  }

  /** The room invariant: at most two entries under distinct keys, full
      exactly when there are two, and a match only in a full room. */
  ghost predicate RoomInv(rs: RoomState) {
    && |rs.players| <= 2
    && UniqueIds(rs.players)
    && SidesShaped(rs.players)
    && (rs.isFull <==> |rs.players| == 2)
    && (rs.roomData.Some? ==> |rs.players| == 2)
  }

  /** addPlayer and addComputer: refused once two entries exist; otherwise
      the entry is stored under its key (replacing one under the same key in
      place, else appended) and the room is full once it holds two. */
  function Add(rs: RoomState, side: Side): (RoomState, bool) {
    if |rs.players| >= 2 then (rs, false)
    else
      var ps := match IndexOf(rs.players, side.id)
        case Some(k) => rs.players[k := side]
        case None => rs.players + [side];
      (rs.(players := ps, isFull := rs.isFull || |ps| >= 2), true)
  }

  /** The entry addPlayer stores: not ready, an empty side, no targeting. */
  function HumanSide(id: string, name: string): Side {
    Side(id, name, false, NewPlayer(), None)
  }

  /** The entry addComputer stores: ready, its placed fleet, fresh targeting. */
  function ComputerSide(id: string, name: string, placed: PlayerState): Side {
    Side(id, name, true, placed, Some(AIState({}, [], 0)))
  }

  /** startGame: marks the caller's entry ready (throws if it is missing);
      answers false unless the room is full and the opponent is ready; else
      starts the match with the caller to move and no winner. */
  function Start(rs: RoomState, id: string): (RoomState, Result<bool>) {
    var ps := rs.players;
    var i := Mine(ps, id);
    var j := Theirs(ps, id);
    if i >= |ps| then (rs, Err(PlayerNotFound))
    else
      var ps1 := ps[i := ps[i].(ready := true)];
      if !rs.isFull then (rs.(players := ps1), Ok(false))
      else if j >= |ps1| then (rs.(players := ps1), Err(PlayerNotFound))
      else if !ps1[j].ready then (rs.(players := ps1), Ok(false))
      else (RoomState(ps1, rs.isFull, Some(RoomData(id, Started, None))), Ok(true))
  }

  /** broadcastShot: ignored (None) unless a match is on and it is the
      caller's turn. Otherwise the receiving side resolves the shot; a throw
      leaves the turn alone; any answer hands the turn to the receiver, and a
      report of 3 ends the match with the caller as winner. A computer
      receiver gets a counter-move scheduled. */
  function Fire(rs: RoomState, id: string, row: int, col: int): (RoomState, Option<Result<HitData>>, Option<Schedule>)
    requires SidesShaped(rs.players)
  {
    if rs.roomData.None? || rs.roomData.value.status == Ended then (rs, None, None)
    else if rs.roomData.value.turn != id then (rs, None, None)
    else
      var ps := rs.players;
      var a := Mine(ps, id);
      var r := Theirs(ps, id);
      if a >= |ps| || r >= |ps| then (rs, Some(Err(PlayerNotFound)), None)
      else
        var (after, res) := Shot(ps[r].player, row, col);
        var ps1 := ps[r := ps[r].(player := after)];
        if res.Err? then (rs.(players := ps1), Some(res), None)
        else
          var rd := rs.roomData.value.(turn := ps[r].id);
          var rd1 := if res.value.report == 3 then rd.(winner := Some(id), status := Ended) else rd;
          var next := if ps[r].ai.Some? then Some(Schedule(a, r)) else None;
          (RoomState(ps1, rs.isFull, Some(rd1)), Some(res), next)
  }

  /** What the draws of a counter-move must supply: cells and picks in
      range, and an untargeted cell when the queue is empty. */
  predicate CounterDraws(ai: AIState, draws: seq<Pos>, picks: seq<int>) {
    AllInBounds(draws) && ValidPicks(picks, 4) && (ai.queue == [] ==> HasFree(draws, ai.targeted))
  }

  /** computerPlays when its timer fires: ignored unless a match exists, the
      receiver is a computer and it is the receiver's turn. Then the computer
      picks its move on the attacker's unmasked board and fires it. The
      status is not checked, so after a winning shot the targeting state
      still advances while the shot itself is ignored. */
  function Counter(rs: RoomState, s: Schedule, draws: seq<Pos>, picks: seq<int>): (RoomState, Option<Result<HitData>>, Option<Schedule>)
    requires SidesShaped(rs.players) && s.attacker < |rs.players| && s.receiver < |rs.players|
    requires rs.players[s.receiver].ai.Some? ==> CounterDraws(rs.players[s.receiver].ai.value, draws, picks)
  {
    var ps := rs.players;
    var rcv := ps[s.receiver];
    if rs.roomData.None? then (rs, None, None)
    else if rcv.ai.None? || rs.roomData.value.turn != rcv.id then (rs, None, None)
    else
      var (ai1, cell) := NextMove(rcv.ai.value, ps[s.attacker].player.cells, draws, picks);
      var rs1 := rs.(players := ps[s.receiver := rcv.(ai := Some(ai1))]);
      assert SidesShaped(rs1.players) by {
        forall k | 0 <= k < |rs1.players| ensures Shaped(rs1.players[k].player) {
          assert rs1.players[k].player == ps[k].player;
        }
      }
      Fire(rs1, rcv.id, cell.row, cell.col)
  }

  /** The answer of setupBoard: whether the ship was placed and, if so, the
      side's roster and full board. */
  datatype SetupReply = SetupReply(valid: bool, ships: Option<seq<ShipInfo>>, board: Option<Grid>)

  /** setupBoard: nothing (undefined) when no entry has the key; otherwise
      the entry's side places the ship and the answer carries its view. */
  function SetupFor(rs: RoomState, id: string, s: ShipState, row: nat, col: nat, axis: Axis): (RoomState, ShipState, Option<SetupReply>)
    requires SidesShaped(rs.players)
  {
    match IndexOf(rs.players, id)
    case None => (rs, s, None)
    case Some(k) =>
      var (after, placed, ok) := Setup(rs.players[k].player, s, row, col, axis);
      var reply := SetupReply(ok, if ok then Some(DataToSelf(after).ships) else None, if ok then Some(DataToSelf(after).board) else None);
      (rs.(players := rs.players[k := rs.players[k].(player := after)]), placed, Some(reply))
  }

  // ---------------------------------------------------------------------
  // Properties

  lemma NewRoomInv()
    ensures RoomInv(NewRoom())
  {
  }

  /** Adding: refused with no change when two entries exist; otherwise the
      entry is stored under its key and the room is full exactly when it now
      holds two. The stored entry is ready exactly for a computer. */
  lemma AddEffect(rs: RoomState, side: Side)
    requires RoomInv(rs) && Shaped(side.player)
    ensures var (after, ok) := Add(rs, side);
      && (ok <==> |rs.players| < 2)
      && (!ok ==> after == rs)
      && (ok ==> IndexOf(after.players, side.id).Some? && after.players[IndexOf(after.players, side.id).value] == side)
      && (ok ==> |after.players| == |rs.players| + (if IndexOf(rs.players, side.id).Some? then 0 else 1))
      && (ok ==> (after.isFull <==> |after.players| == 2))
      && after.roomData == rs.roomData
      && RoomInv(after)
  {
    var (after, ok) := Add(rs, side);
    if ok {
      match IndexOf(rs.players, side.id)
      case Some(k) =>
        assert after.players == rs.players[k := side];
        assert IndexOf(after.players, side.id) == Some(k) by {
          var f := IndexOf(after.players, side.id);
          assert after.players[k].id == side.id;
        }
      case None =>
        assert after.players == rs.players + [side];
        var f := IndexOf(after.players, side.id);
        assert f == Some(|rs.players|) by {
          assert after.players[|rs.players|].id == side.id;
        }
    }
  }

  /** A computer entry starts ready, a human one not. */
  lemma ReadyOnArrival(id: string, name: string, placed: PlayerState)
    ensures !HumanSide(id, name).ready && ComputerSide(id, name, placed).ready
    ensures HumanSide(id, name).ai.None? && ComputerSide(id, name, placed).ai.Some?
  {
  }

  /** Setting up a board: nothing happens for an unknown key; otherwise only
      that entry's side changes, as its setupShips says, and a placed ship's
      answer lists the roster ending with the new ship, and the new board. */
  lemma SetupBoardEffect(rs: RoomState, id: string, s: ShipState, row: nat, col: nat, axis: Axis)
    requires RoomInv(rs)
    ensures var (after, placed, reply) := SetupFor(rs, id, s, row, col, axis);
      && (reply.None? <==> IndexOf(rs.players, id).None?)
      && (reply.None? ==> after == rs && placed == s)
      && (reply.Some? ==>
            var k := IndexOf(rs.players, id).value;
            && (after.players[k].player, placed, reply.value.valid) == Setup(rs.players[k].player, s, row, col, axis)
            && after.players == rs.players[k := rs.players[k].(player := after.players[k].player)]
            && (reply.value.valid ==>
                  && reply.value.board == Some(after.players[k].player.cells)
                  && reply.value.ships.Some? && |reply.value.ships.value| == |rs.players[k].player.ships| + 1
                  && reply.value.ships.value[|rs.players[k].player.ships|] == ShipInfo(s.name, s.length))
            && (!reply.value.valid ==> after == rs && reply.value.ships.None? && reply.value.board.None?))
      && after.isFull == rs.isFull && after.roomData == rs.roomData
      && RoomInv(after)
  {
    match IndexOf(rs.players, id)
    case None =>
    case Some(k) =>
      SetupEffect(rs.players[k].player, s, row, col, axis);
      SetupShaped(rs.players[k].player, s, row, col, axis);
      var after := SetupFor(rs, id, s, row, col, axis).0;
      forall j | 0 <= j < |after.players| ensures Shaped(after.players[j].player) {
      }
  }

  /** Starting: the caller's entry becomes ready (an error exactly when it is
      missing); the match starts exactly when the room is full and the
      opponent is ready, with the caller to move and no winner; otherwise the
      match data is unchanged. Nothing prevents a restart after the end. */
  lemma StartEffect(rs: RoomState, id: string)
    requires RoomInv(rs)
    ensures var (after, r) := Start(rs, id);
      var i := Mine(rs.players, id);
      var j := Theirs(rs.players, id);
      && (r.Err? <==> i >= |rs.players|)
      && (r.Err? ==> after == rs)
      && (r.Ok? ==> after.players == rs.players[i := rs.players[i].(ready := true)] && after.isFull == rs.isFull)
      && (r == Ok(true) <==> i < |rs.players| && rs.isFull && rs.players[j].ready)
      && (r == Ok(true) ==> after.roomData == Some(RoomData(id, Started, None)))
      && (r != Ok(true) ==> after.roomData == rs.roomData)
      && RoomInv(after)
  {
    var (after, r) := Start(rs, id);
    var i := Mine(rs.players, id);
    if i < |rs.players| {
      forall k | 0 <= k < |after.players| ensures Shaped(after.players[k].player) {
        assert after.players[k].player == rs.players[k].player;
      }
    }
  }

  /** A shot is ignored, with nothing changed, while waiting, after the end,
      or out of turn. */
  lemma FireIgnored(rs: RoomState, id: string, row: int, col: int)
    requires SidesShaped(rs.players)
    requires rs.roomData.None? || rs.roomData.value.status == Ended || rs.roomData.value.turn != id
    ensures Fire(rs, id, row, col) == (rs, None, None)
  {
  }

  /** A processed shot in a valid room: the caller is an entry and the turn
      goes to the other entry, whatever the report, repeats included; a
      report of 3 and only that ends the match with the caller as winner; a
      throw leaves the match data alone; only the receiving side changes; a
      counter-move is scheduled exactly for an answering computer. */
  lemma FireEffect(rs: RoomState, id: string, row: int, col: int)
    requires RoomInv(rs)
    requires rs.roomData.Some? && rs.roomData.value.status == Started && rs.roomData.value.turn == id
    ensures var (after, res, next) := Fire(rs, id, row, col);
      var a := Mine(rs.players, id);
      var r := Theirs(rs.players, id);
      && res.Some?
      && a < 2 && r < 2 && a != r
      && |after.players| == 2 && after.players[a] == rs.players[a]
      && after.players[r].id == rs.players[r].id && after.players[r].ai == rs.players[r].ai
      && after.players[r] == rs.players[r].(player := after.players[r].player)
      && (after.players[r].player, res.value) == Shot(rs.players[r].player, row, col)
      && after.isFull == rs.isFull
      && (res.value.Err? ==> after.roomData == rs.roomData && next.None?)
      && (res.value.Ok? ==> after.roomData.Some? && after.roomData.value.turn == rs.players[r].id)
      && (res.value.Ok? ==> (after.roomData.value.status == Ended <==> res.value.value.report == 3))
      && (res.value.Ok? && res.value.value.report == 3 ==> after.roomData.value.winner == Some(id))
      && (res.value.Ok? && res.value.value.report != 3 ==> after.roomData.value.winner == rs.roomData.value.winner)
      && (res.value.Ok? ==> (next.Some? <==> rs.players[r].ai.Some?))
      && (next.Some? ==> next.value == Schedule(a, r))
      && RoomInv(after)
  {
    var (after, res, next) := Fire(rs, id, row, col);
    var r := Theirs(rs.players, id);
    ShotEffectShape(rs.players[r].player, row, col);
    forall k | 0 <= k < |after.players| ensures Shaped(after.players[k].player) {
    }
  }

  /** recieveShot keeps a side's grid shape and its ships' cells. */
  lemma ShotEffectShape(ps: PlayerState, row: int, col: int)
    requires Shaped(ps)
    ensures Shaped(Shot(ps, row, col).0)
    ensures |Shot(ps, row, col).0.ships| == |ps.ships|
    ensures forall k :: 0 <= k < |ps.ships| ==> Shot(ps, row, col).0.ships[k].positions == ps.ships[k].positions
  {
    var p := Pos(row, col);
    if ps.allowed && InBounds(p) && !At(ps.cells, p).isHit && At(ps.cells, p).hasShip.Some? {
      match FindByName(ps.ships, At(ps.cells, p).hasShip.value.name)
      case None =>
      case Some(k) =>
        ShipHitShape(ps.(cells := SetHit(ps.cells, p)), p, k);
    }
  }

  /** The hit part of recieveShot keeps the grid shape and the ships' cells. */
  lemma ShipHitShape(ps: PlayerState, p: Pos, k: nat)
    requires Shaped(ps) && k < |ps.ships|
    ensures var after := ShipHit(ps, p, k).0;
      && Shaped(after) && |after.ships| == |ps.ships|
      && forall l :: 0 <= l < |ps.ships| ==> after.ships[l].positions == ps.ships[l].positions
  {
    var after := ShipHit(ps, p, k).0;
    assert after.ships == ps.ships[k := Hit(ps.ships[k], p)];
  }

  /** Strict alternation: the caller of a processed shot, if it is a real
      entry, cannot shoot again before the other side has. */
  lemma NoDoubleShot(rs: RoomState, id: string, row: int, col: int, row2: int, col2: int)
    requires RoomInv(rs) && IndexOf(rs.players, id).Some?
    requires rs.roomData.Some? && rs.roomData.value.status == Started && rs.roomData.value.turn == id
    ensures var (after, res, _) := Fire(rs, id, row, col);
      res.Some? && res.value.Ok? ==> RoomInv(after) && Fire(after, id, row2, col2).1.None?
  {
    FireEffect(rs, id, row, col);
    var r := Theirs(rs.players, id);
    assert rs.players[r].id != id;
  }

  /** The counter-move's guard: without a match, for a human receiver, or
      when it is not the receiver's turn, nothing happens. After the match
      has ended the receiver's targeting state may advance but nothing else
      changes and no shot is answered. */
  lemma CounterGuard(rs: RoomState, s: Schedule, draws: seq<Pos>, picks: seq<int>)
    requires SidesShaped(rs.players) && s.attacker < |rs.players| && s.receiver < |rs.players|
    requires rs.players[s.receiver].ai.Some? ==> CounterDraws(rs.players[s.receiver].ai.value, draws, picks)
    ensures var (after, res, next) := Counter(rs, s, draws, picks);
      && ((rs.roomData.None? || rs.players[s.receiver].ai.None? || rs.roomData.value.turn != rs.players[s.receiver].id)
          ==> after == rs && res.None? && next.None?)
      && (rs.roomData.Some? && rs.roomData.value.status == Ended ==>
            && res.None? && next.None? && after.roomData == rs.roomData && after.isFull == rs.isFull
            && |after.players| == |rs.players|
            && forall k :: 0 <= k < |rs.players| ==> after.players[k] == rs.players[k].(ai := after.players[k].ai))
  {
  }

  /** A counter-move that goes through fires the computer's chosen move at
      the attacker: the move is the NextMove of the computer's targeting
      state on the attacker's unmasked board. The computer's entry changes
      only in its targeting state and the attacker's only in its side; an
      answer hands the turn back, and a report of 3, and only that, ends the
      match with the computer as winner; a throw leaves the match data
      alone. */
  lemma CounterFires(rs: RoomState, s: Schedule, draws: seq<Pos>, picks: seq<int>)
    requires RoomInv(rs) && s.attacker < |rs.players| && s.receiver < |rs.players| && s.attacker != s.receiver
    requires rs.players[s.receiver].ai.Some?
    requires CounterDraws(rs.players[s.receiver].ai.value, draws, picks)
    requires rs.roomData.Some? && rs.roomData.value.status == Started && rs.roomData.value.turn == rs.players[s.receiver].id
    ensures var (after, res, next) := Counter(rs, s, draws, picks);
      var (ai1, cell) := NextMove(rs.players[s.receiver].ai.value, rs.players[s.attacker].player.cells, draws, picks);
      && res.Some?
      && after.players[s.receiver].ai == Some(ai1)
      && |after.players| == |rs.players| && after.isFull == rs.isFull
      && after.players[s.receiver] == rs.players[s.receiver].(ai := Some(ai1))
      && after.players[s.attacker] == rs.players[s.attacker].(player := after.players[s.attacker].player)
      && (res.value.Err? ==> after.roomData == rs.roomData && next.None?)
      && (res.value.Ok? ==> (after.roomData.value.status == Ended <==> res.value.value.report == 3))
      && (res.value.Ok? && res.value.value.report == 3 ==> after.roomData.value.winner == Some(rs.players[s.receiver].id))
      && (res.value.Ok? && res.value.value.report != 3 ==> after.roomData.value.winner == rs.roomData.value.winner)
      && (res.value.Ok? ==> (after.players[s.attacker].player, res.value)
                            == Shot(rs.players[s.attacker].player, cell.row, cell.col))
      && (res.value.Ok? ==> after.roomData.value.turn == rs.players[s.attacker].id)
      && (res.value.Ok? ==> (next.None? <==> rs.players[s.attacker].ai.None?))
  {
    var rcv := rs.players[s.receiver];
    var (ai1, cell) := NextMove(rcv.ai.value, rs.players[s.attacker].player.cells, draws, picks);
    var rs1 := rs.(players := rs.players[s.receiver := rcv.(ai := Some(ai1))]);
    assert RoomInv(rs1) by {
      forall k | 0 <= k < |rs1.players| ensures Shaped(rs1.players[k].player) {
        assert rs1.players[k].player == rs.players[k].player;
      }
    }
    assert Mine(rs1.players, rcv.id) == s.receiver && Theirs(rs1.players, rcv.id) == s.attacker;
    FireEffect(rs1, rcv.id, cell.row, cell.col);
  }

  // ---------------------------------------------------------------------
  // The object

  /** A room. Each entry of the players dictionary is held as its value: the
      side's state and, for a computer, its targeting state. */
  class Room {
    const roomId: string
    var players: seq<Side>
    var isFull: bool
    var roomData: Option<RoomData>

    function Model(): RoomState
      reads this
    {
      RoomState(players, isFull, roomData)
    }

    ghost predicate Valid()
      reads this
    {
      RoomInv(Model())
    }

    constructor (roomId: string)
      ensures Valid() && this.roomId == roomId
      ensures Model() == NewRoom()
    {
      this.roomId := roomId;
      players := [];
      isFull := false;
      roomData := None;
    }

    /** addPlayer: a human entry under userId, not ready, with a new side. */
    method AddPlayer(userId: string, name: string) returns (ok: bool)
      requires Valid()
      modifies this
      ensures Valid()
      ensures (Model(), ok) == Add(old(Model()), HumanSide(userId, name))
    {
      ok := Admit(HumanSide(userId, name));
    }

    /** addComputer: a computer entry under userId, ready, its fleet placed
        by the given draws (the constructor of Computer). */
    method AddComputer(userId: string, name: string, fleet: seq<ShipSpec>, draws: seq<Draw>) returns (ok: bool)
      requires Valid()
      requires |players| < 2 ==> PlaceFleet(NewPlayer(), fleet, draws).Some?
      modifies this
      ensures Valid()
      ensures |old(players)| >= 2 ==> !ok && Model() == old(Model())
      ensures |old(players)| < 2 ==>
        (Model(), ok) == Add(old(Model()), ComputerSide(userId, name, PlaceFleet(NewPlayer(), fleet, draws).value))
    {
      if |players| >= 2 {
        return false;
      }
      var placed := PlaceFleet(NewPlayer(), fleet, draws).value;
      PlaceFleetShaped(NewPlayer(), fleet, draws);
      ok := Admit(ComputerSide(userId, name, placed));
    }

    /** The common part of addPlayer and addComputer. */
    method Admit(side: Side) returns (ok: bool)
      requires Valid() && Shaped(side.player)
      modifies this
      ensures Valid()
      ensures (Model(), ok) == Add(old(Model()), side)
    {
      AddEffect(Model(), side);
      if |players| >= 2 {
        return false;
      }
      if |players| == 1 && players[0].id == side.id {
        assert IndexOf(players, side.id) == Some(0);
        players := players[0 := side];
      } else {
        assert IndexOf(players, side.id) == None by {
          if |players| == 1 { assert players[1..] == []; }
        }
        players := players + [side];
      }
      if |players| >= 2 {
        isFull := true;
      }
      ok := true;
    }

    /** startGame. A successful start, which the source answers with
        undefined, is Ok(true) here. */
    method StartGame(userId: string) returns (r: Result<bool>)
      requires Valid()
      modifies this
      ensures Valid()
      ensures (Model(), r) == Start(old(Model()), userId)
    {
      StartEffect(Model(), userId);
      var i := if |players| > 0 && players[0].id == userId then 0 else 1;
      var j := 1 - i;
      if i >= |players| {
        return Err(PlayerNotFound);
      }
      players := players[i := players[i].(ready := true)];
      if !isFull || !players[j].ready {
        return Ok(false);
      }
      roomData := Some(RoomData(userId, Started, None));
      r := Ok(true);
    }

    /** setupBoard on the side stored under userId. */
    method SetupBoard(userId: string, ship: ShipState, row: nat, column: nat, axis: Axis) returns (placed: ShipState, reply: Option<SetupReply>)
      requires Valid()
      modifies this
      ensures Valid()
      ensures (Model(), placed, reply) == SetupFor(old(Model()), userId, ship, row, column, axis)
    {
      SetupBoardEffect(Model(), userId, ship, row, column, axis);
      var k := IndexOf(players, userId);
      if k.None? {
        return ship, None;
      }
      var (after, s, valid) := Setup(players[k.value].player, ship, row, column, axis);
      players := players[k.value := players[k.value].(player := after)];
      placed := s;
      var view := DataToSelf(after);
      reply := Some(SetupReply(valid, if valid then Some(view.ships) else None, if valid then Some(view.board) else None));
    }

    /** broadcastShot, without the messages it sends. */
    method BroadcastShot(userId: string, row: int, col: int) returns (res: Option<Result<HitData>>, next: Option<Schedule>)
      requires Valid()
      modifies this
      ensures Valid()
      ensures (Model(), res, next) == Fire(old(Model()), userId, row, col)
    {
      if roomData.None? || roomData.value.status == Ended || roomData.value.turn != userId {
        return None, None;
      }
      FireEffect(Model(), userId, row, col);
      var a := if players[0].id == userId then 0 else 1;
      var r := 1 - a;
      var receiver := players[r];
      var (after, hit) := Shot(receiver.player, row, col);
      players := players[r := receiver.(player := after)];
      res := Some(hit);
      if hit.Err? {
        return res, None;
      }
      roomData := Some(roomData.value.(turn := receiver.id));
      if hit.value.report == 3 {
        roomData := Some(roomData.value.(winner := Some(userId), status := Ended));
      }
      next := if receiver.ai.Some? then Some(Schedule(a, r)) else None;
    }

    /** computerPlays, run when its timer fires. */
    method ComputerPlays(s: Schedule, draws: seq<Pos>, picks: seq<int>) returns (res: Option<Result<HitData>>, next: Option<Schedule>)
      requires Valid() && s.attacker < |players| && s.receiver < |players|
      requires players[s.receiver].ai.Some? ==> CounterDraws(players[s.receiver].ai.value, draws, picks)
      modifies this
      ensures Valid()
      ensures (Model(), res, next) == Counter(old(Model()), s, draws, picks)
    {
      if roomData.None? {
        return None, None;
      }
      var receiver := players[s.receiver];
      if receiver.ai.None? || roomData.value.turn != receiver.id {
        return None, None;
      }
      var (ai1, cell) := NextMove(receiver.ai.value, players[s.attacker].player.cells, draws, picks);
      players := players[s.receiver := receiver.(ai := Some(ai1))];
      assert SidesShaped(players) by {
        forall k | 0 <= k < |players| ensures Shaped(players[k].player) {
          assert players[k].player == old(players)[k].player;
        }
      }
      res, next := BroadcastShot(receiver.id, cell.row, cell.col);
    }
  }
}
