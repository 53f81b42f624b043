# Battleship match engine, modelled in Dafny

This project models the match engine of a two-player Battleship server: ships, the 10x10 board, a player's roster and shot resolution, the computer opponent's placement and targeting, and the turn-taking logic of a room. Sockets are not modelled. The properties are proved about the model.

Each source class is a Dafny class whose methods update its fields in place and are proved equal to a specification function on values:

- `Ships.Ship` (module `Ships`, `ship.dfy`): a ship's name and length, its ordered positions, and its hit log. The sunk flag is recomputed by a count test on every hit.
- `Boards.Board` (`board.dfy`): the grid, reassigned cell by cell, and the `allowed` flag. The read-only parts are pure functions:
  - the collision check;
  - the masked view;
  - the grid after placement, after an attack and after sinking.
- `Players.Player` (`player.dfy`): one board, a roster of at most five `Ship` objects, and the sunk log. Shot resolution is the function `Shot` on `PlayerState`. The invariant `Consistent` (no overlap, every occupied cell owned by a roster ship, sunk flags agreeing with hit cells, a log count) is proved to survive every shot (`Players.ShotPreserves`). It survives a setup of a never-hit ship whose name is new to the roster on cells never shot (`Players.SetupPreserves`); a setup outside those conditions can break it (`Players.SetupOnShotCell`). The placement guarantee `Exclusive` (every roster position occupied, no cell a position of two roster ships) needs none of those conditions: it holds of a new player and survives every setup and every shot (`Players.SetupExclusive`, `Players.ShotExclusive`).
- `Computers.Computer` (`computer.dfy`): the targeting state (the set of targeted cells, the follow-up queue, the move counter) and a `Player` for its own side. It also has:
  - the in-place Fisher-Yates shuffle on an `array`;
  - the per-direction walk loops;
  - the rejection-sampling fleet placement.
  
  Every random choice is a parameter: placement draws, random cells and shuffle picks. Every property holds for all choices.
- `Rooms.Room` (`room.dfy`): the two entries of the players dictionary in insertion order, the full flag and the match data. `addPlayer`, `addComputer`, `startGame`, `setupBoard`, `broadcastShot` and the timer body of `computerPlays` are methods, proved equal to the functions `Add`, `Start`, `SetupFor`, `Fire` and `Counter`. The counter-move is the `Schedule` that `Fire` returns; the caller runs it later with `ComputerPlays`.

Where the code behaves surprisingly, the model follows it:

- `receiveAttack` tests the `allowed` flag before the bounds check. A closed board answers false even to an off-grid shot.
- The hit log is an array that accepts repeats, and the sunk test is count equality. A hit beyond the length would clear the sunk flag (`Ships.OverHitUnsinks`). Under the roster invariant the board's hit flags stop this from happening (`Players.SunkStaysSunk`). The invariant needs unique ship names, and nothing checks them: the setup handler builds a ship from whatever name the client sends (src/index.ts:89-97). With two ships of one name, `find` sends every hit on either to the first (src/game/player.ts:35), which can then be hit past its length.
- On the shot that sinks the last ship, the sunk log receives that ship a second time, so it then holds one entry more than the roster (`Players.ShotReports`).
- `setupShips` looks at neither the match status nor the hit flags: the collision check tests only occupants (src/game/board.ts:39-53), and nothing gates setup on the room's status (src/room.ts:113-122). A ship placed mid-game on a cell already shot sits under a hit flag its own hit log lacks; that cell can never be hit again, so the ship can never sink, and the invariant fails (`Players.SetupOnShotCell`).
- `startGame` has no guard against starting again after the match has ended (`Rooms.StartEffect`).
- A counter-move is scheduled after every answered shot on a computer, including the winning one. Its guard checks only that match data exists and that it is the computer's turn, not the status. After a win, the computer's targeting state still advances while its shot is ignored (`Rooms.CounterGuard`).

## Model

| member | source | states |
|---|---|---|
| Ships.Ship.constructor | src/game/ship.ts:8-14 | a new ship has the given name and length, no positions, no hits, and is not sunk |
| Ships.Ship.SetPositions | src/game/ship.ts:16-21 | succeeds exactly when given `length` positions and then replaces the positions in order; otherwise reports an invalid count and leaves them alone |
| Ships.Ship.IsHit | src/game/ship.ts:23-26 | appends exactly one entry to the hit log, with no deduplication or membership test, and sets the sunk flag to "placed and as many hits as positions" |
| Ships.HitAllEffect | src/game/ship.ts:23-26 | any run of hits appends exactly those cells to the log, never touches the positions, and leaves the flag equal to the count test on the whole log |
| Ships.UnplacedNeverSunk | src/game/ship.ts:25 | a ship that was never placed is never sunk, whatever hits it receives |
| Ships.SunkExactlyAtLength | src/game/ship.ts:25 | after a nonempty run of hits on a fresh placed ship, it is sunk exactly when the run is as long as the ship |
| Ships.OverHitUnsinks | src/game/ship.ts:25 | a hit on a ship already sunk by count clears its sunk flag (equality, not "at least") |
| Boards.EmptyGrid | src/game/board.ts:14-24 | generateEmptyBoard gives a 10x10 grid whose every cell is unhit and empty |
| Boards.Board.constructor | src/game/board.ts:9-12 | a new board has the empty grid and is open for attacks |
| Boards.Board.ResetBoard | src/game/board.ts:26-29 | resetting gives back the empty grid, open for attacks |
| Boards.Update | src/game/board.ts:66-72 | writing one cell changes that cell and no other, and keeps the 10x10 shape |
| Boards.ShipCells | src/game/board.ts:60-65 | the recorded positions are the `length` cells from the origin along the axis, in order |
| Boards.ShipCellsDistinct | src/game/board.ts:60-65 | a ship's recorded positions are pairwise distinct |
| Boards.EndCheckIsBoundsCheck | src/game/board.ts:32-36 | for a nonnegative origin, the upper-bound test on the end cell is exactly "every cell of the ship lies on the grid" |
| Boards.CellsFree | src/game/board.ts:39-53 | the scan answers true exactly when every remaining cell of the ship is empty |
| Boards.IsNotCollision | src/game/board.ts:31-56 | true exactly when the end cell is within the upper bounds and every target cell is empty, and then every cell of the ship is on the grid |
| Boards.PlaceCells | src/game/board.ts:61-73 | after i loop rounds the first i ship cells hold their occupant records (index, not sunk, name, length, axis) with their hit flags kept, and no other cell has changed |
| Boards.PlaceOnGrid | src/game/board.ts:58-76 | placeShip on the grid value: no grid when the collision check refuses, otherwise the grid with the ship's occupant records written cell by cell along the axis; what that grid is, is stated by Boards.PlaceOnGridEffect |
| Boards.PlaceOnGridEffect | src/game/board.ts:58-76 | an accepted placement overwrites no occupied cell, changes exactly the ship's cells, gives each its occupant record and keeps every hit flag |
| Boards.Board.PlaceShip | src/game/board.ts:58-76 | answers the collision check; when refused, neither board nor ship changes; when accepted, the grid becomes the placed grid and the ship's positions become the ordered ship cells |
| Boards.Board.WriteShip | src/game/board.ts:60-73 | the writing loop leaves the placed grid and collects exactly the ordered ship cells |
| Boards.Board.ClaimNext | src/game/board.ts:62-72 | one round of the loop extends the placed grid by the next ship cell |
| Boards.SetHit | src/game/board.ts:93 | marking a cell hit keeps the 10x10 shape |
| Boards.Attack | src/game/board.ts:85-95 | receiveAttack on the grid value: the new grid and the answer (accepted, refused, or the out-of-bounds throw); its effect is stated by Boards.AttackEffect and Boards.AttackAtMostOnce |
| Boards.AttackEffect | src/game/board.ts:85-95 | an attack is accepted exactly when the board is open, the cell is on the grid and unhit, and then only that cell's hit flag changes; it throws exactly on an open board with an off-grid cell; any other outcome changes nothing |
| Boards.AttackAtMostOnce | src/game/board.ts:90-94 | after an accepted attack, the same attack is refused and changes nothing, so each cell is accepted at most once |
| Boards.Board.ReceiveAttack | src/game/board.ts:85-95 | the method's grid and answer are those of the attack function, in the source's order of tests |
| Boards.SetSunk | src/game/board.ts:78-83 | setIsSunk sets the sunk flag of the occupant of that one cell, changes no other cell, and is a no-op on an empty cell |
| Boards.Board.SetIsSunk | src/game/board.ts:78-83 | the method's grid is that of SetSunk |
| Boards.MarkSunkAll | src/game/player.ts:44-46 | marking a list of cells keeps the 10x10 shape |
| Boards.MarkSunkAllEffect | src/game/board.ts:78-83 | marking a ship's cells flags every occupied listed cell as sunk, touches no other cell and changes nothing but sunk flags |
| Boards.Mask | src/game/board.ts:101-115 | the masked grid keeps every hit flag, shows an occupant only on a hit cell, and shows a hit cell exactly as it is |
| Boards.MaskNonInterference | src/game/board.ts:101-115 | two grids have the same masked view if and only if they agree on hit flags and on the occupants of hit cells, so no unhit occupant leaks |
| Boards.MaskIdempotent | src/game/board.ts:101-115 | masking a masked grid changes nothing |
| Players.Player.constructor | src/game/player.ts:10-14 | a new player has an empty board open for attacks, an empty roster and an empty sunk log |
| Players.NewPlayerConsistent | src/game/player.ts:10-14 | a new player satisfies the roster invariant |
| Players.FindByName | src/game/player.ts:35 | the lookup finds the first roster ship with that name, and answers none exactly when no ship has it |
| Players.FindUnique | src/game/player.ts:35 | with unique names the lookup finds the one ship of that name |
| Players.Setup | src/game/player.ts:16-21 | setupShips keeps the grid shape and, when it refuses, changes nothing |
| Players.SetupEffect | src/game/player.ts:16-21 | placement is accepted exactly when fewer than five ships are placed and the collision check passes; a refusal changes nothing; an acceptance appends the ship with its ordered positions, gives exactly its cells their occupant records and leaves the log and open flag alone |
| Players.SetupShaped | src/game/player.ts:16-21 | setupShips keeps the grid shape and every roster ship's positions on the grid |
| Players.PlacedOnBoard | src/game/board.ts:58-76 | a fresh ship placed on unshot cells agrees with the board: distinct positions, each holding its name, none hit, not sunk |
| Players.SetupPreserves | src/game/player.ts:16-21 | setupShips keeps the roster invariant for a fresh ship with a name new to the roster on unshot cells (exclusivity of cells, which holds for every setup, is Players.SetupExclusive) |
| Players.SetupOnShotCell | src/game/board.ts:39-53 | the collision check ignores hit flags: after a shot on (0, 0) of a new side, a one-cell ship is placed there with an empty hit log under a hit cell, and the invariant fails |
| Players.SetupKeepsShips | src/game/player.ts:18 | placing a ship leaves every earlier roster ship agreeing with the board |
| Players.SetupKeepsOwners | src/game/player.ts:18-19 | placing a ship under a new name leaves every occupied cell owned by the roster ship it names |
| Players.Player.SetupShips | src/game/player.ts:16-21 | the new board, ship and answer are those of Setup, and the roster grows by that very ship exactly when it is placed |
| Players.NoOverlap | src/game/board.ts:39-53 | under the invariant no cell belongs to two roster ships |
| Players.NewExclusive | src/game/player.ts:10-14 | a new player's roster is trivially exclusive: no ship, no claimed cell |
| Players.SetupExclusive | src/game/board.ts:39-66 | every setupShips, with any ship, any name and any hit flags, keeps every roster position occupied and no cell a position of two roster ships |
| Players.SetHitExclusive | src/game/board.ts:93 | marking a cell hit keeps exclusivity, since it changes no occupant |
| Players.ShipHitExclusive | src/game/player.ts:38-63 | the hit part of recieveShot keeps exclusivity: sinking changes flags only and the hit ship keeps its positions |
| Players.ShotExclusive | src/game/player.ts:23-71 | every recieveShot keeps exclusivity, so after any run of placements and shots no cell is claimed by two ships |
| Players.SunkIffFullyHit | src/game/ship.ts:25 | under the invariant a roster ship is sunk exactly when it is placed and every one of its cells is hit |
| Players.ShotFindsShip | src/game/player.ts:35-36 | under the invariant a shot never throws "Cannot find ship" |
| Players.Shot | src/game/player.ts:23-71 | recieveShot on the player value: the attack, the occupant lookup by name, and the hit resolution; its meaning is stated by Players.ShotOutcomes, Players.ShotReports, Players.ShotWins and Players.ShotPreserves |
| Players.ShipHit | src/game/player.ts:38-63 | the hit part of recieveShot: isHit on the found ship, the sinking of its cells and the log entry, then the all-sunk close with the repeated entry; its effect is stated by Players.HitGridEffect, Players.HitKeepsCount and Players.ShipHitPreserves |
| Players.ShotOutcomes | src/game/player.ts:28-69 | a shot is a miss exactly when the board is closed, the cell was already hit, or it is empty; a miss changes nothing but a fresh empty cell's hit flag; "Cannot find ship" is thrown exactly on a fresh hit whose occupant names no roster ship, after the cell is marked |
| Players.HitGridEffect | src/game/player.ts:38-46 | a fresh hit keeps the hit ship agreeing with the board and changes only that ship's cells, and there only hit and sunk flags |
| Players.ShipHitPreserves | src/game/player.ts:38-63 | a fresh hit on a roster ship keeps the roster invariant |
| Players.HitKeepsCount | src/game/player.ts:42-63 | after a fresh hit the sunk log holds one entry per sunk ship, plus one once the board has closed |
| Players.HitKeepsShips | src/game/player.ts:38-46 | after a fresh hit on one ship every roster ship still agrees with the board |
| Players.HitKeepsOwners | src/game/player.ts:38-46 | after a fresh hit every occupied cell is still owned by the roster ship it names |
| Players.ShotPreserves | src/game/player.ts:23-71 | recieveShot keeps the roster invariant |
| Players.ShotReports | src/game/player.ts:23-71 | on a closed board a shot is a miss with no change; the only error is an off-grid shot on an open board, with no change; reports 1 to 3 come only from a fresh hit on an occupied cell; 2 and 3 are exactly the sinking shots and log the ship under its name; 3 is exactly the shot that closes the board, after which every ship is sunk and the log has one entry more than the roster; conversely a fresh hit that leaves every ship sunk answers 3; and reports 2 and 3 name the ship whose cell was hit; the new sunk log is the old one, plus the hit ship's entry once on report 2 and twice on report 3 |
| Players.ShotWins | src/game/player.ts:35-62 | a shot keeps the roster's length; a fresh hit on an occupied cell that leaves every ship sunk answers 3 with that ship's name; a report of 2 or 3 names the ship whose cell was hit; report 0 or 1 leaves the sunk log alone, report 2 appends the hit ship's entry (name, length, sunk) and report 3 appends it twice |
| Players.ShipHitLog | src/game/player.ts:42-62 | the hit part of recieveShot appends nothing on report 1, the ship's entry on report 2, and that entry twice on report 3 |
| Players.SunkStaysSunk | src/game/player.ts:38-53 | a sunk ship is never changed by a later shot, so it stays sunk |
| Players.Player.RecieveShot | src/game/player.ts:23-71 | the method's new state and answer are those of Shot, and the roster's ship objects stay the same |
| Players.Player.HitShip | src/game/player.ts:38-63 | from the lookup on, the method's new state and report are those of the hit part of Shot |
| Players.Player.Strike | src/game/player.ts:38-53 | the hit registers on ship k alone; if it sinks the ship, its cells are marked sunk, it is logged once and the report is 2 with its name, otherwise the report is 1 |
| Players.Player.SinkCells | src/game/player.ts:44-46 | the loop leaves the grid with every listed cell marked sunk, as MarkSunkAll says |
| Players.Player.Reset | src/game/player.ts:73-77 | reset gives back an empty board open for attacks, an empty roster and an empty log |
| Players.DataToSelf | src/game/player.ts:79-84 | the self view is the whole roster as name and length, in order, and the full board |
| Players.DataToOpponent | src/game/player.ts:86-91 | the opponent view is the sunk log and a board that keeps hit flags and shows occupants only on hit cells |
| Players.OpponentViewNonInterference | src/game/player.ts:86-91 | two sides look the same to the opponent exactly when their sunk logs are equal and their boards agree on hit flags and hit occupants |
| Players.SunkCount | src/game/player.ts:55 | the number of sunk ships is at most the roster size, and equals it exactly when every ship is sunk |
| Computers.Swap | src/game/computer.ts:38 | the exchange puts each of the two entries in the other's place and leaves every other index alone |
| Computers.SwapPermutes | src/game/computer.ts:38 | an exchange keeps the multiset of entries |
| Computers.ShuffleSteps | src/game/computer.ts:36-39 | every prefix of the swaps keeps the length |
| Computers.ShufflePermutes | src/game/computer.ts:35-40 | whatever the picks, every prefix of the swaps is a permutation of the input |
| Computers.Shuffle | src/game/computer.ts:35-40 | the shuffle keeps the length |
| Computers.ShuffleArray | src/game/computer.ts:35-40 | the array ends as the shuffle of its old contents under the given picks, so its multiset is unchanged |
| Computers.SwapAt | src/game/computer.ts:38 | the in-place exchange leaves the array equal to Swap of its old contents |
| Computers.ShuffledDirections | src/game/computer.ts:63-69 | whatever the picks, the shuffled directions are the four directions, each exactly once |
| Computers.Computer.ShuffledDirections | src/game/computer.ts:63-69 | a fresh array holding the shuffle of the four directions in the source's listing order |
| Computers.DirectionsOnce | src/game/computer.ts:63-68 | the direction table lists each of the four directions once |
| Computers.Walk | src/game/computer.ts:73-88 | the while loop over one direction: cells of the hit ship are enqueued and the walk goes on, an empty cell is enqueued and ends it, and another ship or the edge ends it; its shape and stop are stated by Computers.WalkShape and Computers.WalkStops |
| Computers.Probes | src/game/computer.ts:72-89 | the walks in every direction of the shuffled list, concatenated in order; stated on the grid by Computers.ProbesInBounds |
| Computers.WalkShape | src/game/computer.ts:72-89 | a walk is a straight run on the grid from the first neighbour along the direction; all but its last cell hold the hit ship, and the last holds that ship or is an empty probe |
| Computers.WalkStops | src/game/computer.ts:76-87 | a walk goes as far as it can: unless it ends on an empty probe, the next cell past its end (the first cell when it is empty) is off the grid or holds a different ship |
| Computers.ProbesInBounds | src/game/computer.ts:76 | every enqueued cell lies on the grid |
| Computers.Computer.EnqueueWalk | src/game/computer.ts:73-88 | the while loop appends exactly the walk in that direction to the queue |
| Computers.Computer.EnqueueAround | src/game/computer.ts:72-89 | the for loop appends the walks in each of the shuffled directions, in order |
| Computers.FirstFree | src/game/computer.ts:98-105 | the retry loop stops at the first draw not yet targeted |
| Computers.Computer.GetRandomUntargetedCell | src/game/computer.ts:98-105 | the cell returned is the first untargeted draw; it is on the grid and not yet targeted |
| Computers.NextMove | src/game/computer.ts:42-96 | getNextMove on the targeting state: the queue front if any, otherwise the first untargeted draw, with the queue seeded by the walks when it holds a ship; its accounting is stated by Computers.NextMoveAccounting, Computers.QueueFirst and Computers.HuntMove |
| Computers.NextMoveAccounting | src/game/computer.ts:42-96 | every call adds its move to the targeted cells and counts exactly one move; the move and the whole queue stay on the grid |
| Computers.QueueFirst | src/game/computer.ts:43-49 | with a pending queue the move is its front, removed from it, whatever the board and draws, and without checking whether it was already targeted |
| Computers.HuntMove | src/game/computer.ts:50-95 | with no queue the move is the first untargeted draw, so a cell never targeted; on an empty cell the queue stays empty; on an occupied cell the move is that same cell and the queue becomes the walks around it |
| Computers.Computer.GetNextMove | src/game/computer.ts:42-96 | the method's new targeting state and move are those of NextMove |
| Computers.PlaceFleet | src/game/computer.ts:19-33 | a completed placement keeps the grid shape, and a nonempty fleet needs at least one draw |
| Computers.PlaceFleetShape | src/game/computer.ts:19-33 | a completed placement appends the fleet to the roster in order with each ship's own name and length, and leaves the log and the open flag alone |
| Computers.PlaceFleetShaped | src/game/computer.ts:19-33 | placement keeps every roster ship's positions on the grid |
| Computers.SetupUnshot | src/game/player.ts:16-21 | a placement attempt marks no cell hit |
| Computers.PlaceFleetUnshot | src/game/computer.ts:19-33 | placing the fleet marks no cell hit |
| Computers.PlaceFleetConsistent | src/game/computer.ts:19-33 | placing a fleet of distinct new names on an unshot consistent side gives a consistent side |
| Computers.Computer.constructor | src/game/computer.ts:11-17 | a new computer has its fleet placed by the draws, nothing targeted, no queue and no moves counted |
| Computers.Computer.PlaceShips | src/game/computer.ts:19-33 | the side ends as PlaceFleet of its old state under the draws, with only new ship objects added |
| Computers.Computer.PlaceOne | src/game/computer.ts:24-32 | one forEach round consumes draws until the ship is placed and appends one new ship |
| Computers.Computer.Attempt | src/game/computer.ts:27-30 | one retry calls setupShips with the next draw; on success the ship joins the roster, on failure nothing changes |
| Rooms.Room.constructor | src/room.ts:31-36 | a new room has no entries, is not full and has no match data |
| Rooms.NewRoomInv | src/room.ts:31-36 | a new room satisfies the room invariant |
| Rooms.Mine | src/room.ts:148-149 | the caller's entry under `Object.keys`: the first when its key is the caller's, otherwise the second; used for every turn lookup |
| Rooms.Theirs | src/room.ts:150 | the other entry: the second when the first key is the caller's, otherwise the first |
| Rooms.IndexOf | src/room.ts:114 | the lookup finds the entry under a key, and answers none exactly when no entry has it |
| Rooms.Add | src/room.ts:77-111 | addPlayer and addComputer on the room value: the two-entry cap, the store under the key and the full flag; stated by Rooms.AddEffect |
| Rooms.AddEffect | src/room.ts:77-111 | adding is refused with no change exactly when two entries exist; otherwise the entry is stored under its key (in place for a known key), the room is full exactly when it now holds two, and the invariant is kept |
| Rooms.ReadyOnArrival | src/room.ts:82-105 | a computer entry arrives ready and a human entry not |
| Rooms.Room.AddPlayer | src/room.ts:77-93 | the new room and answer are those of Add with a human entry that is not ready |
| Rooms.Room.AddComputer | src/room.ts:95-111 | refused with no change when two entries exist; otherwise the new room and answer are those of Add with a ready computer entry whose fleet is placed |
| Rooms.Room.Admit | src/room.ts:82-92 | the common part of both adds has the new room and answer of Add |
| Rooms.Start | src/room.ts:47-57 | startGame on the room value: ready the caller, then start when full and the opponent is ready; stated by Rooms.StartEffect |
| Rooms.StartEffect | src/room.ts:47-75 | the caller's entry becomes ready and the only error is a missing caller entry; the match starts exactly when the room is full and the opponent is ready, with the caller to move and no winner; otherwise the match data is unchanged, and nothing blocks a restart after the end |
| Rooms.Room.StartGame | src/room.ts:47-75 | the new room and answer are those of Start |
| Rooms.SetupFor | src/room.ts:113-122 | setupBoard on the room value: no answer for an unknown key, otherwise setupShips on that side and its self view on success; stated by Rooms.SetupBoardEffect |
| Rooms.SetupBoardEffect | src/room.ts:113-122 | an unknown key gives no answer and no change; otherwise only that entry's side changes, as its setupShips says, and a placed ship's answer lists the roster ending with the new ship, and the full board |
| Rooms.Room.SetupBoard | src/room.ts:113-122 | the new room, ship and answer are those of SetupFor |
| Rooms.Fire | src/room.ts:144-171 | broadcastShot on the room value: the guards, the receiver's recieveShot, the turn hand-off, the end on report 3, and the counter-move schedule for a computer receiver; stated by Rooms.FireIgnored and Rooms.FireEffect |
| Rooms.FireIgnored | src/room.ts:145-146 | a shot is ignored with no change while waiting, after the end, or out of turn |
| Rooms.FireEffect | src/room.ts:144-186 | a processed shot goes to the other entry, whose side resolves it; any answer hands the turn to that entry, repeats included; report 3, and only that, ends the match with the shooter as winner; a throw leaves the match data alone; only the receiving entry's side changes, and its key, name, ready flag and targeting state are kept; a counter-move is scheduled exactly for an answering computer |
| Rooms.ShotEffectShape | src/game/player.ts:23-71 | a shot keeps a side's grid shape and its ships' positions |
| Rooms.ShipHitShape | src/game/player.ts:38-63 | the hit part of a shot keeps the grid shape and the ships' positions |
| Rooms.NoDoubleShot | src/room.ts:146-152 | after an answered shot by an entry, that entry's next shot is ignored, so turns strictly alternate |
| Rooms.Room.BroadcastShot | src/room.ts:144-186 | the new room, answer and scheduled counter-move are those of Fire |
| Rooms.Counter | src/room.ts:188-196 | the timer body of computerPlays on the room value: the guards, then the computer's NextMove on the attacker's grid fired through Fire; stated by Rooms.CounterGuard and Rooms.CounterFires |
| Rooms.CounterGuard | src/room.ts:188-196 | without match data, for a human receiver, or off the receiver's turn nothing happens; after the end only the receiver's targeting state may change and no shot is answered |
| Rooms.CounterFires | src/room.ts:188-196 | a counter-move that passes the guard fires the computer's NextMove on the attacker's unmasked board at the attacker; the computer's entry changes only in its targeting state and the attacker's only in its side; an answered one hands the turn back, and a report of 3, and only that, ends the match with the computer as winner; a throw leaves the match data alone |
| Rooms.Room.ComputerPlays | src/room.ts:188-196 | the new room, answer and next counter-move are those of Counter |

## Left out

- Sockets and messages: `Room.send` and the payloads of `startGame` and `broadcastShot` are not modelled. `send_to_user`, `send_to_opponent` and `getUserOpponent` are not modelled either. The views these messages carry are `DataToSelf` and `DataToOpponent`.
- The 4-second timer of `computerPlays`: `Fire` returns the counter-move as a `Schedule`. Time, cancellation and interleaving with other calls are not modelled.
- `Math.random`: placement draws, random cells and shuffle picks are parameters. Each random-draw sequence is required to end in success: a placement for every fleet ship, and an untargeted cell for a hunt. Divergence of the source's unbounded retry loops is therefore not modelled.
- The fleet table imported from `src/shared/game_data` is not part of this model; the fleet is a parameter.
- Rooms.Room: entries are held as values (a `Side` with a `PlayerState` and, for a computer, an `AIState`), not as references to `Player` and `Computer` objects. The object methods `Player.SetupShips`, `Player.RecieveShot` and `Computer.GetNextMove` are proved equal to the same functions `Setup`, `Shot` and `NextMove` that the room applies. Aliasing between a room entry and the objects it holds is not modelled.
- Computers.Computer: holds its side as a `Player` field rather than inheriting from `Player`.
- Rooms.Start: the source's `startGame` returns `undefined` after a successful start. Here that result is `Ok(true)`. A `TypeError` from a missing entry is `Err(PlayerNotFound)`.
- Rooms.Mine: `Object.keys` ordering is insertion order here. Keys that JavaScript orders numerically are not modelled, and neither is the falsy-`userId` early return of `getUserOpponent`.
- Boards.Board.PlaceShip: the origin is a natural number. A negative origin makes the source index outside its array.
- Players.Player.SetupShips: requires that the ship object is not already in the roster. The source would push it a second time.
- Players.SetupPreserves: requires a name new to the roster. The source's lookup by name would otherwise let two ships share records.
- Players.SetupPreserves: requires a never-hit ship and cells never shot. The source accepts a setup on a shot cell, since the collision check tests only occupants and nothing gates setup on the match status; the invariant then fails (`Players.SetupOnShotCell`), so `Consistent` is not promised for such a setup. Exclusivity of cells still is (`Players.SetupExclusive`).
- Optional arguments that no caller passes: the `board` argument of the `Board` constructor (src/game/board.ts:9-10) and the default axis of `placeShip` (src/game/board.ts:58). The constructor always starts from the empty grid and every axis is explicit.
- The board's `allowed` flag and cells are fields of `Board`, but `getBoard` returns the grid as a value; aliasing of the live array and of occupant records is not modelled.
- Boards.Board.PlaceShip / Ships.Ship.constructor: ship lengths are natural numbers. The source builds a ship from whatever length the client sends (src/index.ts:90-96). A negative length writes no cell and makes `setPositions` throw (src/game/ship.ts:17-18, called from src/game/board.ts:74). A fractional length writes occupant records for the cells below it and then throws, leaving the board changed. That throw after partial writes is not modelled.
- Pos: coordinates are integers. The source takes the client's coordinates as JavaScript numbers, unchecked (src/index.ts:90, src/index.ts:101). A fractional or NaN row or column passes the bounds tests of `isNotCollision` (src/game/board.ts:34) and `receiveAttack` (src/game/board.ts:87); the next grid access then reads `undefined` and throws a TypeError before any write (src/game/board.ts:43, :50 in setup, :90 in an attack), and in `broadcastShot` that throw escapes before the turn changes. That error path is not modelled.
- Integer widths: coordinates and counters are unbounded integers. The only arithmetic is on values within the 10x10 grid and on counters far from any limit.
