# Caro game hub — a Dafny model

This project models the game hub of a web Caro (five-in-a-row) server. The hub keeps a registry of rooms by id. Each room holds:

- a roster of at most two players;
- a host;
- one match on a 20 x 20 board.

The hub also keeps a map from each connection to the room it last joined.

Clients call the hub to join and leave rooms, to start and reset the match (host only) and to make moves. A dropped connection is treated as a leave. After every accepted move the hub runs the win detector, which counts equal marks outward from the cell just played along four lines. It also scans for a full board, which means a draw.

The model has five modules:

- `Grid` (Grid.dfy). The board as a value, plus the two board scans as loop methods, `CheckWin` (split into four per-line `Count*` methods) and `IsBoardFull`. Both are proved against specification functions. The count is proved equal to an independent, window-based reading of "five in a row through the placed mark".
- `Rooms` (Rooms.dfy). Players, the match state and rooms as datatypes. Appending a joiner and removing a leaver (with host hand-over) are functions. Lemmas show that both keep a room sound: one or two players, exactly one of them host, and the host fields naming that player.
- `Registry` (Registry.dfy). The effect of a join and of a leave on the whole map of rooms, as functions of the map before the call. The registry invariant says every room is sound and every mapped connection is on its room's roster. Lemmas show that join, leave and a game change each keep it.
- `Hub` (Hub.dfy). The class `GameHub`, whose two map fields the operations update in place, just as the hub updates its two static dictionaries. Every operation takes the calling connection id as a parameter. It returns the events it sends, in order, as (target, event name) pairs. Each operation keeps `Valid()`, the registry invariant. Its contract also gives the new state either through `Join`/`Leave` or field by field.
- `Scenarios` (Scenarios.dfy). Concrete call sequences on a fresh hub.

Two of the scenarios pin down behaviour of the code as written that the hub's design intends otherwise:

- A player who joins after the X holder has left is also given O. The roster size alone decides the symbol.
- `LeaveRoom` for a room the caller is not in still deletes the caller's connection map entry. So a connection can end up on two rosters, and its disconnect leaves a stale entry in one of them.

The model follows the code in both cases. So it proves neither symbol uniqueness nor that a connection is in at most one room.

`StartGame` likewise follows the code: it does not look at the match state. A host can restart a finished match, which clears the winner and keeps the board.

## Model

| member | source | states |
|---|---|---|
| Grid.EmptyBoard | Hubs/GameHub.cs:42-50 | a new board is 20 x 20 and every cell is empty (0) |
| Grid.Place | Hubs/GameHub.cs:283 | placing a mark sets exactly the chosen cell and leaves every other cell and the board's shape unchanged |
| Grid.ForwardRun | Hubs/GameHub.cs:410 | the outward count from step k is a run: every counted cell holds the mark and the next one does not (or is off the board) |
| Grid.BackwardRun | Hubs/GameHub.cs:409 | the same for the count walking the other way |
| Grid.MaximalRunThroughPivot | Hubs/GameHub.cs:408-411 | when the pivot holds the mark, a line's count is the length of the maximal run of that mark through the pivot, bounded on both sides by a different cell or the edge |
| Grid.LineWinsIffFive | Hubs/GameHub.cs:408-411 | on one line, the count reaches 5 iff some five consecutive cells containing the pivot all hold the mark (so a run of 4 does not win and a run of 6 or more does) |
| Grid.WinsIffFive | Hubs/GameHub.cs:401-432 | the detector's rule (some line count >= 5) holds iff some horizontal, vertical or diagonal window of five through the placed mark is filled with it |
| Grid.CheckWin | Hubs/GameHub.cs:401-432 | the scan returns exactly the line-count rule; when the pivot holds the mark, it returns true iff a line of five through the pivot exists; every index it reads is on the board |
| Grid.CountHorizontal | Hubs/GameHub.cs:408-410 | the two horizontal loops count the pivot plus the maximal runs of the mark to its left and right |
| Grid.CountVertical | Hubs/GameHub.cs:414-416 | the two vertical loops count the pivot plus the runs above and below |
| Grid.CountDiagonal | Hubs/GameHub.cs:420-422 | the main-diagonal loops count the pivot plus the runs up-left and down-right |
| Grid.CountAntiDiagonal | Hubs/GameHub.cs:426-428 | the anti-diagonal loops count the pivot plus the runs up-right and down-left |
| Grid.IsBoardFull | Hubs/GameHub.cs:435-447 | returns true iff no cell of the 20 x 20 board is empty |
| Rooms.FirstIndex | Hubs/GameHub.cs:173 | finds the first roster entry with the caller's connection id, or reports -1 exactly when no entry has it |
| Rooms.AddPlayer | Hubs/GameHub.cs:127-135 | a join appends one entry and keeps the earlier ones; the joiner has X and the host flag iff the roster was empty, else O and no flag; the host count grows by one only for a first joiner; nothing but the roster changes |
| Rooms.RemovePlayer | Hubs/GameHub.cs:176-185 | a leave removes exactly entry i and keeps the others in order with their ids, names and symbols; when the host left and someone remains, the first remaining player gets the flag and the host fields name them; otherwise the host fields are kept |
| Rooms.HostCountRemove | Hubs/GameHub.cs:176 | removing one entry lowers the host count by that entry's flag |
| Rooms.NewRoomOk | Hubs/GameHub.cs:99-135 | a room created by a join, with its creator added, is sound: one player, X, host, named by the host fields |
| Rooms.AddPlayerOk | Hubs/GameHub.cs:119-135 | admitting a player to a sound room below capacity keeps it sound: at most two players, exactly one host |
| Rooms.RemovePlayerOk | Hubs/GameHub.cs:176-185 | removing one of several players from a sound room keeps exactly one host, named by the host fields |
| Registry.Join | Hubs/GameHub.cs:98-136 | after a join the room exists; other rooms are untouched; a room at capacity is unchanged; otherwise the joiner is appended with the symbol and flag the roster size dictates and the roster stays within capacity; an unseen id yields a new room hosted by the joiner with a fresh match |
| Registry.Leave | Hubs/GameHub.cs:171-204 | a leave changes nothing unless the room exists and lists the caller; then it removes the caller's first entry and deletes the room iff it would be empty; other rooms are untouched |
| Registry.JoinKeepsRegistryOk | Hubs/GameHub.cs:92-136 | a join by an unmapped connection keeps every room sound and every mapped connection on its room's roster, the joiner being mapped unless the room was full |
| Registry.LeaveKeepsRegistryOk | Hubs/GameHub.cs:171-204 | a leave, with the caller's map entry deleted, keeps the registry invariant: one host per surviving room, and every other mapped connection still on its roster |
| Registry.NewGameKeepsRegistryOk | Hubs/GameHub.cs:283-305 | replacing a room's match by a well-formed one keeps the registry invariant |
| Hub.GameHub.constructor | Hubs/GameHub.cs:10-11 | the hub starts with no rooms and no mapped connections, which satisfies the invariant |
| Hub.GameHub.JoinRoom | Hubs/GameHub.cs:82-164 | a mapped caller first leaves its room; the rooms then equal `Join` of the rooms after that leave; a full room answers RoomFull to the caller; otherwise the caller is mapped to the room and PlayerJoined, PlayerListUpdated, RoomJoined and the room list follow; the invariant is kept |
| Hub.GameHub.Enter | Hubs/GameHub.cs:98-163 | the get-or-create, capacity check and append of a join compute `Join`, map the caller iff admitted, and send RoomFull or the four join events |
| Hub.GameHub.LeaveRoom | Hubs/GameHub.cs:167-209 | the rooms become `Leave` of the old rooms; the caller's map entry is always deleted; the group hears PlayerLeft and PlayerListUpdated only when the room survives, and everyone gets the room list; the invariant is kept |
| Hub.GameHub.StartGame | Hubs/GameHub.cs:212-251 | only the caller's first roster entry carrying the host flag starts the match: started, X to move, time 60, winner cleared, board kept, GameStarted to the group; a missing room or non-host gets Error and nothing changes |
| Hub.GameHub.MakeMove | Hubs/GameHub.cs:254-336 | a missing room, a non-member, an unstarted or decided match, the wrong turn, an off-board or occupied cell each give Error and change nothing; an accepted move changes only that room's match and only the chosen cell, to the mover's mark; then exactly one of: winner := mover on a line of five (GameEnded), winner := Draw on a full board (GameEnded), or turn flipped and time reset to 60 (MoveMade); the invariant is kept |
| Hub.GameHub.ResetGame | Hubs/GameHub.cs:339-350 | the host replaces the match by a fresh one (not started, X, empty board, no winner) and the group hears GameReset; anyone else, or a missing room, changes nothing and hears nothing |
| Hub.GameHub.OnDisconnected | Hubs/GameHub.cs:449-459 | a mapped connection's disconnect is exactly a leave of its mapped room; an unmapped one changes nothing |
| Scenarios.JoinSecond | Hubs/GameHub.cs:127-135 | the second joiner of a one-player room is appended with O and no host flag |
| Scenarios.HostLeaves | Hubs/GameHub.cs:176-185 | when the host of a two-player room leaves, the other player becomes host, keeps O, and the host fields name them |
| Scenarios.Pair | Hubs/GameHub.cs:82-164 | two joins of a fresh hub's room give the roster [X host, O] and map both connections |
| Scenarios.AfterHostLeft | Hubs/GameHub.cs:167-209 | after the host of a pair leaves, the room holds only the O player, now host |
| Scenarios.SharedSymbolTrace | Hubs/GameHub.cs:131-132 | a player who joins after the X holder left is given O too, so both players hold O, while the join is announced as usual |
| Scenarios.FullRoomTrace | Hubs/GameHub.cs:119-124 | a third joiner is answered RoomFull, the roster keeps two players and the joiner is not mapped |
| Scenarios.SecondRoomTrace | Hubs/GameHub.cs:204 | leaving a room one is not in still deletes the map entry, so a later join leaves the connection on two rosters, and its disconnect leaves it stale in the first |
| Scenarios.Started | Hubs/GameHub.cs:223-241 | the non-host is refused StartGame with Error; the host's StartGame starts the fresh match |
| Scenarios.OpeningTrace | Hubs/GameHub.cs:270-320 | O may not move first; X's first move is MoveMade, puts 1 in the cell and passes the turn to O; X may not move again |

The bounds requirement on the win detector, that every index it reads lies in 0..19, is discharged by the index checks in the four `Count*` methods.

"Once a winner is set, moves are refused until StartGame or ResetGame" is part of the `MakeMove` contract, through the winner guard of `Accepts`. The `StartGame` and `ResetGame` contracts say that those two operations clear the winner.

## Left out

- Message delivery: SignalR groups, `Clients.*.SendAsync` and group membership changes. Events are returned as (target, name) pairs in send order. Their payloads are left out: names, counts, roster and match snapshots, and error message texts.
- Console logging.
- Concurrency. The dictionaries are concurrent, but nothing locks a room. Every operation is modelled as one atomic sequential step, so races between operations on the same room are not captured.
- `CreatedAt` (the clock). `TimeLeft` is a plain integer that the hub only ever sets to 60; no timer exists in the hub.
- The board is a value inside the room value inside the rooms map, not a jagged array shared by reference. Since every update goes through the map, aliasing between rooms' boards is not modelled. The source never creates such aliasing.
- `TestConnection`, `CheckRoomExists`, `GetRoomList`, `BroadcastRoomList` and `SendMessage` are read-only projections or relays that change no state. The room list broadcast is kept only as the `RoomListUpdated` event.
- The exception argument of `OnDisconnectedAsync` and the base-class call.
- Data/ApplicationDbContext.cs and Data/DesignTimeDbContextFactory.cs (database setup) and wwwroot/js/site.js (browser UI) are not part of this model.
- Symbol uniqueness within a room and the one-room-per-connection property are not proved, because the code does not maintain them. `Scenarios.SharedSymbolTrace` and `Scenarios.SecondRoomTrace` exhibit the counterexamples.
