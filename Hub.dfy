/**
 * The game hub: the registry of rooms and the connection-to-room map, and
 * the operations clients call on it.  Each operation takes the calling
 * connection id explicitly and returns the events it emits, in order, as
 * (target, event name) pairs instead of sending them.
 */
module Hub {
  import opened Grid
  import opened Rooms
  import opened Registry

  /** Who an event goes to: the calling connection, a room's group, or every client. */
  datatype Target = Caller | Group(roomId: string) | Everyone

  datatype Event = Event(target: Target, name: string)

  /** The caller's first roster entry exists and carries the host flag. */
  predicate CallerIsHost(r: Room, c: string) {
    var i := FirstIndex(r.players, c);
    i >= 0 && r.players[i].isHost
  }

  /** The guards a move must pass, in the order the hub checks them. */
  predicate Accepts(r: Room, c: string, row: int, col: int)
    requires WellFormed(r.game.board)
  {
    var i := FirstIndex(r.players, c);
    && i >= 0                                        // the caller is on the roster
    && r.game.isStarted                              // the game has started
    && r.game.winner == ""                           // and is not decided
    && r.game.currentPlayer == r.players[i].symbol   // it is the caller's turn
    && InBounds(row, col)                            // the cell is on the board
    && r.game.board[row][col] == Empty               // and empty
  }

  /** What a leave by `c` from `id` sends: the group notices when the room survives, then the room list. */
  function LeaveEvents(rooms: map<string, Room>, c: string, id: string): seq<Event> {
    var stays := id in rooms && FirstIndex(rooms[id].players, c) >= 0 && |rooms[id].players| > 1;
    (if stays then [Event(Group(id), "PlayerLeft"), Event(Group(id), "PlayerListUpdated")] else [])
    + [Event(Everyone, "RoomListUpdated")]
  }

  class GameHub {
    /** Rooms by room id. */
    var rooms: map<string, Room>
    /** The room each connection last joined, by connection id. */
    var userRooms: map<string, string>

    ghost predicate Valid()
      reads this
    {
      RegistryOk(rooms, userRooms)
    }

    constructor ()
      ensures Valid()
      ensures rooms == map[] && userRooms == map[]
    {
      rooms := map[];
      userRooms := map[];
    }

    /**
     * Joins `roomId` as `playerName`, first leaving the room the connection
     * is mapped to, if any.  A room at capacity answers RoomFull and is not
     * changed; otherwise the caller is appended (X and host in an empty
     * room, O otherwise) and mapped to the room.
     */
    method JoinRoom(caller: string, roomId: string, playerName: string) returns (events: seq<Event>)
      requires Valid()
      modifies this
      ensures Valid()
      ensures var mid := if caller in old(userRooms) then Leave(old(rooms), caller, old(userRooms)[caller]) else old(rooms);
              var left := if caller in old(userRooms) then LeaveEvents(old(rooms), caller, old(userRooms)[caller]) else [];
              && rooms == Join(mid, caller, roomId, playerName)
              && (AtCapacity(mid, roomId) ==>
                    && userRooms == old(userRooms) - {caller}
                    && events == left + [Event(Caller, "RoomFull")])
              && (!AtCapacity(mid, roomId) ==>
                    && userRooms == (old(userRooms) - {caller})[caller := roomId]
                    && events == left + [Event(Group(roomId), "PlayerJoined"), Event(Group(roomId), "PlayerListUpdated"),
                                         Event(Caller, "RoomJoined"), Event(Everyone, "RoomListUpdated")])
    {
      events := [];
      if caller in userRooms {
        events := LeaveRoom(caller, userRooms[caller]);
      }
      assert userRooms == old(userRooms) - {caller};
      JoinKeepsRegistryOk(rooms, userRooms, caller, roomId, playerName);
      var entered := Enter(caller, roomId, playerName);
      events := events + entered;
    }

    /**
     * The part of a join after any earlier room has been left: get or
     * create the room, turn the caller away when it is at capacity,
     * otherwise append them and map them to it.
     */
    method Enter(caller: string, roomId: string, playerName: string) returns (events: seq<Event>)
      requires caller !in userRooms
      modifies this
      ensures rooms == Join(old(rooms), caller, roomId, playerName)
      ensures AtCapacity(old(rooms), roomId) ==> userRooms == old(userRooms) && events == [Event(Caller, "RoomFull")]
      ensures !AtCapacity(old(rooms), roomId) ==>
                && userRooms == old(userRooms)[caller := roomId]
                && events == [Event(Group(roomId), "PlayerJoined"), Event(Group(roomId), "PlayerListUpdated"),
                              Event(Caller, "RoomJoined"), Event(Everyone, "RoomListUpdated")]
    {
      var room: Room;
      if roomId !in rooms {
        room := NewRoom(roomId, caller, playerName);
        rooms := rooms[roomId := room];
      } else {
        room := rooms[roomId];
      }

      if |room.players| >= room.maxPlayers {
        return [Event(Caller, "RoomFull")];
      }

      var player := Player(caller, playerName, if |room.players| == 0 then "X" else "O", |room.players| == 0);
      room := room.(players := room.players + [player]);
      rooms := rooms[roomId := room];
      userRooms := userRooms[caller := roomId];
      events := [Event(Group(roomId), "PlayerJoined"), Event(Group(roomId), "PlayerListUpdated"),
                 Event(Caller, "RoomJoined"), Event(Everyone, "RoomListUpdated")];
    }

    /**
     * Leaves `roomId`: drops the caller's roster entry, hands the host flag
     * on, deletes a room left empty, and always forgets the caller's map
     * entry, whichever room it named.
     */
    method LeaveRoom(caller: string, roomId: string) returns (events: seq<Event>)
      requires Valid()
      modifies this
      ensures Valid()
      ensures rooms == Leave(old(rooms), caller, roomId)
      ensures userRooms == old(userRooms) - {caller}
      ensures events == LeaveEvents(old(rooms), caller, roomId)
    {
      LeaveKeepsRegistryOk(rooms, userRooms, caller, roomId);
      events := [];
      if roomId in rooms {
        var room := rooms[roomId];
        var i := FirstIndex(room.players, caller);
        if i >= 0 {
          var player := room.players[i];
          room := room.(players := room.players[..i] + room.players[i + 1..]);

          if player.isHost && |room.players| > 0 {
            var newHost := room.players[0].(isHost := true);
            room := room.(players := room.players[0 := newHost], hostId := newHost.connectionId, hostName := newHost.name);
          }

          if |room.players| == 0 {
            rooms := rooms - {roomId};
          } else {
            rooms := rooms[roomId := room];
            events := [Event(Group(roomId), "PlayerLeft"), Event(Group(roomId), "PlayerListUpdated")];
          }
        }
      }

      userRooms := userRooms - {caller};
      events := events + [Event(Everyone, "RoomListUpdated")];
    }

    /**
     * Starts the game of `roomId` when the caller is its host: started, X to
     * move, time reset, winner cleared, board kept.  Anyone else, or a
     * missing room, gets an Error and nothing changes.
     */
    method StartGame(caller: string, roomId: string) returns (events: seq<Event>)
      requires Valid()
      modifies this
      ensures Valid()
      ensures userRooms == old(userRooms)
      ensures roomId !in old(rooms) || !CallerIsHost(old(rooms)[roomId], caller) ==>
                rooms == old(rooms) && events == [Event(Caller, "Error")]
      ensures roomId in old(rooms) && CallerIsHost(old(rooms)[roomId], caller) ==>
                var room := old(rooms)[roomId];
                && rooms == old(rooms)[roomId := room.(game := room.game.(isStarted := true, currentPlayer := "X",
                                                                         timeLeft := TurnSeconds, winner := ""))]
                && events == [Event(Group(roomId), "GameStarted")]
    {
      if roomId in rooms {
        var room := rooms[roomId];
        var i := FirstIndex(room.players, caller);
        if i >= 0 && room.players[i].isHost {
          var game := room.game.(isStarted := true, currentPlayer := "X", timeLeft := TurnSeconds, winner := "");
          rooms := rooms[roomId := room.(game := game)];
          events := [Event(Group(roomId), "GameStarted")];
        } else {
          events := [Event(Caller, "Error")];
        }
      } else {
        events := [Event(Caller, "Error")];
      }
    }

    /**
     * Plays the caller's mark at (row, col).  A move failing any guard of
     * Accepts, or in a missing room, gets an Error and changes nothing.  An
     * accepted move fills exactly that cell with the mover's mark, then: a
     * line of five through it makes the mover the winner; otherwise a full
     * board makes the game a draw; otherwise the turn passes to the other
     * symbol with the time reset.
     */
    method MakeMove(caller: string, roomId: string, row: int, col: int) returns (events: seq<Event>)
      requires Valid()
      modifies this
      ensures Valid()
      ensures userRooms == old(userRooms)
      ensures roomId !in old(rooms) || !Accepts(old(rooms)[roomId], caller, row, col) ==>
                rooms == old(rooms) && events == [Event(Caller, "Error")]
      ensures roomId in old(rooms) && Accepts(old(rooms)[roomId], caller, row, col) ==>
                var room := old(rooms)[roomId];
                var g := room.game;
                var mover := g.currentPlayer;
                var b := Place(g.board, row, col, Mark(mover));
                && roomId in rooms
                && rooms == old(rooms)[roomId := room.(game := rooms[roomId].game)]
                && if Wins(b, row, col, Mark(mover)) then
                     && rooms[roomId].game == g.(board := b, winner := mover)
                     && events == [Event(Group(roomId), "GameEnded")]
                   else if Full(b) then
                     && rooms[roomId].game == g.(board := b, winner := Draw)
                     && events == [Event(Group(roomId), "GameEnded")]
                   else
                     && rooms[roomId].game == g.(board := b, currentPlayer := Flip(mover), timeLeft := TurnSeconds)
                     && events == [Event(Group(roomId), "MoveMade")]
    {
      if roomId !in rooms {
        return [Event(Caller, "Error")];
      }
      var room := rooms[roomId];
      var i := FirstIndex(room.players, caller);
      if !(i >= 0 && room.game.isStarted && room.game.winner == "") {
        return [Event(Caller, "Error")];
      }
      var player := room.players[i];
      if room.game.currentPlayer != player.symbol {
        return [Event(Caller, "Error")];
      }
      if !(row >= 0 && row < Size && col >= 0 && col < Size && room.game.board[row][col] == Empty) {
        return [Event(Caller, "Error")];
      }

      var game := room.game;
      game := game.(board := game.board[row := game.board[row][col := if player.symbol == "X" then MarkX else MarkO]]);

      var won := CheckWin(game.board, row, col, game.board[row][col]);
      if won {
        game := game.(winner := player.symbol);
        events := [Event(Group(roomId), "GameEnded")];
      } else {
        var full := IsBoardFull(game.board);
        if full {
          game := game.(winner := Draw);
          events := [Event(Group(roomId), "GameEnded")];
        } else {
          game := game.(currentPlayer := if game.currentPlayer == "X" then "O" else "X", timeLeft := TurnSeconds);
          events := [Event(Group(roomId), "MoveMade")];
        }
      }
      NewGameKeepsRegistryOk(rooms, userRooms, roomId, game);
      rooms := rooms[roomId := room.(game := game)];
    }

    /**
     * Replaces the game of `roomId` with a new one when the caller is its
     * host.  Anyone else, or a missing room, is ignored without a reply.
     */
    method ResetGame(caller: string, roomId: string) returns (events: seq<Event>)
      requires Valid()
      modifies this
      ensures Valid()
      ensures userRooms == old(userRooms)
      ensures roomId !in old(rooms) || !CallerIsHost(old(rooms)[roomId], caller) ==>
                rooms == old(rooms) && events == []
      ensures roomId in old(rooms) && CallerIsHost(old(rooms)[roomId], caller) ==>
                && rooms == old(rooms)[roomId := old(rooms)[roomId].(game := NewGame())]
                && events == [Event(Group(roomId), "GameReset")]
    {
      events := [];
      if roomId in rooms {
        var room := rooms[roomId];
        var i := FirstIndex(room.players, caller);
        if i >= 0 && room.players[i].isHost {
          rooms := rooms[roomId := room.(game := NewGame())];
          events := [Event(Group(roomId), "GameReset")];
        }
      }
    }

    /** A closed connection leaves the room it is mapped to, if any. */
    method OnDisconnected(caller: string) returns (events: seq<Event>)
      requires Valid()
      modifies this
      ensures Valid()
      ensures caller in old(userRooms) ==>
                && rooms == Leave(old(rooms), caller, old(userRooms)[caller])
                && userRooms == old(userRooms) - {caller}
                && events == LeaveEvents(old(rooms), caller, old(userRooms)[caller])
      ensures caller !in old(userRooms) ==>
                rooms == old(rooms) && userRooms == old(userRooms) && events == []
    {
      events := [];
      if caller in userRooms {
        events := LeaveRoom(caller, userRooms[caller]);
      }
    }
  }
}
