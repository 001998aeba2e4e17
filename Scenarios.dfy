/**
 * Concrete call sequences against a fresh hub.  Each one fixes what the hub
 * answers and what it stores afterwards, including two consequences of the
 * join and leave rules that a reader might not expect: a player who joins
 * after the X holder left is also given O, and a connection that leaves a
 * room it is not in loses its map entry while staying on its real roster.
 */
module Scenarios {
  import opened Grid
  import opened Rooms
  import opened Registry
  import opened Hub

  /** Room "r" as a join creates it, with the given host fields and roster. */
  function RoomR(hostId: string, hostName: string, players: seq<Player>): Room {
    NewRoom("r", hostId, hostName).(players := players)
  }

  /** A second joiner of "r" is appended with O and no host flag. */
  lemma JoinSecond()
    ensures Join(map["r" := RoomR("ann", "Ann", [Player("ann", "Ann", "X", true)])], "bob", "r", "Bob")
         == map["r" := RoomR("ann", "Ann", [Player("ann", "Ann", "X", true), Player("bob", "Bob", "O", false)])]
  {
    var r' := Join(map["r" := RoomR("ann", "Ann", [Player("ann", "Ann", "X", true)])], "bob", "r", "Bob");
    assert r'["r"].players == [Player("ann", "Ann", "X", true), Player("bob", "Bob", "O", false)];
  }

  /** When the host of "r" leaves, the remaining player is made host and keeps O. */
  lemma HostLeaves()
    ensures Leave(map["r" := RoomR("ann", "Ann", [Player("ann", "Ann", "X", true), Player("bob", "Bob", "O", false)])], "ann", "r")
         == map["r" := RoomR("bob", "Bob", [Player("bob", "Bob", "O", true)])]
  {
    var r := RoomR("ann", "Ann", [Player("ann", "Ann", "X", true), Player("bob", "Bob", "O", false)]);
    assert FirstIndex(r.players, "ann") == 0;
    var r' := RemovePlayer(r, 0);
    assert r'.players == [Player("bob", "Bob", "O", true)];
  }

  /** Ann creates "r" and Bob joins it. */
  method Pair() returns (hub: GameHub)
    ensures fresh(hub) && hub.Valid()
    ensures hub.rooms == map["r" := RoomR("ann", "Ann", [Player("ann", "Ann", "X", true), Player("bob", "Bob", "O", false)])]
    ensures hub.userRooms == map["ann" := "r", "bob" := "r"]
  {
    hub := new GameHub();
    var e1 := hub.JoinRoom("ann", "r", "Ann");
    assert hub.rooms == map["r" := RoomR("ann", "Ann", [Player("ann", "Ann", "X", true)])];
    JoinSecond();
    var e2 := hub.JoinRoom("bob", "r", "Bob");
  }

  /** Ann creates "r", Bob joins, Ann leaves. */
  method AfterHostLeft() returns (hub: GameHub)
    ensures fresh(hub) && hub.Valid()
    ensures hub.rooms == map["r" := RoomR("bob", "Bob", [Player("bob", "Bob", "O", true)])]
    ensures hub.userRooms == map["bob" := "r"]
  {
    hub := Pair();
    HostLeaves();
    var e3 := hub.LeaveRoom("ann", "r");
  }

  /**
   * After the X holder left, Cat joins: Bob (now host) and Cat both hold O,
   * and the join is announced like any other.
   */
  method SharedSymbolTrace() returns (symbols: seq<string>, host: string, events: seq<Event>)
    ensures symbols == ["O", "O"]
    ensures host == "bob"
    ensures events == [Event(Group("r"), "PlayerJoined"), Event(Group("r"), "PlayerListUpdated"),
                       Event(Caller, "RoomJoined"), Event(Everyone, "RoomListUpdated")]
  {
    var hub := AfterHostLeft();
    events := hub.JoinRoom("cat", "r", "Cat");
    assert hub.rooms["r"].players == [Player("bob", "Bob", "O", true), Player("cat", "Cat", "O", false)];
    symbols := [hub.rooms["r"].players[0].symbol, hub.rooms["r"].players[1].symbol];
    host := hub.rooms["r"].hostId;
  }

  /**
   * A third joiner of a two-player room is turned away with RoomFull, the
   * roster keeps its two players and the joiner is not mapped to the room.
   */
  method FullRoomTrace() returns (events: seq<Event>, size: int, mapped: bool)
    ensures events == [Event(Caller, "RoomFull")]
    ensures size == 2 && !mapped
  {
    var hub := Pair();
    events := hub.JoinRoom("cat", "r", "Cat");
    size := |hub.rooms["r"].players|;
    mapped := "cat" in hub.userRooms;
  }

  /**
   * Cat joins "a", then leaves "b", a room Cat is not in: the map entry is
   * gone but Cat is still on the roster of "a".  Joining "c" then puts Cat
   * on two rosters, and a disconnect only leaves "c", so "a" keeps a roster
   * entry for a closed connection.
   */
  method SecondRoomTrace() returns (inA: bool, inC: bool, staleInA: bool, cGone: bool)
    ensures inA && inC
    ensures staleInA && cGone
  {
    var hub := new GameHub();
    var e1 := hub.JoinRoom("cat", "a", "Cat");
    var e2 := hub.LeaveRoom("cat", "b");
    assert "cat" !in hub.userRooms;
    assert hub.rooms["a"].players == [Player("cat", "Cat", "X", true)];
    var e3 := hub.JoinRoom("cat", "c", "Cat");
    assert hub.rooms["a"].players == [Player("cat", "Cat", "X", true)];
    inA := FirstIndex(hub.rooms["a"].players, "cat") >= 0;
    inC := FirstIndex(hub.rooms["c"].players, "cat") >= 0;
    var e4 := hub.OnDisconnected("cat");
    staleInA := "a" in hub.rooms && FirstIndex(hub.rooms["a"].players, "cat") >= 0;
    cGone := "c" !in hub.rooms;
  }

  /** Ann creates "r", Bob joins, Bob may not start the game, Ann starts it. */
  method Started() returns (hub: GameHub, refused: seq<Event>, started: seq<Event>)
    ensures fresh(hub) && hub.Valid()
    ensures refused == [Event(Caller, "Error")] && started == [Event(Group("r"), "GameStarted")]
    ensures "r" in hub.rooms
    ensures hub.rooms["r"].players == [Player("ann", "Ann", "X", true), Player("bob", "Bob", "O", false)]
    ensures hub.rooms["r"].game == NewGame().(isStarted := true)
  {
    hub := Pair();
    refused := hub.StartGame("bob", "r");
    started := hub.StartGame("ann", "r");
  }

  /**
   * In a started game O may not move first, X's first move passes the turn
   * to O, and X may not move twice in a row.
   */
  method OpeningTrace() returns (events: seq<seq<Event>>, turn: string, cell: int)
    ensures events == [[Event(Caller, "Error")], [Event(Group("r"), "GameStarted")],
                       [Event(Caller, "Error")], [Event(Group("r"), "MoveMade")],
                       [Event(Caller, "Error")]]
    ensures turn == "O" && cell == MarkX
  {
    var hub, s1, s2 := Started();
    var m1 := hub.MakeMove("bob", "r", 0, 0);
    var placed := Place(EmptyBoard(), 0, 0, MarkX);
    assert placed[1][1] == Empty;
    assert !Wins(placed, 0, 0, MarkX) by {
      assert placed[0][1] == Empty && placed[1][0] == Empty && placed[1][1] == Empty;
    }
    var m2 := hub.MakeMove("ann", "r", 0, 0);
    var m3 := hub.MakeMove("ann", "r", 0, 1);
    events := [s1, s2, m1, m2, m3];
    turn := hub.rooms["r"].game.currentPlayer;
    cell := hub.rooms["r"].game.board[0][0];
  }
}
