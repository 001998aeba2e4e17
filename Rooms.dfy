/**
 * One Caro room as a value: its roster of players, the match it embeds and
 * the two roster changes the hub makes to it, joining (append a player, the
 * symbol and host flag chosen by the roster size) and leaving (drop one
 * entry, hand the host flag to the first remaining player).
 */
module Rooms {
  import opened Grid

  const MaxPlayers: int := 2
  /** TimeLeft is only ever set to this value. */
  const TurnSeconds: int := 60
  /** The winner value of a game that ended with a full board. */
  const Draw: string := "Draw"

  datatype Player = Player(connectionId: string, name: string, symbol: string, isHost: bool)

  /** `winner` is "" while the game is undecided, then "X", "O" or Draw. */
  datatype GameState = GameState(
    isStarted: bool,
    currentPlayer: string,
    board: Board,
    timeLeft: int,
    winner: string)

  /** `players` is kept in join order. */
  datatype Room = Room(
    roomId: string,
    roomName: string,
    hostId: string,
    hostName: string,
    players: seq<Player>,
    game: GameState,
    maxPlayers: int,
    isPrivate: bool)

  /** A freshly constructed game: not started, X to move, empty board, no winner. */
  function NewGame(): GameState {
    GameState(false, "X", EmptyBoard(), TurnSeconds, "")
  }

  /** The room created on the first join to an unseen id; the joiner is named host. */
  function NewRoom(roomId: string, hostId: string, hostName: string): Room {
    Room(roomId, "Ph\U{00F2}ng " + roomId, hostId, hostName, [], NewGame(), MaxPlayers, false)
  }

  /** The cell value a player of this symbol places. */
  function Mark(symbol: string): int {
    if symbol == "X" then MarkX else MarkO
  }

  /** The symbol whose turn follows `symbol`'s. */
  function Flip(symbol: string): string {
    if symbol == "X" then "O" else "X"
  }

  /**
   * Position of the first roster entry with connection id `c`, or -1 when
   * there is none (the lookup every hub operation starts with).
   */
  function FirstIndex(ps: seq<Player>, c: string): (i: int)
    ensures -1 <= i < |ps|
    ensures 0 <= i ==> ps[i].connectionId == c && forall k :: 0 <= k < i ==> ps[k].connectionId != c
    ensures i == -1 <==> forall k :: 0 <= k < |ps| ==> ps[k].connectionId != c
  {
    if ps == [] then -1
    else if ps[0].connectionId == c then 0
    else
      var j := FirstIndex(ps[1..], c);
      if j < 0 then -1 else j + 1
  }

  /** Number of roster entries flagged host. */
  function HostCount(ps: seq<Player>): nat {
    if ps == [] then 0 else (if ps[0].isHost then 1 else 0) + HostCount(ps[1..])
  }

  /** Every entry flagged host is the one the room's HostId/HostName name. */
  predicate HostFieldsMatch(r: Room) {
    forall k :: 0 <= k < |r.players| && r.players[k].isHost ==>
      r.players[k].connectionId == r.hostId && r.players[k].name == r.hostName
  }

  ghost predicate GameOk(g: GameState) {
    && WellFormed(g.board)
    && (g.currentPlayer == "X" || g.currentPlayer == "O")
    && (g.winner == "" || g.winner == "X" || g.winner == "O" || g.winner == Draw)
    && (g.winner != "" ==> g.isStarted)
  }

  /**
   * What holds of every room the registry keeps under `id`: a roster of one
   * or two players, exactly one of them host and named by the host fields,
   * symbols X or O, and a well-formed match.
   */
  ghost predicate RoomOk(id: string, r: Room) {
    && r.roomId == id
    && r.maxPlayers == MaxPlayers
    && 1 <= |r.players| <= r.maxPlayers
    && HostCount(r.players) == 1
    && HostFieldsMatch(r)
    && (forall k :: 0 <= k < |r.players| ==> r.players[k].symbol == "X" || r.players[k].symbol == "O")
    && GameOk(r.game)
  }

  // ---------------------------------------------------------------------------
  // Roster changes

  /**
   * Appends the joiner; the first player of an empty roster gets X and the
   * host flag, anybody else gets O and no flag.  Only the roster changes.
   */
  function AddPlayer(r: Room, c: string, name: string): (r': Room)
    ensures r' == r.(players := r'.players)
    ensures |r'.players| == |r.players| + 1 && r'.players[..|r.players|] == r.players
    ensures var p := r'.players[|r.players|];
            && p.connectionId == c && p.name == name
            && (p.symbol == "X" <==> r.players == [])
            && (p.symbol == "O" <==> r.players != [])
            && (p.isHost <==> r.players == [])
    ensures HostCount(r'.players) == HostCount(r.players) + (if r.players == [] then 1 else 0)
  {
    var p := Player(c, name, if |r.players| == 0 then "X" else "O", |r.players| == 0);
    HostCountAppend(r.players, [p]);
    r.(players := r.players + [p])
  }

  /**
   * Drops roster entry `i`, keeping the order of the others.  When the
   * dropped player was host and someone remains, the first remaining player
   * becomes host and the room's host fields name them; otherwise the host
   * fields are kept.  Nothing but the roster and the host fields changes.
   */
  function RemovePlayer(r: Room, i: nat): (r': Room)
    requires i < |r.players|
    ensures r' == r.(players := r'.players, hostId := r'.hostId, hostName := r'.hostName)
    ensures |r'.players| == |r.players| - 1
    ensures forall k :: 0 <= k < |r'.players| ==>
              var p := if k < i then r.players[k] else r.players[k + 1];
              && r'.players[k].connectionId == p.connectionId
              && r'.players[k].name == p.name
              && r'.players[k].symbol == p.symbol
              && (r'.players[k].isHost <==> p.isHost || (k == 0 && r.players[i].isHost))
    ensures if r.players[i].isHost && |r'.players| > 0
            then r'.hostId == r'.players[0].connectionId && r'.hostName == r'.players[0].name
            else r'.hostId == r.hostId && r'.hostName == r.hostName
  {
    var rest := r.players[..i] + r.players[i + 1..];
    if r.players[i].isHost && |rest| > 0 then
      var heir := rest[0].(isHost := true);
      r.(players := rest[0 := heir], hostId := heir.connectionId, hostName := heir.name)
    else
      r.(players := rest)
  }

  // ---------------------------------------------------------------------------
  // Lemmas

  lemma {:induction false} HostCountAppend(a: seq<Player>, b: seq<Player>)
    ensures HostCount(a + b) == HostCount(a) + HostCount(b)
  {
    if a == [] {
      assert a + b == b;
    } else {
      assert (a + b)[1..] == a[1..] + b;
      HostCountAppend(a[1..], b);
    }
  }

  lemma {:induction false} NoHostFlagged(ps: seq<Player>)
    requires HostCount(ps) == 0
    ensures forall k :: 0 <= k < |ps| ==> !ps[k].isHost
  {
    if ps != [] {
      NoHostFlagged(ps[1..]);
      assert forall k :: 1 <= k < |ps| ==> ps[k] == ps[1..][k - 1];
    }
  }

  /** Creating a room and admitting its first player gives a sound room. */
  lemma NewRoomOk(id: string, c: string, name: string)
    ensures RoomOk(id, AddPlayer(NewRoom(id, c, name), c, name))
  {
    var r := AddPlayer(NewRoom(id, c, name), c, name);
    assert r.players == [Player(c, name, "X", true)];
  }

  /** Admitting a second player keeps a sound room sound (it gets O, not host). */
  lemma AddPlayerOk(id: string, r: Room, c: string, name: string)
    requires RoomOk(id, r) && |r.players| < r.maxPlayers
    ensures RoomOk(id, AddPlayer(r, c, name))
  {
    var r' := AddPlayer(r, c, name);
    forall k | 0 <= k < |r'.players|
      ensures r'.players[k].symbol == "X" || r'.players[k].symbol == "O"
      ensures r'.players[k].isHost ==> r'.players[k].connectionId == r.hostId && r'.players[k].name == r.hostName
    {
      if k < |r.players| {
        assert r'.players[k] == r'.players[..|r.players|][k];
      }
    }
  }

  /** Dropping entry `i` lowers the host count by that entry's flag. */
  lemma HostCountRemove(ps: seq<Player>, i: nat)
    requires i < |ps|
    ensures HostCount(ps[..i] + ps[i + 1..]) == HostCount(ps) - (if ps[i].isHost then 1 else 0)
  {
    assert ps == ps[..i] + ([ps[i]] + ps[i + 1..]);
    HostCountAppend(ps[..i], [ps[i]] + ps[i + 1..]);
    HostCountAppend([ps[i]], ps[i + 1..]);
    HostCountAppend(ps[..i], ps[i + 1..]);
    assert [ps[i]][1..] == [];
  }

  /**
   * Dropping one of several players keeps exactly one host, and the host
   * fields name them.
   */
  lemma RemovePlayerOk(id: string, r: Room, i: nat)
    requires RoomOk(id, r) && i < |r.players| && |r.players| > 1
    ensures RoomOk(id, RemovePlayer(r, i))
  {
    var ps := r.players;
    var rest := ps[..i] + ps[i + 1..];
    HostCountRemove(ps, i);
    var r' := RemovePlayer(r, i);
    if ps[i].isHost {
      NoHostFlagged(rest);
      assert r'.players == rest[0 := rest[0].(isHost := true)];
      assert r'.players[1..] == rest[1..];
      assert HostCount(rest) == HostCount(rest[1..]);
      assert HostCount(r'.players) == 1;
    } else {
      assert r'.players == rest;
    }
  }
}
