/**
 * The hub's registry, rooms by id and connection id to room id, and the
 * effect of a join and of a leave on the rooms, as functions of the
 * registry before the call.  The hub's methods are proved to compute these.
 */
module Registry {
  import opened Grid
  import opened Rooms

  /**
   * The registry invariant: every room is sound and stored under its own
   * id, and every connection the connection map records sits in the roster
   * of the room it is mapped to.
   */
  ghost predicate RegistryOk(rooms: map<string, Room>, userRooms: map<string, string>) {
    && (forall id :: id in rooms ==> RoomOk(id, rooms[id]))
    && (forall c :: c in userRooms ==> userRooms[c] in rooms && FirstIndex(rooms[userRooms[c]].players, c) >= 0)
  }

  /** The room `id` exists and its roster is at capacity: a join is turned away. */
  predicate AtCapacity(rooms: map<string, Room>, id: string) {
    id in rooms && |rooms[id].players| >= rooms[id].maxPlayers
  }

  /**
   * The rooms after connection `c` joins room `id` under `name`: the room is
   * created first when the id is unseen; a room at capacity is left as it
   * was; otherwise the joiner is appended to its roster.
   */
  function Join(rooms: map<string, Room>, c: string, id: string, name: string): (r': map<string, Room>)
    ensures id in r'
    ensures forall k :: k != id ==> (k in r' <==> k in rooms) && (k in r' ==> r'[k] == rooms[k])
    ensures AtCapacity(rooms, id) ==> r' == rooms
    ensures !AtCapacity(rooms, id) ==>
              var base := if id in rooms then rooms[id] else NewRoom(id, c, name);
              && r'[id] == base.(players := r'[id].players)
              && |r'[id].players| == |base.players| + 1 <= base.maxPlayers
              && r'[id].players[..|base.players|] == base.players
              && r'[id].players[|base.players|] == Player(c, name, if base.players == [] then "X" else "O", base.players == [])
    ensures id !in rooms ==>
              && r'[id].players == [Player(c, name, "X", true)]
              && r'[id].hostId == c && r'[id].hostName == name
              && r'[id].game == NewGame()
  {
    var room := if id in rooms then rooms[id] else NewRoom(id, c, name);
    if |room.players| >= room.maxPlayers then rooms[id := room]
    else rooms[id := AddPlayer(room, c, name)]
  }

  /**
   * The rooms after connection `c` leaves room `id`: nothing changes unless
   * the room exists and `c` is on its roster; then `c`'s first entry is
   * dropped (handing on the host flag) and the room is deleted if that
   * leaves its roster empty.
   */
  function Leave(rooms: map<string, Room>, c: string, id: string): (r': map<string, Room>)
    ensures forall k :: k != id ==> (k in r' <==> k in rooms) && (k in r' ==> r'[k] == rooms[k])
    ensures id !in rooms || FirstIndex(rooms[id].players, c) < 0 ==> r' == rooms
    ensures id in rooms && FirstIndex(rooms[id].players, c) >= 0 ==>
              && (id in r' <==> |rooms[id].players| > 1)
              && (id in r' ==> r'[id] == RemovePlayer(rooms[id], FirstIndex(rooms[id].players, c)))
  {
    if id in rooms && FirstIndex(rooms[id].players, c) >= 0 then
      var room := RemovePlayer(rooms[id], FirstIndex(rooms[id].players, c));
      if |room.players| == 0 then rooms - {id} else rooms[id := room]
    else rooms
  }

  // ---------------------------------------------------------------------------
  // Lemmas

  /**
   * A join by a connection the map does not record keeps the registry
   * invariant; in particular no roster grows past two and the host count
   * stays one.  The connection is recorded unless the room was full.
   */
  lemma JoinKeepsRegistryOk(rooms: map<string, Room>, userRooms: map<string, string>, c: string, id: string, name: string)
    requires RegistryOk(rooms, userRooms) && c !in userRooms
    ensures RegistryOk(Join(rooms, c, id, name), if AtCapacity(rooms, id) then userRooms else userRooms[c := id])
  {
    if !AtCapacity(rooms, id) {
      var r' := Join(rooms, c, id, name);
      if id in rooms {
        AddPlayerOk(id, rooms[id], c, name);
      } else {
        NewRoomOk(id, c, name);
      }
      var u' := userRooms[c := id];
      forall d | d in u'
        ensures u'[d] in r' && FirstIndex(r'[u'[d]].players, d) >= 0
      {
        if d == c {
          var n := |r'[id].players| - 1;
          assert r'[id].players[n].connectionId == c;
        } else if u'[d] == id {
          var j := FirstIndex(rooms[id].players, d);
          assert r'[id].players[j] == r'[id].players[..|rooms[id].players|][j];
        }
      }
    }
  }

  /**
   * A leave keeps the registry invariant once the leaver's map entry is
   * gone: the roster keeps one host (or the room is deleted), and every other
   * connection the map records is still on its room's roster.
   */
  lemma LeaveKeepsRegistryOk(rooms: map<string, Room>, userRooms: map<string, string>, c: string, id: string)
    requires RegistryOk(rooms, userRooms)
    ensures RegistryOk(Leave(rooms, c, id), userRooms - {c})
  {
    if id in rooms && FirstIndex(rooms[id].players, c) >= 0 {
      var r' := Leave(rooms, c, id);
      var i := FirstIndex(rooms[id].players, c);
      if |rooms[id].players| > 1 {
        RemovePlayerOk(id, rooms[id], i);
      }
      var u' := userRooms - {c};
      forall d | d in u'
        ensures u'[d] in r' && FirstIndex(r'[u'[d]].players, d) >= 0
      {
        if u'[d] == id {
          var j := FirstIndex(rooms[id].players, d);
          assert j != i;
          var k := if j < i then j else j - 1;
          assert |rooms[id].players| > 1;
          assert r'[id].players[k].connectionId == d;
        }
      }
    }
  }

  /**
   * Replacing the game of a room by a sound one, roster untouched, keeps the
   * registry invariant.
   */
  lemma NewGameKeepsRegistryOk(rooms: map<string, Room>, userRooms: map<string, string>, id: string, g: GameState)
    requires RegistryOk(rooms, userRooms) && id in rooms && GameOk(g)
    ensures RegistryOk(rooms[id := rooms[id].(game := g)], userRooms)
  {
    var r' := rooms[id := rooms[id].(game := g)];
    forall k | k in r'
      ensures RoomOk(k, r'[k])
    {
      if k == id {
        assert HostFieldsMatch(r'[k]) by {
          assert r'[k].players == rooms[id].players;
        }
      }
    }
  }
}
