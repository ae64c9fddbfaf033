/**
 * websocket/handler.go: the package-level `rooms` registry (a Registry
 * object here), the create, delete and list handlers, and the lifecycle
 * of one WebSocket session. Query parameters arrive as their raw text
 * together with what strconv.Atoi made of it (Some(n) or None); the HTTP
 * status a handler writes is part of its result.
 */
module Handler {
  import opened Types
  import opened RoomSpec
  import WsRoom

  datatype Status = OK | BadRequest | NotFound | Conflict

  /** One entry of the room list. */
  datatype RoomInfo = RoomInfo(RoomID: int, RoomName: string)

  datatype CreateResult = Created(info: RoomInfo) | CreateRejected(status: Status)

  datatype DeleteResult = Deleted(id: int) | DeleteRejected(status: Status)

  /** How a session ended: before the upgrade, at room selection, or after leaving its room. */
  datatype SessionEnd = UpgradeFailed | NoRoomId | InvalidRoomId | LeftRoom(roomId: int)

  /**
   * A non-empty set of ids has a member. Calling this before `:|` over a
   * set<int> hands the verifier the witness it needs for the choice.
   */
  lemma SomeId(ids: set<int>) returns (id: int)
    requires ids != {}
    ensures id in ids
  {
    if forall x :: x !in ids {
      assert false;
    } else {
      id :| id in ids;
    }
  }

  /** The id CreateRoomHandler picks: one more than the number of live rooms. */
  function NextId(ids: set<int>): int
  {
    |ids| + 1
  }

  /** The ids 1..n. */
  function Range(n: nat): set<int>
  {
    if n == 0 then {} else Range(n - 1) + {n}
  }

  /** Range(n) holds n ids, exactly those from 1 to n. */
  lemma {:induction false} RangeSize(n: nat)
    ensures |Range(n)| == n
    ensures forall i :: i in Range(n) <==> 1 <= i <= n
  {
    if n > 0 {
      RangeSize(n - 1);
    }
  }

  /** While no room has been deleted the live ids are 1..n, and the next id is fresh and keeps that shape. */
  lemma NextIdFreshWithoutDeletes(n: nat)
    ensures NextId(Range(n)) == n + 1 && n + 1 !in Range(n)
    ensures Range(n) + {NextId(Range(n))} == Range(n + 1)
  {
    RangeSize(n);
  }

  /**
   * The id policy collides: with rooms 1..n live, deleting any room but the
   * last makes the next create pick n, which is still live, so it is
   * refused with Conflict (and stays refused until the room count changes).
   */
  lemma NextIdCollidesAfterDelete(n: nat, k: int)
    requires 1 <= k < n
    ensures NextId(Range(n) - {k}) == n && n in Range(n) - {k}
  {
    RangeSize(n);
    assert |Range(n) - {k}| == n - 1;
  }

  /** The process-wide room table `rooms`, keyed by room id. */
  class Registry {
    var rooms: map<int, WsRoom.Room>

    /** Every room is filed under its own id. */
    ghost predicate Valid()
      reads this
    {
      forall id :: id in rooms ==> rooms[id].RoomID == id
    }

    /** The room a room_id that parsed to `parsed` refers to, if any. */
    function RoomFor(parsed: Option<int>): set<WsRoom.Room>
      reads this
    {
      if parsed.Some? && parsed.value in rooms then {rooms[parsed.value]} else {}
    }

    constructor ()
      ensures Valid() && rooms == map[]
    {
      rooms := map[];
    }

    /**
     * CreateRoomHandler: an empty name is refused; otherwise the id is
     * |rooms| + 1, refused with Conflict if that id is live, and else a new
     * empty room is filed under it.
     */
    method CreateRoom(name: string) returns (res: CreateResult)
      requires Valid()
      modifies this
      ensures Valid()
      ensures name == "" ==> res == CreateRejected(BadRequest) && rooms == old(rooms)
      ensures name != "" && NextId(old(rooms).Keys) in old(rooms) ==>
        res == CreateRejected(Conflict) && rooms == old(rooms)
      ensures name != "" && NextId(old(rooms).Keys) !in old(rooms) ==>
        var id := NextId(old(rooms).Keys);
        && res == Created(RoomInfo(id, name))
        && rooms.Keys == old(rooms).Keys + {id}
        && |rooms| == |old(rooms)| + 1
        && (forall k :: k in old(rooms) ==> rooms[k] == old(rooms)[k])
        && fresh(rooms[id]) && rooms[id].RoomName == name && rooms[id].State() == Initial
    {
      if name == "" {
        return CreateRejected(BadRequest);
      }
      var roomID := |rooms| + 1;
      assert roomID == NextId(rooms.Keys);
      if roomID in rooms {
        return CreateRejected(Conflict);
      }
      var room := new WsRoom.Room(roomID, name);
      rooms := rooms[roomID := room];
      res := Created(RoomInfo(roomID, name));
    }

    /**
     * ListRoomsHandler: one {room_id, room_name} per live room, in map
     * order (unspecified); the registry is not changed.
     */
    method ListRooms() returns (roomList: seq<RoomInfo>)
      requires Valid()
      ensures |roomList| == |rooms|
      ensures forall i :: 0 <= i < |roomList| ==>
        roomList[i].RoomID in rooms && roomList[i].RoomName == rooms[roomList[i].RoomID].RoomName
      ensures forall id :: id in rooms ==> exists i :: 0 <= i < |roomList| && roomList[i].RoomID == id
      ensures forall i, j :: 0 <= i < j < |roomList| ==> roomList[i].RoomID != roomList[j].RoomID
    {
      roomList := [];
      ghost var order: seq<int> := [];
      var todo := rooms.Keys;
      while todo != {}
        invariant todo <= rooms.Keys
        invariant Distinct(order)
        invariant forall id :: id in order <==> id in rooms && id !in todo
        invariant |roomList| == |order|
        invariant forall i :: 0 <= i < |order| ==> order[i] in rooms && roomList[i] == RoomInfo(order[i], rooms[order[i]].RoomName)
        decreases todo
      {
        ghost var some := SomeId(todo);  // a witness for the choice below
        var id :| id in todo;
        var room := rooms[id];
        roomList := roomList + [RoomInfo(room.RoomID, room.RoomName)];
        order := order + [id];
        todo := todo - {id};
      }
      DistinctCard(order);
      assert forall id :: id in (set x | x in order) <==> id in rooms;
      assert (set x | x in order) == rooms.Keys;
    }

    /**
     * DeleteRoomHandler: a missing or non-numeric room_id is a BadRequest,
     * an id that is not live is NotFound, and in each of these cases nothing
     * changes. Otherwise the room's connections are all closed and exactly
     * that entry is removed.
     */
    method DeleteRoom(raw: string, parsed: Option<int>) returns (res: DeleteResult)
      requires Valid()
      modifies this, RoomFor(parsed)
      ensures Valid()
      ensures raw == "" ==> res == DeleteRejected(BadRequest) && rooms == old(rooms) && unchanged(old(RoomFor(parsed)))
      ensures raw != "" && parsed.None? ==> res == DeleteRejected(BadRequest) && rooms == old(rooms)
      ensures raw != "" && parsed.Some? && parsed.value !in old(rooms) ==>
        res == DeleteRejected(NotFound) && rooms == old(rooms)
      ensures raw != "" && parsed.Some? && parsed.value in old(rooms) ==>
        var id := parsed.value;
        && res == Deleted(id)
        && rooms == old(rooms) - {id}
        && old(rooms)[id].State() == CloseAll(old(rooms[id].State()))
    {
      if raw == "" {
        return DeleteRejected(BadRequest);
      }
      if parsed.None? {
        return DeleteRejected(BadRequest);
      }
      var roomID := parsed.value;
      if roomID !in rooms {
        return DeleteRejected(NotFound);
      }
      var room := rooms[roomID];
      room.CloseAllConnections();
      rooms := rooms - {roomID};
      res := Deleted(roomID);
    }

    /**
     * WebSocketHandler. After a successful upgrade the room_id must be
     * present, numeric and live, or the session ends without touching any
     * room. Otherwise the minted `user` joins on `conn`, every message in
     * `inbound` (what ReadJSON decoded before it first failed) is put on the
     * room's queue unchanged and in order, and the session leaves.
     */
    method Serve(upgraded: bool, raw: string, parsed: Option<int>, conn: Conn, user: User, inbound: seq<Message>)
      returns (end: SessionEnd)
      requires Valid()
      modifies RoomFor(parsed)
      ensures !upgraded ==> end == UpgradeFailed && unchanged(RoomFor(parsed))
      ensures upgraded && raw == "" ==> end == NoRoomId && unchanged(RoomFor(parsed))
      ensures upgraded && raw != "" && (parsed.None? || parsed.value !in rooms) ==> end == InvalidRoomId
      ensures upgraded && raw != "" && parsed.Some? && parsed.value in rooms ==>
        var id := parsed.value;
        && end == LeftRoom(id)
        && rooms[id].State() == Leave(Forward(Join(old(rooms[id].State()), id, conn, user), inbound), id, conn)
    {
      if !upgraded {
        return UpgradeFailed;
      }
      if raw == "" {
        return NoRoomId;
      }
      if parsed.None? || parsed.value !in rooms {
        return InvalidRoomId;
      }
      var roomID := parsed.value;
      var room := rooms[roomID];
      room.AddParticipant(conn, user);
      ghost var joined := room.State();
      var i := 0;
      while i < |inbound|
        invariant 0 <= i <= |inbound|
        invariant room.State() == Forward(joined, inbound[..i])
      {
        room.Broadcast := room.Broadcast + [inbound[i]];
        i := i + 1;
        assert inbound[..i] == inbound[..i - 1] + [inbound[i - 1]];
      }
      assert inbound[..i] == inbound;
      room.RemoveParticipant(conn);
      end := LeftRoom(roomID);
    }
  }
}
