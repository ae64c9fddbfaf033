/**
 * The Room of models/struct.go: the same participant table and broadcast
 * path as websocket/room.go, plus the creator's id, a nil-tolerant
 * CloseAllConnections, and ToSerializable, which flattens the table into a
 * list of participants for JSON.
 */
module Models {
  import opened Types
  import opened RoomSpec

  /**
   * `ps` lists the entries of `m`, one per connection, in the order
   * `order` visits the connections (Go's map order, which is unspecified).
   */
  ghost predicate ListedInOrder(ps: seq<Participant>, m: map<Conn, User>, order: seq<Conn>)
  {
    && Distinct(order)
    && (forall c :: c in order <==> c in m)
    && |ps| == |order|
    && (forall i :: 0 <= i < |order| ==> ps[i] == ParticipantOf(m[order[i]]))
  }

  /** `ps` lists the entries of `m`, one per connection, in some order. */
  ghost predicate Lists(ps: seq<Participant>, m: map<Conn, User>)
  {
    exists order :: ListedInOrder(ps, m, order)
  }

  /** A listing of the participant table has exactly one element per entry. */
  lemma ListedLength(ps: seq<Participant>, m: map<Conn, User>, order: seq<Conn>)
    requires ListedInOrder(ps, m, order)
    ensures |ps| == |m|
  {
    DistinctCard(order);
    assert (set c | c in order) == m.Keys;
  }

  class Room {
    const RoomID: int
    const RoomName: string
    const CreaterID: string
    var Participants: map<Conn, User>
    var Broadcast: seq<Message>
    var Sent: map<Conn, seq<Message>>
    var Closed: set<Conn>

    /** The room's abstract state. */
    function State(): State
      reads this
    {
      RoomSpec.State(Participants, Broadcast, Sent, Closed)
    }

    /** NewRoom: the given id, name and creator, no participants, nothing queued. */
    constructor (roomID: int, roomName: string, createrID: string)
      ensures RoomID == roomID && RoomName == roomName && CreaterID == createrID
      ensures State() == Initial
    {
      RoomID, RoomName, CreaterID := roomID, roomName, createrID;
      Participants, Broadcast, Sent, Closed := map[], [], map[], {};
    }

    /**
     * The serialisable view: id, name and creator copied, and one
     * Participant per table entry (an empty table gives an empty list).
     * The room itself is not changed.
     */
    method ToSerializable() returns (r: SerializableRoom)
      ensures r.RoomID == RoomID && r.RoomName == RoomName && r.CreaterID == CreaterID
      ensures Lists(r.Participants, Participants)
      ensures |r.Participants| == |Participants|
    {
      var participants: seq<Participant> := [];
      ghost var order: seq<Conn> := [];
      var todo := Participants.Keys;
      while todo != {}
        invariant todo <= Participants.Keys
        invariant Distinct(order)
        invariant forall c :: c in order <==> c in Participants && c !in todo
        invariant |participants| == |order|
        invariant forall i :: 0 <= i < |order| ==> participants[i] == ParticipantOf(Participants[order[i]])
        decreases todo
      {
        var conn :| conn in todo;
        var user := Participants[conn];
        participants := participants + [Participant(user.UserID, user.UserName)];
        order := order + [conn];
        todo := todo - {conn};
      }
      assert ListedInOrder(participants, Participants, order);
      ListedLength(participants, Participants, order);
      r := SerializableRoom(RoomID, RoomName, CreaterID, participants);
    }

    /** Close every registered non-nil connection; remove every entry, nil included. */
    method CloseAllConnections()
      modifies this
      ensures State() == CloseAllNonNil(old(State()))
    {
      ghost var s0 := State();
      while Participants != map[]
        invariant Participants.Keys <= s0.participants.Keys
        invariant Broadcast == s0.queue && Sent == s0.sent
        invariant Closed == s0.closed + (s0.participants.Keys - Participants.Keys - {NilConn})
        decreases Participants.Keys
      {
        var conn :| conn in Participants;
        if conn != NilConn {
          Closed := Closed + {conn};
        }
        Participants := Participants - {conn};
      }
    }

    /** Register `conn` as `user` (overwriting), then queue the join notice. */
    method AddParticipant(conn: Conn, user: User)
      modifies this
      ensures State() == Join(old(State()), RoomID, conn, user)
    {
      Participants := Participants[conn := user];
      var joinMessage := Message("", RoomID, user.UserID, user.UserName + JoinSuffix, "");
      Broadcast := Broadcast + [joinMessage];
    }

    /** If `conn` is registered, queue its leave notice and remove it; otherwise do nothing. */
    method RemoveParticipant(conn: Conn)
      modifies this
      ensures State() == Leave(old(State()), RoomID, conn)
    {
      if conn in Participants {
        var user := Participants[conn];
        var leaveMessage := Message("", RoomID, user.UserID, user.UserName + LeaveSuffix, "");
        Broadcast := Broadcast + [leaveMessage];
        Participants := Participants - {conn};
      }
    }

    /**
     * One iteration of StartBroadcast. The writes to the connections in
     * `failing` fail. Returns the message taken from the queue, or None when
     * the queue is empty (the consumer would block).
     */
    method BroadcastStep(failing: set<Conn>) returns (message: Option<Message>)
      modifies this
      ensures State() == Deliver(old(State()), failing)
      ensures message == if old(Broadcast) == [] then None else Some(old(Broadcast)[0])
    {
      if Broadcast == [] {
        return None;
      }
      ghost var s0 := State();
      var m := Broadcast[0];
      Broadcast := Broadcast[1..];
      var todo := Participants.Keys;
      while todo != {}
        invariant todo <= s0.participants.Keys
        invariant Broadcast == s0.queue[1..]
        invariant Participants == Survivors(s0.participants, failing - todo)
        invariant Sent == Appended(s0.sent, s0.participants.Keys - failing - todo, m)
        invariant Closed == s0.closed + (s0.participants.Keys - todo) * failing
        decreases todo
      {
        var conn :| conn in todo;
        if conn in failing {
          VisitFailing(s0, failing, todo, conn);
          Closed := Closed + {conn};
          Participants := Participants - {conn};
        } else {
          VisitOk(s0, failing, todo, conn, m);
          Sent := Sent[conn := SentTo(Sent, conn) + [m]];
        }
        todo := todo - {conn};
      }
      DeliverParts(s0, failing);
      message := Some(m);
    }
  }
}
