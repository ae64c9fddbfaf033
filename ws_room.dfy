/**
 * The Room of websocket/room.go: a participant table keyed by connection,
 * the Broadcast channel (a FIFO queue here), and the effects its methods
 * have on connections (successful writes in `Sent`, Close calls in
 * `Closed`). Each method runs under the room's mutex in the source and is
 * one atomic step here, proved against the transitions of RoomSpec.
 */
module WsRoom {
  import opened Types
  import opened RoomSpec

  class Room {
    const RoomID: int
    const RoomName: string
    var Participants: map<Conn, User>
    var Broadcast: seq<Message>
    var Sent: map<Conn, seq<Message>>
    var Closed: set<Conn>

    /** The room's abstract state. */
    function State(): State
      reads this
    {
      RoomSpec.State(Participants, Broadcast, Sent, Closed)
    }

    /** NewRoom: the given id and name, no participants, nothing queued. */
    constructor (roomID: int, roomName: string)
      ensures RoomID == roomID && RoomName == roomName
      ensures State() == Initial
    {
      RoomID, RoomName := roomID, roomName;
      Participants, Broadcast, Sent, Closed := map[], [], map[], {};
    }

    /** Close every registered connection and remove it from the table. */
    method CloseAllConnections()
      modifies this
      ensures State() == CloseAll(old(State()))
    {
      ghost var s0 := State();
      while Participants != map[]
        invariant Participants.Keys <= s0.participants.Keys
        invariant Broadcast == s0.queue && Sent == s0.sent
        invariant Closed == s0.closed + (s0.participants.Keys - Participants.Keys)
        decreases Participants.Keys
      {
        var conn :| conn in Participants;
        Closed := Closed + {conn};
        Participants := Participants - {conn};
      }
    }

    /** Register `conn` as `user` (overwriting), then queue the join notice. */
    method AddParticipant(conn: Conn, user: User)
      modifies this
      ensures State() == Join(old(State()), RoomID, conn, user)
    {
      Participants := Participants[conn := user];
      var joinMessage := Message("", RoomID, user.UserID, user.UserName + JoinSuffix, "");
      Broadcast := Broadcast + [joinMessage];
    }

    /** If `conn` is registered, queue its leave notice and remove it; otherwise do nothing. */
    method RemoveParticipant(conn: Conn)
      modifies this
      ensures State() == Leave(old(State()), RoomID, conn)
    {
      if conn in Participants {
        var user := Participants[conn];
        var leaveMessage := Message("", RoomID, user.UserID, user.UserName + LeaveSuffix, "");
        Broadcast := Broadcast + [leaveMessage];
        Participants := Participants - {conn};
      }
    }

    /**
     * One iteration of StartBroadcast. The writes to the connections in
     * `failing` fail. Returns the message taken from the queue, or None when
     * the queue is empty (the consumer would block).
     */
    method BroadcastStep(failing: set<Conn>) returns (message: Option<Message>)
      modifies this
      ensures State() == Deliver(old(State()), failing)
      ensures message == if old(Broadcast) == [] then None else Some(old(Broadcast)[0])
    {
      if Broadcast == [] {
        return None;
      }
      ghost var s0 := State();
      var m := Broadcast[0];
      Broadcast := Broadcast[1..];
      var todo := Participants.Keys;
      while todo != {}
        invariant todo <= s0.participants.Keys
        invariant Broadcast == s0.queue[1..]
        invariant Participants == Survivors(s0.participants, failing - todo)
        invariant Sent == Appended(s0.sent, s0.participants.Keys - failing - todo, m)
        invariant Closed == s0.closed + (s0.participants.Keys - todo) * failing
        decreases todo
      {
        var conn :| conn in todo;
        if conn in failing {
          VisitFailing(s0, failing, todo, conn);
          Closed := Closed + {conn};
          Participants := Participants - {conn};
        } else {
          VisitOk(s0, failing, todo, conn, m);
          Sent := Sent[conn := SentTo(Sent, conn) + [m]];
        }
        todo := todo - {conn};
      }
      DeliverParts(s0, failing);
      message := Some(m);
    }
  }
}
