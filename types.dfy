/**
 * The value records of the chat server (models/struct.go): users, the
 * serialisable participant and room views, and chat messages. Connections
 * are opaque identities; the Go code keys its maps by `*websocket.Conn`,
 * which may be nil, so `NilConn` stands for the nil pointer.
 */
module Types {

  datatype Option<T> = None | Some(value: T)

  /** A connection identity: the nil pointer or a live socket. */
  datatype Conn = NilConn | Socket(id: nat)

  /** A participant's synthetic identity, minted per session. */
  datatype User = User(UserID: string, UserName: string)

  /** The JSON-serialisable view of one participant. */
  datatype Participant = Participant(UserID: string, UserName: string)

  /** A chat message, inbound or synthetic (join/leave notice). */
  datatype Message = Message(MessageID: string, RoomID: int, UserID: string, Content: string, Timestamp: string)

  /** The JSON-serialisable view of a room. */
  datatype SerializableRoom = SerializableRoom(RoomID: int, RoomName: string, CreaterID: string, Participants: seq<Participant>)

  /** No element occurs twice in `s`. */
  ghost predicate Distinct<T>(s: seq<T>)
  {
    forall i, j :: 0 <= i < j < |s| ==> s[i] != s[j]
  }

  /** A sequence without repetitions has as many elements as its set. */
  lemma {:induction false} DistinctCard<T>(s: seq<T>)
    requires Distinct(s)
    ensures |set x | x in s| == |s|
  {
    if s != [] {
      var rest := s[1..];
      assert Distinct(rest);
      DistinctCard(rest);
      assert (set x | x in s) == (set x | x in rest) + {s[0]};
      assert s[0] !in rest;
    }
  }

  function ParticipantOf(u: User): Participant
  {
    Participant(u.UserID, u.UserName)
  }
}
