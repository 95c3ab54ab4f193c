/**
  Socket rooms: which sessions have joined the room of which project, and
  which of them a broadcast reaches.
*/
module Rooms {
  import opened Projects

  type SessionId = nat

  /** Room name (a project id) to the sessions that joined it. */
  type RoomMap = map<ProjectId, set<SessionId>>

  /**
    The two forms of emit used by the server: `io.to(room)` reaches the
    whole room, `socket.to(room)` everyone in it but the emitting socket.
  */
  datatype Audience = WholeRoom | AllBut(sender: SessionId)

  /** An unknown room has no members: emitting to it reaches nobody. */
  function Members(rooms: RoomMap, room: ProjectId): (members: set<SessionId>) {
    if room in rooms then rooms[room] else {}
  }

  /** `socket.join(room)`: no access check, and no other room changes. */
  function Join(rooms: RoomMap, room: ProjectId, session: SessionId): (r: RoomMap)
    ensures Members(r, room) == Members(rooms, room) + {session}
    ensures forall other :: other != room ==> Members(r, other) == Members(rooms, other)
  {
    rooms[room := Members(rooms, room) + {session}]
  }

  function Recipients(rooms: RoomMap, room: ProjectId, audience: Audience): (r: set<SessionId>)
    ensures r <= Members(rooms, room)
    ensures audience.AllBut? ==> audience.sender !in r
    ensures forall s :: s in Members(rooms, room) && (audience.WholeRoom? || s != audience.sender) ==> s in r
  {
    match audience
    case WholeRoom => Members(rooms, room)
    case AllBut(sender) => Members(rooms, room) - {sender}
  }

  /**
    Fan-out: with the sender in a room of n sessions, a whole-room emit
    reaches n sessions and an all-but-sender emit reaches n - 1.
  */
  lemma FanOut(rooms: RoomMap, room: ProjectId, sender: SessionId)
    requires sender in Members(rooms, room)
    ensures |Recipients(rooms, room, WholeRoom)| == |Members(rooms, room)|
    ensures |Recipients(rooms, room, AllBut(sender))| == |Members(rooms, room)| - 1
  {
  }

  /** A session that joins a room hears whole-room emits there, but not its own relays. */
  lemma JoinedSessionHears(rooms: RoomMap, room: ProjectId, session: SessionId)
    ensures session in Recipients(Join(rooms, room, session), room, WholeRoom)
    ensures session !in Recipients(Join(rooms, room, session), room, AllBut(session))
  {
  }

  /** Joining one room does not make a session hear emits to another. */
  lemma JoinIsolatesRooms(rooms: RoomMap, room: ProjectId, other: ProjectId, session: SessionId, audience: Audience)
    requires other != room
    ensures Recipients(Join(rooms, room, session), other, audience) == Recipients(rooms, other, audience)
  {
  }
}
