/** The presence service of services/socketService.js: two maps kept side by side
    (user to its latest socket, socket to its user), the socket.io room table, and
    the events the service has emitted. Each handler runs as one atomic step. */
module SocketService {
  import opened Common
  import opened Rooms
  import Handshake

  /** The part of `socket.user` the handlers read. */
  datatype User = User(id: UserId, username: string)

  datatype Event =
    | UserJoined(userId: UserId, username: string)
    | UserLeft(userId: UserId, username: string)
    | UserTyping(userId: UserId, username: string, isTyping: bool)
    | MessageRead(messageId: MessageId, userId: UserId, username: string)
    | NewMessage(message: string)
    | Custom(name: string, data: string)

  /** The handshake of this server reads the `userId` claim. */
  const SubjectClaim := "userId"

  /** `Array.from(room).map(id => socketUsers.get(id)).filter(u => u !== undefined)`. */
  function MapDefined(sockets: seq<SocketId>, socketUsers: map<SocketId, UserId>): (r: seq<UserId>)
    ensures |r| <= |sockets|
    ensures forall u :: u in r ==> exists s :: s in sockets && s in socketUsers && socketUsers[s] == u
    ensures forall s :: s in sockets && s in socketUsers ==> socketUsers[s] in r
    ensures (forall s :: s in sockets ==> s in socketUsers) ==> |r| == |sockets|
  {
    if sockets == [] then []
    else
      var rest := MapDefined(sockets[1..], socketUsers);
      if sockets[0] in socketUsers then [socketUsers[sockets[0]]] + rest else rest
  }

  /** The service's tables agree: rooms are well formed, both maps point at live
      sessions of the right user, and every socket in a room has a session. */
  ghost predicate Consistent(userSockets: map<UserId, SocketId>, socketUsers: map<SocketId, UserId>,
                             sessions: map<SocketId, User>, rooms: RoomTable) {
    && WellFormed(rooms)
    && (forall s :: s in socketUsers ==> s in sessions && socketUsers[s] == sessions[s].id)
    && (forall u :: u in userSockets ==> userSockets[u] in sessions && sessions[userSockets[u]].id == u)
    && (forall r, s :: r in rooms && s in rooms[r] ==> s in sessions)
  }

  /** Recording a fresh socket for `user` and joining its two rooms keeps the tables
      consistent. */
  lemma ConnectConsistent(userSockets: map<UserId, SocketId>, socketUsers: map<SocketId, UserId>,
                          sessions: map<SocketId, User>, rooms: RoomTable, s: SocketId, user: User)
    requires Consistent(userSockets, socketUsers, sessions, rooms)
    requires s !in sessions
    ensures Consistent(userSockets[user.id := s], socketUsers[s := user.id], sessions[s := user],
                       Join(Join(rooms, s, s), user.id, s))
  {
    var first := Join(rooms, s, s);
    var joined := Join(first, user.id, s);
    var sessions' := sessions[s := user];
    var userSockets', socketUsers' := userSockets[user.id := s], socketUsers[s := user.id];
    forall x | x in socketUsers' ensures x in sessions' && socketUsers'[x] == sessions'[x].id {
      if x != s {
        assert socketUsers'[x] == socketUsers[x] && sessions'[x] == sessions[x];
      }
    }
    forall v | v in userSockets' ensures userSockets'[v] in sessions' && sessions'[userSockets'[v]].id == v {
      if v != user.id {
        assert userSockets'[v] == userSockets[v] != s;
      }
    }
    assert WellFormed(first);
    assert WellFormed(joined);
    forall q, x | q in joined && x in joined[q] ensures x in sessions' {
      assert x == s || (q in first && x in first[q]);
      if x != s {
        assert q in rooms && x in rooms[q];
      }
    }
  }

  class SocketService {
    var userSockets: map<UserId, SocketId>
    var socketUsers: map<SocketId, UserId>
    /** `socket.user` of every live socket, fixed at its handshake. */
    var sessions: map<SocketId, User>
    var rooms: RoomTable
    var outbox: seq<Emission<Event>>

    ghost predicate Valid()
      reads this
    {
      Consistent(userSockets, socketUsers, sessions, rooms)
    }

    constructor ()
      ensures Valid()
      ensures userSockets == map[] && socketUsers == map[] && sessions == map[]
      ensures rooms == map[] && outbox == []
    {
      userSockets, socketUsers, sessions := map[], map[], map[];
      rooms, outbox := map[], [];
    }

    /** `isUserOnline(userId)`: the user has a registered socket, which under the
        invariant is a live session of that user. */
    predicate IsUserOnline(u: UserId): (r: bool)
      reads this
      ensures r <==> u in userSockets
      ensures r && Valid() ==> userSockets[u] in sessions && sessions[userSockets[u]].id == u
    {
      u in userSockets
    }

    /** `getOnlineUsers(chatId)`: the users of the sockets in the room, in join order. */
    function GetOnlineUsers(chatId: Room): (r: seq<UserId>)
      reads this
      ensures chatId !in rooms ==> r == []
      ensures chatId in rooms ==> |r| <= |rooms[chatId]|
      ensures WellFormed(rooms) ==> |r| <= |Members(rooms, chatId)|
      ensures forall u :: u in r ==> exists s :: s in Members(rooms, chatId) && s in socketUsers && socketUsers[s] == u
      ensures forall s :: s in Members(rooms, chatId) && s in socketUsers ==> socketUsers[s] in r
    {
      if chatId !in rooms then []
      else
        var room := rooms[chatId];
        assert WellFormed(rooms) ==> NoDup(room);
        DistinctCount(room);
        MapDefined(room, socketUsers)
    }

    /** A new transport connection: the handshake middleware, then the `connection`
        handler, which records both mappings and joins the user's personal room.
        socket.io itself first subscribes the socket to the room named by its id. */
    method Connect(s: SocketId, token: Option<string>, verify: string -> Option<Handshake.Claims>,
                   users: map<UserId, User>) returns (r: Result<User, string>)
      requires Valid()
      requires s !in sessions  // socket.io gives every connection a fresh id
      modifies this
      ensures Valid()
      ensures r == Handshake.Authenticate(token, verify, SubjectClaim, users)
      ensures r.Err? ==> userSockets == old(userSockets) && socketUsers == old(socketUsers)
                         && sessions == old(sessions) && rooms == old(rooms) && outbox == old(outbox)
      ensures r.Ok? ==> && userSockets == old(userSockets)[r.value.id := s]
                        && socketUsers == old(socketUsers)[s := r.value.id]
                        && sessions == old(sessions)[s := r.value]
                        && rooms == Join(Join(old(rooms), s, s), r.value.id, s)
                        && outbox == old(outbox)
      ensures r.Ok? ==> IsUserOnline(r.value.id) && s in Members(rooms, r.value.id)
    {
      r := Handshake.Authenticate(token, verify, SubjectClaim, users);
      if r.Err? {
        return;
      }
      var user := r.value;
      ConnectConsistent(userSockets, socketUsers, sessions, rooms, s, user);
      userSockets := userSockets[user.id := s];
      socketUsers := socketUsers[s := user.id];
      sessions := sessions[s := user];
      rooms := Join(Join(rooms, s, s), user.id, s);
    }

    /** `joinChat`: subscribe, then tell the room's other sockets. */
    method JoinChat(s: SocketId, chatId: Room)
      requires Valid() && s in sessions
      modifies this`rooms, this`outbox
      ensures Valid()
      ensures rooms == Join(old(rooms), chatId, s)
      ensures outbox == old(outbox) + [Emission(Members(rooms, chatId) - {s},
                                                UserJoined(sessions[s].id, sessions[s].username))]
      ensures s !in outbox[|outbox| - 1].to
    {
      rooms := Join(rooms, chatId, s);
      outbox := outbox + [Emission(Members(rooms, chatId) - {s}, UserJoined(sessions[s].id, sessions[s].username))];
    }

    /** `leaveChat`: unsubscribe, then tell the room's remaining sockets. */
    method LeaveChat(s: SocketId, chatId: Room)
      requires Valid() && s in sessions
      modifies this`rooms, this`outbox
      ensures Valid()
      ensures rooms == Leave(old(rooms), chatId, s)
      ensures s !in Members(rooms, chatId)
      ensures outbox == old(outbox) + [Emission(Members(rooms, chatId) - {s},
                                                UserLeft(sessions[s].id, sessions[s].username))]
    {
      rooms := Leave(rooms, chatId, s);
      outbox := outbox + [Emission(Members(rooms, chatId) - {s}, UserLeft(sessions[s].id, sessions[s].username))];
    }

    /** `typing`: relayed to the room's other sockets; nothing is stored. */
    method Typing(s: SocketId, chatId: Room, isTyping: bool)
      requires Valid() && s in sessions
      modifies this`outbox
      ensures Valid()
      ensures outbox == old(outbox) + [Emission(Members(rooms, chatId) - {s},
                                                UserTyping(sessions[s].id, sessions[s].username, isTyping))]
      ensures s !in outbox[|outbox| - 1].to
    {
      outbox := outbox + [Emission(Members(rooms, chatId) - {s}, UserTyping(sessions[s].id, sessions[s].username, isTyping))];
    }

    /** `messageRead`: relayed to the room's other sockets; nothing is stored. */
    method RelayMessageRead(s: SocketId, chatId: Room, messageId: MessageId)
      requires Valid() && s in sessions
      modifies this`outbox
      ensures Valid()
      ensures outbox == old(outbox) + [Emission(Members(rooms, chatId) - {s},
                                                MessageRead(messageId, sessions[s].id, sessions[s].username))]
    {
      outbox := outbox + [Emission(Members(rooms, chatId) - {s}, MessageRead(messageId, sessions[s].id, sessions[s].username))];
    }

    /** `disconnect`: both entries go, whichever socket the user map points at;
        socket.io removes the socket from every room. */
    method Disconnect(s: SocketId)
      requires Valid() && s in sessions
      modifies this
      ensures Valid()
      ensures userSockets == old(userSockets) - {old(sessions)[s].id}
      ensures socketUsers == old(socketUsers) - {s}
      ensures sessions == old(sessions) - {s}
      ensures rooms == LeaveAll(old(rooms), s)
      ensures outbox == old(outbox)
      ensures !IsUserOnline(old(sessions)[s].id)
    {
      var u := sessions[s].id;
      userSockets := userSockets - {u};
      socketUsers := socketUsers - {s};
      sessions := sessions - {s};
      rooms := LeaveAll(rooms, s);
    }

    /** `emitMessage(chatId, message)`: to every socket of the room. */
    method EmitMessage(chatId: Room, message: string)
      modifies this`outbox
      ensures outbox == old(outbox) + [Emission(Members(rooms, chatId), NewMessage(message))]
    {
      outbox := outbox + [Emission(Members(rooms, chatId), NewMessage(message))];
    }

    /** `emitToUser(userId, event, data)`: to the user's latest socket, or nowhere. */
    method EmitToUser(userId: UserId, event: string, data: string)
      modifies this`outbox
      ensures !IsUserOnline(userId) ==> outbox == old(outbox)
      ensures IsUserOnline(userId) ==>
                outbox == old(outbox) + [Emission(Members(rooms, userSockets[userId]), Custom(event, data))]
    {
      if userId in userSockets {
        outbox := outbox + [Emission(Members(rooms, userSockets[userId]), Custom(event, data))];
      }
    }

    /** `emitToChat(chatId, event, data)`: to every socket of the room. */
    method EmitToChat(chatId: Room, event: string, data: string)
      modifies this`outbox
      ensures outbox == old(outbox) + [Emission(Members(rooms, chatId), Custom(event, data))]
    {
      outbox := outbox + [Emission(Members(rooms, chatId), Custom(event, data))];
    }
  }

  /** Two overlapping connections of one user, then the older one disconnects: the
      user map already points at the newer socket, but its entry is deleted anyway,
      so the user reads as offline while the newer socket is still live and still
      mapped in `socketUsers`. */
  method OverlappingSessions(u: User, s1: SocketId, s2: SocketId, token: string,
                             verify: string -> Option<Handshake.Claims>)
    returns (onlineAfterSecond: bool, onlineAfterFirstLeaves: bool, secondStillMapped: bool)
    requires s1 != s2 && token != ""
    requires verify(token) == Some(map[SubjectClaim := u.id])
    ensures onlineAfterSecond && !onlineAfterFirstLeaves && secondStillMapped
  {
    var service := new SocketService();
    var users := map[u.id := u];
    var r1 := service.Connect(s1, Some(token), verify, users);
    var r2 := service.Connect(s2, Some(token), verify, users);
    assert service.userSockets[u.id] == s2;
    onlineAfterSecond := service.IsUserOnline(u.id);
    service.Disconnect(s1);
    onlineAfterFirstLeaves := service.IsUserOnline(u.id);
    secondStillMapped := s2 in service.socketUsers && s2 in service.sessions;
  }
}
