/** The socket server of config/socket.js. It keeps no maps of its own: it records
    presence on the user documents, subscribes each socket to its user's room and to
    the room of every chat the user belongs to, and handles `send_message`,
    `mark_read` and `typing`. Its records follow this file's own shape: a message
    names its chat in `chat` and its kind in `type`, and a chat carries
    `settings.encryption` and an array of `{user, count}` unread entries. */
module SocketGateway {
  import opened Common
  import opened Rooms
  import Handshake
  import MessageModel

  /** The handshake of this server reads the `id` claim. */
  const SubjectClaim := "id"

  const NotAuthorized := "Not authorized to send messages in this chat"
  const MessageNotFound := "Message not found"
  const MarkReadFailed := "Error marking message as read"

  datatype UserDoc = UserDoc(id: UserId, username: string, isOnline: bool, lastSeen: int)

  /** One element of `chat.unreadCounts`. */
  datatype UnreadEntry = UnreadEntry(user: UserId, count: nat)

  datatype GatewayChat = GatewayChat(
    participants: seq<UserId>,
    lastMessage: Option<MessageId>,
    lastMessageTime: int,
    unreadCounts: seq<UnreadEntry>,
    encryption: bool)

  datatype GatewayMessage = GatewayMessage(
    id: MessageId,
    chat: ChatId,
    sender: UserId,
    content: string,
    kind: string,
    mediaUrl: Option<string>,
    readBy: seq<UserId>,
    status: MessageModel.Status)

  datatype Event =
    | NewMessage(message: GatewayMessage)
    | MessageRead(messageId: MessageId, readBy: UserId)
    | UserTyping(userId: UserId, isTyping: bool)
    | Error(text: string)

  // ---------------------------------------------------------------------------
  // The unread-count array

  /** `unreadCounts.find(c => c.user === u)`: the position of the first entry of `u`. */
  function FindEntry(entries: seq<UnreadEntry>, u: UserId): (r: Option<nat>)
    ensures r.Some? ==> r.value < |entries| && entries[r.value].user == u
    ensures r.Some? ==> forall j :: 0 <= j < r.value ==> entries[j].user != u
    ensures r.None? <==> forall j :: 0 <= j < |entries| ==> entries[j].user != u
  {
    FirstIndex(entries, (e: UnreadEntry) => e.user == u)
  }

  /** The count the array holds for `u`: that of its first entry, or 0 without one. */
  function CountFor(entries: seq<UnreadEntry>, u: UserId): nat {
    match FindEntry(entries, u)
    case Some(k) => entries[k].count
    case None => 0
  }

  /** The users the entries belong to, in order. */
  function Users(entries: seq<UnreadEntry>): (r: seq<UserId>)
    ensures |r| == |entries| && forall k :: 0 <= k < |r| ==> r[k] == entries[k].user
  {
    seq(|entries|, k requires 0 <= k < |entries| => entries[k].user)
  }

  /** One turn of the `forEach`: increment the entry of `p`, or push a new entry with count 1. */
  function Bump(entries: seq<UnreadEntry>, p: UserId): seq<UnreadEntry> {
    match FindEntry(entries, p)
    case Some(k) => entries[k := entries[k].(count := entries[k].count + 1)]
    case None => entries + [UnreadEntry(p, 1)]
  }

  /** The whole `forEach` over `participants`, skipping the sender. */
  function BumpAll(entries: seq<UnreadEntry>, participants: seq<UserId>, sender: UserId): seq<UnreadEntry> {
    if participants == [] then entries
    else
      var prev := BumpAll(entries, participants[..|participants| - 1], sender);
      var p := participants[|participants| - 1];
      if p == sender then prev else Bump(prev, p)
  }

  /** The `forEach` loop of `send_message`. */
  method BumpUnread(entries: seq<UnreadEntry>, participants: seq<UserId>, sender: UserId)
    returns (r: seq<UnreadEntry>)
    ensures r == BumpAll(entries, participants, sender)
  {
    r := entries;
    var i := 0;
    while i < |participants|
      invariant 0 <= i <= |participants|
      invariant r == BumpAll(entries, participants[..i], sender)
    {
      assert participants[..i + 1][..i] == participants[..i];
      if participants[i] != sender {
        r := Bump(r, participants[i]);
      }
      i := i + 1;
    }
    assert participants[..i] == participants;
  }

  /** The `mark_read` reset: the reader's first entry drops to 0; no entry is created. */
  function ResetUnread(entries: seq<UnreadEntry>, u: UserId): (r: seq<UnreadEntry>)
    ensures |r| == |entries| && Users(r) == Users(entries)
    ensures CountFor(r, u) == 0
    ensures FindEntry(entries, u).None? ==> r == entries
    ensures FindEntry(entries, u).Some? ==> forall k :: 0 <= k < |entries| && k != FindEntry(entries, u).value ==> r[k] == entries[k]
    ensures forall v :: v != u ==> CountFor(r, v) == CountFor(entries, v)
  {
    match FindEntry(entries, u)
    case None => entries
    case Some(k) =>
      var r := entries[k := entries[k].(count := 0)];
      SameUsersSameFind(entries, r, u);
      forall v | v != u ensures CountFor(r, v) == CountFor(entries, v) {
        SameUsersSameFind(entries, r, v);
      }
      r
  }

  /** Arrays listing the same users in the same order find the same entry. */
  lemma SameUsersSameFind(a: seq<UnreadEntry>, b: seq<UnreadEntry>, u: UserId)
    requires Users(a) == Users(b)
    ensures FindEntry(a, u) == FindEntry(b, u)
  {
    FirstIndexSame(a, (e: UnreadEntry) => e.user == u, b, (e: UnreadEntry) => e.user == u);
  }

  /** A push at the end is found only when no earlier entry matches. */
  lemma FindAfterPush(entries: seq<UnreadEntry>, x: UnreadEntry, u: UserId)
    ensures FindEntry(entries + [x], u) ==
              if FindEntry(entries, u).Some? then FindEntry(entries, u)
              else if x.user == u then Some(|entries|) else None
  {
    FirstIndexAppend(entries, x, (e: UnreadEntry) => e.user == u);
  }

  /** One increment adds one to the count of `p` and to nobody else's. */
  lemma BumpCount(entries: seq<UnreadEntry>, p: UserId, u: UserId)
    ensures CountFor(Bump(entries, p), u) == CountFor(entries, u) + (if u == p then 1 else 0)
  {
    var f := FindEntry(entries, u);
    match FindEntry(entries, p)
    case Some(k) =>
      var r := entries[k := entries[k].(count := entries[k].count + 1)];
      assert Bump(entries, p) == r;
      assert Users(r) == Users(entries);
      SameUsersSameFind(entries, r, u);
      if f.Some? {
        assert f.value == k <==> u == p;
        assert CountFor(r, u) == r[f.value].count;
        assert CountFor(entries, u) == entries[f.value].count;
      } else {
        assert u != p;
        assert CountFor(r, u) == 0 == CountFor(entries, u);
      }
    case None =>
      var x := UnreadEntry(p, 1);
      assert Bump(entries, p) == entries + [x];
      FindAfterPush(entries, x, u);
      if f.Some? {
        assert (entries + [x])[f.value] == entries[f.value];
        assert u != p;
      } else if u == p {
        assert (entries + [x])[|entries|] == x;
      }
  }

  /** One increment creates an entry for `p` only when `p` had none. */
  lemma BumpUsers(entries: seq<UnreadEntry>, p: UserId)
    ensures Users(Bump(entries, p)) == if p in Users(entries) then Users(entries) else Users(entries) + [p]
  {
    match FindEntry(entries, p)
    case Some(k) =>
      assert Users(entries)[k] == p;
    case None =>
      assert p !in Users(entries);
  }

  /** `send_message`'s counts: every participant but the sender gains one per listing
      in `participants` (an absent entry counting as 0); the sender's count stays. */
  lemma {:induction false} BumpAllCount(entries: seq<UnreadEntry>, participants: seq<UserId>, sender: UserId, u: UserId)
    ensures CountFor(BumpAll(entries, participants, sender), u) ==
              CountFor(entries, u) + (if u == sender then 0 else Occurrences(participants, u))
  {
    if participants != [] {
      var init := participants[..|participants| - 1];
      BumpAllCount(entries, init, sender, u);
      var p := participants[|participants| - 1];
      if p != sender {
        BumpCount(BumpAll(entries, init, sender), p, u);
      }
    }
  }

  /** `send_message` never gives a user a second entry: it pushes one entry for each
      participant other than the sender that had none, and nothing for anyone else. */
  lemma {:induction false} BumpAllEntries(entries: seq<UnreadEntry>, participants: seq<UserId>, sender: UserId, u: UserId)
    ensures Occurrences(Users(BumpAll(entries, participants, sender)), u) ==
              if u != sender && u in participants && u !in Users(entries) then 1
              else Occurrences(Users(entries), u)
  {
    if participants != [] {
      var init := participants[..|participants| - 1];
      var p := participants[|participants| - 1];
      assert participants == init + [p];
      BumpAllEntries(entries, init, sender, u);
      var prev := BumpAll(entries, init, sender);
      assert u in participants <==> u in init || u == p;
      if p != sender {
        BumpUsers(prev, p);
        if p !in Users(prev) {
          OccurrencesAppend(Users(prev), p, u);
        }
      }
    }
  }

  /** `send_message` keeps every existing entry in place, for the same user, and leaves
      the entries of the sender and of non-participants exactly as they were. */
  lemma {:induction false} BumpAllKeeps(entries: seq<UnreadEntry>, participants: seq<UserId>, sender: UserId)
    ensures var r := BumpAll(entries, participants, sender);
            |entries| <= |r| && forall k :: 0 <= k < |entries| ==> r[k].user == entries[k].user
    ensures var r := BumpAll(entries, participants, sender);
            forall k :: 0 <= k < |entries| && (entries[k].user == sender || entries[k].user !in participants) ==>
              r[k] == entries[k]
  {
    if participants != [] {
      var init := participants[..|participants| - 1];
      var p := participants[|participants| - 1];
      BumpAllKeeps(entries, init, sender);
      var prev := BumpAll(entries, init, sender);
      assert forall x :: x in init ==> x in participants;
      if p != sender {
        match FindEntry(prev, p)
        case Some(k) =>
        case None =>
          assert forall k :: 0 <= k < |prev| ==> Bump(prev, p)[k] == prev[k];
      }
    }
  }

  // ---------------------------------------------------------------------------
  // The server

  /** `Chat.find({ participants: u })`: the chats whose participants include `u`. */
  function ChatsOf(chats: map<ChatId, GatewayChat>, u: UserId): (r: set<ChatId>)
    ensures forall c :: c in r <==> c in chats && u in chats[c].participants
  {
    set c | c in chats && u in chats[c].participants
  }

  /** The gateway's tables agree: rooms are well formed, every user is stored
      under its own id, and every socket in a room has a session. */
  ghost predicate Consistent(users: map<UserId, UserDoc>, sessions: map<SocketId, UserId>, rooms: RoomTable) {
    && WellFormed(rooms)
    && (forall k :: k in users ==> users[k].id == k)
    && (forall r, s :: r in rooms && s in rooms[r] ==> s in sessions)
  }

  /** The tables after a connection stay consistent, and the new socket sits in
      the room of every chat of its user. */
  lemma ConnectConsistent(users: map<UserId, UserDoc>, sessions: map<SocketId, UserId>, rooms: RoomTable,
                          chats: map<ChatId, GatewayChat>, s: SocketId, u: UserDoc, now: int)
    requires Consistent(users, sessions, rooms)
    ensures var joined := JoinAll(Join(rooms, s, s), {u.id} + ChatsOf(chats, u.id), s);
            && Consistent(users[u.id := u.(isOnline := true, lastSeen := now)], sessions[s := u.id], joined)
            && forall c :: c in chats && u.id in chats[c].participants ==> s in Members(joined, c)
  {
    var first := Join(rooms, s, s);
    var joined := JoinAll(first, {u.id} + ChatsOf(chats, u.id), s);
    var users' := users[u.id := u.(isOnline := true, lastSeen := now)];
    var sessions' := sessions[s := u.id];
    assert WellFormed(first);
    assert WellFormed(joined);
    forall q, x | q in joined && x in joined[q] ensures x in sessions' {
      assert x == s || (q in first && x in first[q]);
      if x != s {
        assert q in rooms && x in rooms[q];
      }
    }
    forall c | c in chats && u.id in chats[c].participants ensures s in Members(joined, c) {
      assert c in ChatsOf(chats, u.id);
    }
  }

  class Gateway {
    var users: map<UserId, UserDoc>
    var chats: map<ChatId, GatewayChat>
    var messages: map<MessageId, GatewayMessage>
    /** `socket.user._id` of every live socket, fixed at its handshake. */
    var sessions: map<SocketId, UserId>
    var rooms: RoomTable
    var outbox: seq<Emission<Event>>

    ghost predicate Valid()
      reads this
    {
      Consistent(users, sessions, rooms)
    }

    constructor (users: map<UserId, UserDoc>, chats: map<ChatId, GatewayChat>, messages: map<MessageId, GatewayMessage>)
      requires forall k :: k in users ==> users[k].id == k
      ensures Valid()
      ensures this.users == users && this.chats == chats && this.messages == messages
      ensures sessions == map[] && rooms == map[] && outbox == []
    {
      this.users, this.chats, this.messages := users, chats, messages;
      sessions, rooms, outbox := map[], map[], [];
    }

    /** The handshake, then the `connection` handler: the user is marked online, and
        the socket joins its own room, its user's room and every room of its chats. */
    method Connect(s: SocketId, token: Option<string>, verify: string -> Option<Handshake.Claims>, now: int)
      returns (r: Result<UserDoc, string>)
      requires Valid()
      requires s !in sessions  // socket.io gives every connection a fresh id
      modifies this`users, this`sessions, this`rooms
      ensures Valid()
      ensures r == Handshake.Authenticate(token, verify, SubjectClaim, old(users))
      ensures r.Err? ==> users == old(users) && sessions == old(sessions) && rooms == old(rooms)
      ensures r.Ok? ==> && users == old(users)[r.value.id := r.value.(isOnline := true, lastSeen := now)]
                        && sessions == old(sessions)[s := r.value.id]
                        && rooms == JoinAll(Join(old(rooms), s, s), {r.value.id} + ChatsOf(old(chats), r.value.id), s)
      ensures r.Ok? ==> forall c :: c in old(chats) && r.value.id in old(chats)[c].participants ==> s in Members(rooms, c)
    {
      r := Handshake.Authenticate(token, verify, SubjectClaim, users);
      if r.Err? {
        return;
      }
      var u := r.value;
      var joined := JoinAll(Join(rooms, s, s), {u.id} + ChatsOf(chats, u.id), s);
      ConnectConsistent(users, sessions, rooms, chats, s, u, now);
      users := users[u.id := u.(isOnline := true, lastSeen := now)];
      sessions := sessions[s := u.id];
      rooms := joined;
    }

    /** A socket whose user is a participant of the chat. */
    predicate Authorized(s: SocketId, chatId: ChatId)
      reads this
    {
      s in sessions && chatId in chats && sessions[s] in chats[chatId].participants
    }

    /** `send_message`. A sender outside the chat gets an error and nothing is stored.
        Otherwise the message is stored (its content encrypted when the chat asks for
        it), becomes the chat's last message, goes to every socket of the chat's room,
        and raises the unread count of every other participant. `id` is the new
        message's identifier. */
    method SendMessage(s: SocketId, chatId: ChatId, content: string, kind: Option<string>, mediaUrl: Option<string>,
                       id: MessageId, now: int, encrypt: string -> string)
      requires Valid() && s in sessions
      requires id !in messages
      modifies this`chats, this`messages, this`outbox
      ensures Valid()
      ensures !old(Authorized(s, chatId)) ==>
                chats == old(chats) && messages == old(messages)
                && outbox == old(outbox) + [Emission({s}, Error(NotAuthorized))]
      ensures old(Authorized(s, chatId)) ==>
                var chat := old(chats)[chatId];
                var m := GatewayMessage(id, chatId, sessions[s], if chat.encryption then encrypt(content) else content,
                                        kind.GetOr("text"), mediaUrl, [], MessageModel.Sent);
                && messages == old(messages)[id := m]
                && chats == old(chats)[chatId := chat.(lastMessage := Some(id), lastMessageTime := now,
                                                     unreadCounts := BumpAll(chat.unreadCounts, chat.participants, sessions[s]))]
                && outbox == old(outbox) + [Emission(Members(rooms, chatId), NewMessage(m))]
    {
      if !Authorized(s, chatId) {
        outbox := outbox + [Emission({s}, Error(NotAuthorized))];
        return;
      }
      var chat := chats[chatId];
      var sender := sessions[s];
      var body := if chat.encryption then encrypt(content) else content;
      var m := GatewayMessage(id, chatId, sender, body, kind.GetOr("text"), mediaUrl, [], MessageModel.Sent);
      messages := messages[id := m];
      chat := chat.(lastMessage := Some(id), lastMessageTime := now);
      chats := chats[chatId := chat];
      outbox := outbox + [Emission(Members(rooms, chatId), NewMessage(m))];
      var counts := BumpUnread(chat.unreadCounts, chat.participants, sender);
      chats := chats[chatId := chat.(unreadCounts := counts)];
    }

    /** `mark_read`. A message that is unknown or belongs to another chat gets an error
        and nothing changes. Otherwise the reader is added to the message, the reader's
        unread entry (if any) is reset, and the read goes to every socket of the room.
        The handler does not check that the reader is a participant. */
    method MarkRead(s: SocketId, chatId: ChatId, messageId: MessageId)
      requires Valid() && s in sessions
      modifies this`chats, this`messages, this`outbox
      ensures Valid()
      ensures messageId !in old(messages) || old(messages)[messageId].chat != chatId ==>
                chats == old(chats) && messages == old(messages)
                && outbox == old(outbox) + [Emission({s}, Error(MessageNotFound))]
      ensures messageId in old(messages) && old(messages)[messageId].chat == chatId ==>
                var m := old(messages)[messageId];
                var u := sessions[s];
                && messages == old(messages)[messageId := if u in m.readBy then m
                                                          else m.(readBy := m.readBy + [u], status := MessageModel.Read)]
                && (chatId !in old(chats) ==>
                      chats == old(chats) && outbox == old(outbox) + [Emission({s}, Error(MarkReadFailed))])
                && (chatId in old(chats) ==>
                      chats == old(chats)[chatId := old(chats)[chatId].(unreadCounts := ResetUnread(old(chats)[chatId].unreadCounts, u))]
                      && outbox == old(outbox) + [Emission(Members(rooms, chatId), MessageRead(messageId, u))])
    {
      if messageId !in messages || messages[messageId].chat != chatId {
        outbox := outbox + [Emission({s}, Error(MessageNotFound))];
        return;
      }
      var m := messages[messageId];
      var u := sessions[s];
      if u !in m.readBy {
        messages := messages[messageId := m.(readBy := MessageModel.AddReader(m.readBy, u), status := MessageModel.Read)];
      }
      if chatId !in chats {
        // `chat.unreadCounts` of a null chat throws; the catch reports it
        outbox := outbox + [Emission({s}, Error(MarkReadFailed))];
        return;
      }
      var chat := chats[chatId];
      chats := chats[chatId := chat.(unreadCounts := ResetUnread(chat.unreadCounts, u))];
      outbox := outbox + [Emission(Members(rooms, chatId), MessageRead(messageId, u))];
    }

    /** `typing`: relayed to the room's other sockets; nothing is stored. */
    method Typing(s: SocketId, chatId: ChatId, isTyping: bool)
      requires Valid() && s in sessions
      modifies this`outbox
      ensures Valid()
      ensures outbox == old(outbox) + [Emission(Members(rooms, chatId) - {s}, UserTyping(sessions[s], isTyping))]
      ensures s !in outbox[|outbox| - 1].to
    {
      outbox := outbox + [Emission(Members(rooms, chatId) - {s}, UserTyping(sessions[s], isTyping))];
    }

    /** `disconnect`: the user is marked offline; socket.io removes the socket from every room. */
    method Disconnect(s: SocketId, now: int)
      requires Valid() && s in sessions
      modifies this`users, this`sessions, this`rooms
      ensures Valid()
      ensures old(sessions)[s] in old(users) ==>
                users == old(users)[old(sessions)[s] := old(users)[old(sessions)[s]].(isOnline := false, lastSeen := now)]
      ensures old(sessions)[s] !in old(users) ==> users == old(users)
      ensures sessions == old(sessions) - {s}
      ensures rooms == LeaveAll(old(rooms), s)
    {
      var u := sessions[s];
      if u in users {
        users := users[u := users[u].(isOnline := false, lastSeen := now)];
      }
      sessions := sessions - {s};
      rooms := LeaveAll(rooms, s);
    }
  }
}
