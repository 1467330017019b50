/** The REST handlers of controllers/chatController.js. Each handler checks the
    caller against the chat first and answers with an HTTP status and a body. The
    chats follow this file's own shape: a chat has `isGroup`, a Map of unread counts
    keyed by user id, and an embedded `messages` array whose entries carry `readBy`.
    Messages are created through `Message.create` of the message model. Events the
    handlers pass to the socket service (`emitMessage`, `emitToChat`) are recorded
    as broadcasts to a chat room. */
module ChatController {
  import opened Common
  import MessageModel

  const AccessDenied := "Access denied"
  const ChatNotFound := "Chat not found"
  const ParticipantsNotFound := "One or more participants not found"
  const MessageNotFound := "Message not found"
  const FetchMessagesFailed := "Error fetching messages"
  const SendFailed := "Error sending message"
  const AiReplyFailed := "Error getting AI reply"
  const MarkedAsRead := "Messages marked as read"
  /** The fixed reply of `getAiReply` until an AI service is wired in. */
  const MockAiReply := "This is a mock AI response. AI integration will be implemented later."

  /** `req.user`. */
  datatype Caller = Caller(id: UserId, username: string)

  /** An element of the embedded `chat.messages` array. */
  datatype EmbeddedMessage = EmbeddedMessage(id: MessageId, readBy: seq<UserId>)

  datatype ApiChat = ApiChat(
    participants: seq<UserId>,
    isGroup: bool,
    groupName: Option<string>,
    groupAvatar: Option<string>,
    groupAdmin: Option<UserId>,
    lastMessage: Option<MessageId>,
    lastMessageTime: int,
    unreadCounts: map<UserId, nat>,
    messages: seq<EmbeddedMessage>)

  datatype Body =
    | Note(message: string)
    | ChatBody(chatId: ChatId, chat: ApiChat)
    | MessageBody(sent: MessageModel.Message)
    | MessagesBody(list: seq<MessageModel.Message>)

  datatype Reply = Reply(status: nat, body: Body)

  datatype ApiEvent =
    | NewMessage(message: MessageModel.Message)
    | MessagesRead(chatId: ChatId, userId: UserId, username: string)

  datatype Broadcast = Broadcast(room: ChatId, event: ApiEvent)

  // ---------------------------------------------------------------------------
  // The unread-count Map

  /** `unreadCounts.get(u) || 0`. */
  function CountOf(counts: map<UserId, nat>, u: UserId): nat {
    if u in counts then counts[u] else 0
  }

  /** The `forEach` of `sendMessage`, one participant at a time. */
  function Increments(counts: map<UserId, nat>, participants: seq<UserId>, sender: UserId): map<UserId, nat> {
    if participants == [] then counts
    else
      var prev := Increments(counts, participants[..|participants| - 1], sender);
      var p := participants[|participants| - 1];
      if p == sender then prev else prev[p := CountOf(prev, p) + 1]
  }

  /** The `forEach` loop of `sendMessage`. */
  method IncrementUnread(counts: map<UserId, nat>, participants: seq<UserId>, sender: UserId)
    returns (r: map<UserId, nat>)
    ensures r == Increments(counts, participants, sender)
  {
    r := counts;
    var i := 0;
    while i < |participants|
      invariant 0 <= i <= |participants|
      invariant r == Increments(counts, participants[..i], sender)
    {
      assert participants[..i + 1][..i] == participants[..i];
      var p := participants[i];
      if p != sender {
        var current := if p in r then r[p] else 0;
        r := r[p := current + 1];
      }
      i := i + 1;
    }
    assert participants[..i] == participants;
  }

  /** Every participant other than the sender gains one per listing, an absent count
      starting from 0; the sender's count and everybody else's stay as they were. */
  lemma {:induction false} IncrementsCount(counts: map<UserId, nat>, participants: seq<UserId>, sender: UserId, u: UserId)
    ensures CountOf(Increments(counts, participants, sender), u) ==
              CountOf(counts, u) + (if u == sender then 0 else Occurrences(participants, u))
  {
    if participants != [] {
      IncrementsCount(counts, participants[..|participants| - 1], sender, u);
    }
  }

  /** A count is created for exactly the participants other than the sender. */
  lemma {:induction false} IncrementsKeys(counts: map<UserId, nat>, participants: seq<UserId>, sender: UserId)
    ensures Increments(counts, participants, sender).Keys ==
              counts.Keys + (set p | p in participants && p != sender)
  {
    if participants != [] {
      var init := participants[..|participants| - 1];
      IncrementsKeys(counts, init, sender);
      assert participants == init + [participants[|participants| - 1]];
    }
  }

  // ---------------------------------------------------------------------------
  // Read receipts on the embedded messages

  /** Every embedded message lists `u` as a reader: `u` is appended to the readers
      that lack it, the earlier readers stay in place, and no other field changes. */
  function ReadAll(messages: seq<EmbeddedMessage>, u: UserId): (r: seq<EmbeddedMessage>)
    ensures |r| == |messages|
    ensures forall i :: 0 <= i < |r| ==> r[i] == messages[i].(readBy := r[i].readBy) && u in r[i].readBy
    ensures forall i :: 0 <= i < |r| ==>
              && |messages[i].readBy| <= |r[i].readBy| <= |messages[i].readBy| + 1
              && r[i].readBy[..|messages[i].readBy|] == messages[i].readBy
    ensures forall i :: 0 <= i < |r| ==> (r[i].readBy == messages[i].readBy <==> u in messages[i].readBy)
  {
    seq(|messages|, i requires 0 <= i < |messages| => messages[i].(readBy := MessageModel.AddReader(messages[i].readBy, u)))
  }

  /** The `forEach` loop of `markAsRead`. */
  method MarkAllRead(messages: seq<EmbeddedMessage>, u: UserId) returns (r: seq<EmbeddedMessage>)
    ensures r == ReadAll(messages, u)
  {
    r := [];
    var i := 0;
    while i < |messages|
      invariant 0 <= i <= |messages|
      invariant r == ReadAll(messages[..i], u)
    {
      var m := messages[i];
      if u !in m.readBy {
        m := m.(readBy := m.readBy + [u]);
      }
      r := r + [m];
      i := i + 1;
    }
    assert messages[..i] == messages;
  }

  /** Marking a chat read twice is marking it once, and no reader is listed twice. */
  lemma ReadAllIdempotent(messages: seq<EmbeddedMessage>, u: UserId)
    ensures ReadAll(ReadAll(messages, u), u) == ReadAll(messages, u)
    ensures (forall i :: 0 <= i < |messages| ==> NoDup(messages[i].readBy)) ==>
              forall i :: 0 <= i < |messages| ==> NoDup(ReadAll(messages, u)[i].readBy)
  {
  }

  // ---------------------------------------------------------------------------
  // The participant check of `createChat`

  /** The number of documents `User.find({ _id: { $in: participants } })` returns. */
  function FoundCount(users: set<UserId>, participants: seq<UserId>): nat {
    |set p | p in participants && p in users|
  }

  /** The count check passes exactly when every participant exists and none is listed
      twice (the caller naming itself among `participantIds` fails it). */
  lemma FoundAllIff(users: set<UserId>, participants: seq<UserId>)
    ensures FoundCount(users, participants) == |participants| <==>
              NoDup(participants) && forall p :: p in participants ==> p in users
  {
    var found := set p | p in participants && p in users;
    var listed := set p | p in participants;
    DistinctCount(participants);
    assert found <= listed;
    if |found| == |participants| {
      assert |listed - found| == |listed| - |found| == 0;
      assert listed == found;
      assert NoDup(participants);
      forall p | p in participants ensures p in users {
        assert p in listed;
      }
    }
    if NoDup(participants) && forall p :: p in participants ==> p in users {
      assert found == listed;
    }
  }

  /** A non-group chat that contains every one of `participants` (`$all`). */
  predicate DirectWithAll(c: ApiChat, participants: seq<UserId>) {
    !c.isGroup && forall p :: p in participants ==> p in c.participants
  }

  // ---------------------------------------------------------------------------
  // The handlers

  class ChatApi {
    var users: set<UserId>
    var chats: map<ChatId, ApiChat>
    var messages: seq<MessageModel.Message>
    var broadcasts: seq<Broadcast>

    constructor (users: set<UserId>, chats: map<ChatId, ApiChat>, messages: seq<MessageModel.Message>)
      ensures this.users == users && this.chats == chats && this.messages == messages && broadcasts == []
    {
      this.users, this.chats, this.messages, broadcasts := users, chats, messages, [];
    }

    /** `Chat.findOne({ _id: chatId, participants: caller })`. */
    predicate Member(caller: Caller, chatId: ChatId)
      reads this
    {
      chatId in chats && caller.id in chats[chatId].participants
    }

    /** `getChatMessages`. */
    method GetChatMessages(caller: Caller, chatId: ChatId, page: int, limit: int) returns (r: Reply)
      ensures !Member(caller, chatId) ==> r == Reply(403, Note(AccessDenied))
      ensures Member(caller, chatId) ==>
                match MessageModel.GetMessages(messages, chatId, page, limit)
                case Ok(list) => r == Reply(200, MessagesBody(list))
                case Err(_) => r == Reply(500, Note(FetchMessagesFailed))
    {
      if !Member(caller, chatId) {
        return Reply(403, Note(AccessDenied));
      }
      var list := MessageModel.GetMessages(messages, chatId, page, limit);
      r := if list.Ok? then Reply(200, MessagesBody(list.value)) else Reply(500, Note(FetchMessagesFailed));
    }

    /** `getChat`. */
    method GetChat(caller: Caller, chatId: ChatId) returns (r: Reply)
      ensures chatId !in chats ==> r == Reply(404, Note(ChatNotFound))
      ensures chatId in chats && !Member(caller, chatId) ==> r == Reply(403, Note(AccessDenied))
      ensures Member(caller, chatId) ==> r == Reply(200, ChatBody(chatId, chats[chatId]))
    {
      if chatId !in chats {
        return Reply(404, Note(ChatNotFound));
      }
      if caller.id !in chats[chatId].participants {
        return Reply(403, Note(AccessDenied));
      }
      r := Reply(200, ChatBody(chatId, chats[chatId]));
    }

    /** `createChat`. The caller is put first among the participants. A one-to-one
        request answers with an existing chat that already holds them all, if there is
        one. `id` is the identifier a new chat gets. */
    method CreateChat(caller: Caller, participantIds: seq<UserId>, isGroup: bool, groupName: Option<string>,
                      groupAvatar: Option<string>, id: ChatId, now: int) returns (r: Reply)
      requires id !in chats
      modifies this`chats
      ensures var ps := [caller.id] + participantIds;
              FoundCount(users, ps) != |ps| ==> r == Reply(404, Note(ParticipantsNotFound)) && chats == old(chats)
      ensures var ps := [caller.id] + participantIds;
              FoundCount(users, ps) == |ps| && !isGroup && (exists k :: k in old(chats) && DirectWithAll(old(chats)[k], ps)) ==>
                chats == old(chats) && r.status == 200 && r.body.ChatBody?
                && r.body.chatId in chats && r.body.chat == chats[r.body.chatId] && DirectWithAll(r.body.chat, ps)
      ensures var ps := [caller.id] + participantIds;
              FoundCount(users, ps) == |ps| && (isGroup || forall k :: k in old(chats) ==> !DirectWithAll(old(chats)[k], ps)) ==>
                var c := ApiChat(ps, isGroup, groupName, groupAvatar, if isGroup then Some(caller.id) else None,
                                 None, now, map[], []);
                chats == old(chats)[id := c] && r == Reply(201, ChatBody(id, c))
    {
      var ps := [caller.id] + participantIds;
      if FoundCount(users, ps) != |ps| {
        return Reply(404, Note(ParticipantsNotFound));
      }
      if !isGroup && exists k :: k in chats && DirectWithAll(chats[k], ps) {
        var k :| k in chats && DirectWithAll(chats[k], ps);
        return Reply(200, ChatBody(k, chats[k]));
      }
      var c := ApiChat(ps, isGroup, groupName, groupAvatar, if isGroup then Some(caller.id) else None, None, now, map[], []);
      chats := chats[id := c];
      r := Reply(201, ChatBody(id, c));
    }

    /** `sendMessage`. The content is encrypted, the message is created (a validation
        failure ends in the catch, with nothing stored), becomes the chat's last
        message, goes to the chat's room, and every other participant's unread count
        rises by one. `id` is the new message's identifier. */
    method SendMessage(caller: Caller, chatId: ChatId, content: string, messageType: Option<string>,
                       fileUrl: Option<string>, fileName: Option<string>, fileSize: Option<int>, fileType: Option<string>,
                       id: MessageId, now: int, encrypt: string -> string) returns (r: Reply)
      modifies this`chats, this`messages, this`broadcasts
      ensures !old(Member(caller, chatId)) ==>
                r == Reply(403, Note(AccessDenied)) && chats == old(chats) && messages == old(messages)
                && broadcasts == old(broadcasts)
      ensures old(Member(caller, chatId)) ==>
                var d := MessageModel.Draft(chatId, Some(caller.id), encrypt(content), Some(messageType.GetOr("text")),
                                            fileUrl, fileName, fileSize, fileType, None);
                match MessageModel.Create(id, d, now)
                case Err(_) =>
                  r == Reply(500, Note(SendFailed)) && chats == old(chats) && messages == old(messages)
                  && broadcasts == old(broadcasts)
                case Ok(m) =>
                  var chat := old(chats)[chatId];
                  && messages == old(messages) + [m]
                  && chats == old(chats)[chatId := chat.(lastMessage := Some(id), lastMessageTime := now,
                                                       unreadCounts := Increments(chat.unreadCounts, chat.participants, caller.id))]
                  && broadcasts == old(broadcasts) + [Broadcast(chatId, NewMessage(m))]
                  && r == Reply(201, MessageBody(m))
    {
      if !Member(caller, chatId) {
        return Reply(403, Note(AccessDenied));
      }
      var chat := chats[chatId];
      var d := MessageModel.Draft(chatId, Some(caller.id), encrypt(content), Some(messageType.GetOr("text")),
                                  fileUrl, fileName, fileSize, fileType, None);
      var created := MessageModel.Create(id, d, now);
      if created.Err? {
        return Reply(500, Note(SendFailed));
      }
      var m := created.value;
      messages := messages + [m];
      chat := chat.(lastMessage := Some(id), lastMessageTime := now);
      broadcasts := broadcasts + [Broadcast(chatId, NewMessage(m))];
      var counts := IncrementUnread(chat.unreadCounts, chat.participants, caller.id);
      chats := chats[chatId := chat.(unreadCounts := counts)];
      r := Reply(201, MessageBody(m));
    }

    /** `Message.findById(messageId)`: a stored message with that id, in any chat. */
    predicate Stored(messageId: MessageId)
      reads this
    {
      exists i :: 0 <= i < |messages| && messages[i].id == messageId
    }

    /** `getAiReply`. After the checks a fixed reply is created as a message from the
        configured AI user (`aiUser`, the `AI_USER_ID` setting), answering `messageId`.
        Without that setting the message fails validation and the catch answers. */
    method GetAiReply(caller: Caller, chatId: ChatId, messageId: MessageId, aiUser: Option<UserId>,
                      id: MessageId, now: int, encrypt: string -> string) returns (r: Reply)
      modifies this`chats, this`messages, this`broadcasts
      ensures !old(Member(caller, chatId)) || !old(Stored(messageId)) ==>
                chats == old(chats) && messages == old(messages) && broadcasts == old(broadcasts)
      ensures !old(Member(caller, chatId)) ==> r == Reply(403, Note(AccessDenied))
      ensures old(Member(caller, chatId)) && !old(Stored(messageId)) ==> r == Reply(404, Note(MessageNotFound))
      ensures old(Member(caller, chatId)) && old(Stored(messageId)) ==>
                var d := MessageModel.Draft(chatId, aiUser, encrypt(MockAiReply), Some("text"),
                                            None, None, None, None, Some(messageId));
                match MessageModel.Create(id, d, now)
                case Err(_) =>
                  r == Reply(500, Note(AiReplyFailed)) && chats == old(chats) && messages == old(messages)
                  && broadcasts == old(broadcasts)
                case Ok(m) =>
                  && m.replyTo == Some(messageId) && m.conversationId == chatId
                  && messages == old(messages) + [m]
                  && chats == old(chats)[chatId := old(chats)[chatId].(lastMessage := Some(id), lastMessageTime := now)]
                  && broadcasts == old(broadcasts) + [Broadcast(chatId, NewMessage(m))]
                  && r == Reply(201, MessageBody(m))
    {
      if !Member(caller, chatId) {
        return Reply(403, Note(AccessDenied));
      }
      if !Stored(messageId) {
        return Reply(404, Note(MessageNotFound));
      }
      var d := MessageModel.Draft(chatId, aiUser, encrypt(MockAiReply), Some("text"), None, None, None, None, Some(messageId));
      var created := MessageModel.Create(id, d, now);
      if created.Err? {
        return Reply(500, Note(AiReplyFailed));
      }
      var m := created.value;
      messages := messages + [m];
      chats := chats[chatId := chats[chatId].(lastMessage := Some(id), lastMessageTime := now)];
      broadcasts := broadcasts + [Broadcast(chatId, NewMessage(m))];
      r := Reply(201, MessageBody(m));
    }

    /** `searchMessages`; `matches` stands for the case-insensitive regex test. */
    method SearchMessages(caller: Caller, chatId: ChatId, query: string, matches: (string, string) -> bool)
      returns (r: Reply)
      ensures !Member(caller, chatId) ==> r == Reply(403, Note(AccessDenied))
      ensures Member(caller, chatId) ==>
                r == Reply(200, MessagesBody(MessageModel.SearchMessages(messages, chatId, query, matches)))
    {
      if !Member(caller, chatId) {
        return Reply(403, Note(AccessDenied));
      }
      r := Reply(200, MessagesBody(MessageModel.SearchMessages(messages, chatId, query, matches)));
    }

    /** `markAsRead`: every embedded message gains the caller as a reader, the caller's
        unread count is set to 0 (created if absent), and the room hears of it. The
        handler does not check that the caller is a participant. */
    method MarkAsRead(caller: Caller, chatId: ChatId) returns (r: Reply)
      modifies this`chats, this`broadcasts
      ensures chatId !in old(chats) ==>
                r == Reply(404, Note(ChatNotFound)) && chats == old(chats) && broadcasts == old(broadcasts)
      ensures chatId in old(chats) ==>
                var chat := old(chats)[chatId];
                && chats == old(chats)[chatId := chat.(messages := ReadAll(chat.messages, caller.id),
                                                     unreadCounts := chat.unreadCounts[caller.id := 0])]
                && broadcasts == old(broadcasts) + [Broadcast(chatId, MessagesRead(chatId, caller.id, caller.username))]
                && r == Reply(200, Note(MarkedAsRead))
    {
      if chatId !in chats {
        return Reply(404, Note(ChatNotFound));
      }
      var chat := chats[chatId];
      var read := MarkAllRead(chat.messages, caller.id);
      chats := chats[chatId := chat.(messages := read, unreadCounts := chat.unreadCounts[caller.id := 0])];
      broadcasts := broadcasts + [Broadcast(chatId, MessagesRead(chatId, caller.id, caller.username))];
      r := Reply(200, Note(MarkedAsRead));
    }
  }
}
