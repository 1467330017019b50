/** The conversation document of models/Chat.js: its defaults, the instance method
    that records the latest message, and the three statics over the collection. */
module ChatModel {
  import opened Common
  import Query

  /** A stored chat. `createdAt` and `updatedAt` come from `timestamps`. */
  datatype Chat = Chat(
    id: ChatId,
    participants: seq<UserId>,
    isGroupChat: bool,
    groupName: Option<string>,
    groupAvatar: Option<string>,
    groupAdmin: Option<UserId>,
    lastMessage: Option<MessageId>,
    lastMessageTime: int,
    isActive: bool,
    createdAt: int,
    updatedAt: int)

  /** `Chat.create({...})` with the schema defaults filling what is not given. */
  function NewChat(id: ChatId, participants: seq<UserId>, isGroupChat: bool, groupName: Option<string>,
                   groupAdmin: Option<UserId>, now: int): (c: Chat)
    ensures c.id == id && c.participants == participants && c.isGroupChat == isGroupChat
    ensures c.groupName == groupName && c.groupAdmin == groupAdmin
    ensures c.groupAvatar == None && c.lastMessage == None && c.lastMessageTime == now
    ensures c.isActive && c.createdAt == now && c.updatedAt == now
  {
    Chat(id, participants, isGroupChat, groupName, None, groupAdmin, None, now, true, now, now)
  }

  /** A loaded chat document. */
  class ChatDoc {
    var id: ChatId
    var participants: seq<UserId>
    var isGroupChat: bool
    var groupName: Option<string>
    var groupAvatar: Option<string>
    var groupAdmin: Option<UserId>
    var lastMessage: Option<MessageId>
    var lastMessageTime: int
    var isActive: bool
    var createdAt: int
    var updatedAt: int

    function Lean(): Chat
      reads this
    {
      Chat(id, participants, isGroupChat, groupName, groupAvatar, groupAdmin, lastMessage, lastMessageTime,
           isActive, createdAt, updatedAt)
    }

    constructor (c: Chat)
      ensures Lean() == c
    {
      id, participants, isGroupChat := c.id, c.participants, c.isGroupChat;
      groupName, groupAvatar, groupAdmin := c.groupName, c.groupAvatar, c.groupAdmin;
      lastMessage, lastMessageTime, isActive := c.lastMessage, c.lastMessageTime, c.isActive;
      createdAt, updatedAt := c.createdAt, c.updatedAt;
    }

    /** `updateLastMessage(messageId)` at time `now`, then saved. */
    method UpdateLastMessage(messageId: MessageId, now: int)
      modifies this
      ensures Lean() == old(Lean()).(lastMessage := Some(messageId), lastMessageTime := now, updatedAt := now)
    {
      lastMessage := Some(messageId);
      lastMessageTime := now;
      updatedAt := now;
    }
  }

  /** The filter of `findOrCreateChat`: a one-to-one chat listing both users. */
  predicate Between(c: Chat, user1: UserId, user2: UserId) {
    !c.isGroupChat && user1 in c.participants && user2 in c.participants
  }

  /** `findOne`: the position of the first stored chat that matches. */
  function FindDirect(chats: seq<Chat>, user1: UserId, user2: UserId): (r: Option<nat>)
    ensures r.Some? ==> r.value < |chats| && Between(chats[r.value], user1, user2)
    ensures r.Some? ==> forall j :: 0 <= j < r.value ==> !Between(chats[j], user1, user2)
    ensures r.None? <==> forall j :: 0 <= j < |chats| ==> !Between(chats[j], user1, user2)
  {
    FirstIndex(chats, (c: Chat) => Between(c, user1, user2))
  }

  /** The chat `findOrCreateChat` returns and the collection afterwards. */
  function FindOrCreate(chats: seq<Chat>, user1: UserId, user2: UserId, id: ChatId, now: int): (r: (Chat, seq<Chat>))
    ensures FindDirect(chats, user1, user2).Some? ==>
              r.1 == chats && r.0 == chats[FindDirect(chats, user1, user2).value]
    ensures FindDirect(chats, user1, user2).None? ==>
              r.0 == NewChat(id, [user1, user2], false, None, None, now) && r.1 == chats + [r.0]
    ensures Between(r.0, user1, user2) && r.0 in r.1
  {
    match FindDirect(chats, user1, user2)
    case Some(k) => (chats[k], chats)
    case None =>
      var c := NewChat(id, [user1, user2], false, None, None, now);
      (c, chats + [c])
  }

  /** The chat collection. */
  class ChatStore {
    var chats: seq<Chat>

    constructor ()
      ensures chats == []
    {
      chats := [];
    }

    /** `Chat.findOrCreateChat(user1Id, user2Id)`; `id` is the identifier a new chat would get. */
    method FindOrCreateChat(user1: UserId, user2: UserId, id: ChatId, now: int) returns (c: Chat)
      modifies this
      ensures (c, chats) == FindOrCreate(old(chats), user1, user2, id, now)
    {
      var found := FindDirect(chats, user1, user2);
      if found.Some? {
        c := chats[found.value];
      } else {
        c := NewChat(id, [user1, user2], false, None, None, now);
        chats := chats + [c];
      }
    }

    /** `Chat.createGroupChat(participants, groupName, groupAdmin)`. */
    method CreateGroupChat(participants: seq<UserId>, groupName: Option<string>, groupAdmin: Option<UserId>,
                           id: ChatId, now: int) returns (c: Chat)
      modifies this
      ensures c == NewChat(id, participants, true, groupName, groupAdmin, now)
      ensures chats == old(chats) + [c]
    {
      c := NewChat(id, participants, true, groupName, groupAdmin, now);
      chats := chats + [c];
    }
  }

  /** Appending a chat cannot change which earlier chat `findOne` meets first. */
  lemma FindDirectAppend(chats: seq<Chat>, c: Chat, user1: UserId, user2: UserId)
    ensures FindDirect(chats, user1, user2).Some? ==>
              FindDirect(chats + [c], user1, user2) == FindDirect(chats, user1, user2)
    ensures FindDirect(chats, user1, user2).None? && Between(c, user1, user2) ==>
              FindDirect(chats + [c], user1, user2) == Some(|chats|)
  {
    FirstIndexAppend(chats, c, (x: Chat) => Between(x, user1, user2));
  }

  /** `findOrCreateChat` twice for the same pair returns the same chat and the second
      call leaves the collection alone, whatever identifier it would have used. */
  lemma FindOrCreateIdempotent(chats: seq<Chat>, user1: UserId, user2: UserId, id1: ChatId, id2: ChatId,
                               t1: int, t2: int)
    ensures var (c1, after1) := FindOrCreate(chats, user1, user2, id1, t1);
            FindOrCreate(after1, user1, user2, id2, t2) == (c1, after1)
  {
    var (c1, after1) := FindOrCreate(chats, user1, user2, id1, t1);
    FindDirectAppend(chats, c1, user1, user2);
  }

  /** `$all` ignores the order of the two users. */
  lemma FindDirectSymmetric(chats: seq<Chat>, user1: UserId, user2: UserId)
    ensures FindDirect(chats, user1, user2) == FindDirect(chats, user2, user1)
  {
    FirstIndexSame(chats, (c: Chat) => Between(c, user1, user2), chats, (c: Chat) => Between(c, user2, user1));
  }

  function LastMessageTime(c: Chat): int {
    c.lastMessageTime
  }

  const DefaultChatsLimit := 20

  /** The chats `getUserChats` may return: active ones listing the user. */
  predicate ListedFor(c: Chat, userId: UserId) {
    userId in c.participants && c.isActive
  }

  /** `Chat.getUserChats(userId, page, limit)`. */
  function GetUserChats(chats: seq<Chat>, userId: UserId, page: int, limit: int): (r: Result<seq<Chat>, string>)
    ensures r.Ok? <==> Query.Skip(page, limit) >= 0
    ensures r.Ok? ==> forall c :: c in r.value ==> c in chats && ListedFor(c, userId)
    ensures r.Ok? ==> Query.NewestFirstOrder(r.value, LastMessageTime)
    ensures r.Ok? && limit != 0 ==> |r.value| <= Query.Abs(limit)
    ensures page == 1 && (limit == 0 || |chats| <= Query.Abs(limit)) ==>
              r.Ok? && forall c :: c in chats && ListedFor(c, userId) ==> c in r.value
  {
    var listed := Query.Filter(chats, (c: Chat) => ListedFor(c, userId));
    var sorted := Query.NewestFirst(listed, LastMessageTime);
    Query.PageKeepsOrder(sorted, page, limit, LastMessageTime);
    Query.Page(sorted, page, limit)
  }
}
