/** The message document of models/Message.js: its schema (required fields, the two
    enums and the defaults), the three instance methods that change a loaded
    document in place, and the two read-only queries over the collection. */
module MessageModel {
  import opened Common
  import Query

  datatype MessageType = Text | Image | File | Audio | Video
  datatype Status = Sent | Delivered | Read

  function MessageTypeName(t: MessageType): string {
    match t
    case Text => "text"
    case Image => "image"
    case File => "file"
    case Audio => "audio"
    case Video => "video"
  }

  /** The `messageType` enum validator. */
  function ParseMessageType(s: string): (r: Option<MessageType>)
    ensures r.Some? ==> MessageTypeName(r.value) == s
    ensures r.None? <==> forall t :: MessageTypeName(t) != s
  {
    if s == "text" then Some(Text)
    else if s == "image" then Some(Image)
    else if s == "file" then Some(File)
    else if s == "audio" then Some(Audio)
    else if s == "video" then Some(Video)
    else None
  }

  /** A stored message, as `.lean()` returns it. `createdAt` comes from `timestamps`. */
  datatype Message = Message(
    id: MessageId,
    conversationId: ChatId,
    sender: UserId,
    content: string,
    messageType: MessageType,
    fileUrl: Option<string>,
    fileName: Option<string>,
    fileSize: Option<int>,
    fileType: Option<string>,
    status: Status,
    readBy: seq<UserId>,
    replyTo: Option<MessageId>,
    isEdited: bool,
    editedAt: Option<int>,
    isDeleted: bool,
    deletedAt: Option<int>,
    deletedBy: Option<UserId>,
    createdAt: int,
    updatedAt: int)

  /** The fields a caller passes to `Message.create`; absent ones are `None`. */
  datatype Draft = Draft(
    conversationId: ChatId,
    sender: Option<UserId>,
    content: string,
    messageType: Option<string>,
    fileUrl: Option<string>,
    fileName: Option<string>,
    fileSize: Option<int>,
    fileType: Option<string>,
    replyTo: Option<MessageId>)

  const ValidationFailed := "Message validation failed"

  /** `Message.create(draft)`: schema validation, then the defaults. A required
      string rejects the empty string; a required id rejects a missing one. */
  function Create(id: MessageId, d: Draft, now: int): (r: Result<Message, string>)
    ensures r.Ok? <==> d.sender.Some? && d.content != ""
                       && (d.messageType.None? || ParseMessageType(d.messageType.value).Some?)
    ensures r.Err? ==> r.error == ValidationFailed
    ensures r.Ok? ==> var m := r.value;
      && m.id == id && m.conversationId == d.conversationId && m.sender == d.sender.value
      && m.content == d.content && MessageTypeName(m.messageType) == d.messageType.GetOr("text")
      && m.fileUrl == d.fileUrl && m.fileName == d.fileName && m.fileSize == d.fileSize
      && m.fileType == d.fileType && m.replyTo == d.replyTo && m.createdAt == now && m.updatedAt == now
      && m.status == Sent && m.readBy == [] && !m.isEdited && m.editedAt == None
      && !m.isDeleted && m.deletedAt == None && m.deletedBy == None
  {
    var kind := if d.messageType.None? then Some(Text) else ParseMessageType(d.messageType.value);
    if d.sender.None? || d.content == "" || kind.None? then Err(ValidationFailed)
    else Ok(Message(id, d.conversationId, d.sender.value, d.content, kind.value,
                    d.fileUrl, d.fileName, d.fileSize, d.fileType, Sent, [], d.replyTo,
                    false, None, false, None, None, now, now))
  }

  /** `if (!readBy.includes(u)) readBy.push(u)`: the reader list only grows, keeps
      its order, and holds each reader once. */
  function AddReader(readBy: seq<UserId>, u: UserId): (r: seq<UserId>)
    ensures forall v :: v in r <==> v in readBy || v == u
    ensures |readBy| <= |r| <= |readBy| + 1 && r[..|readBy|] == readBy
    ensures r == readBy <==> u in readBy
    ensures u !in readBy ==> r[|readBy|] == u
    ensures NoDup(readBy) ==> NoDup(r)
  {
    if u in readBy then readBy else readBy + [u]
  }

  /** A loaded message document. */
  class MessageDoc {
    var id: MessageId
    var conversationId: ChatId
    var sender: UserId
    var content: string
    var messageType: MessageType
    var fileUrl: Option<string>
    var fileName: Option<string>
    var fileSize: Option<int>
    var fileType: Option<string>
    var status: Status
    var readBy: seq<UserId>
    var replyTo: Option<MessageId>
    var isEdited: bool
    var editedAt: Option<int>
    var isDeleted: bool
    var deletedAt: Option<int>
    var deletedBy: Option<UserId>
    var createdAt: int
    var updatedAt: int

    /** The document's fields as a plain record. */
    function Lean(): Message
      reads this
    {
      Message(id, conversationId, sender, content, messageType, fileUrl, fileName, fileSize, fileType,
              status, readBy, replyTo, isEdited, editedAt, isDeleted, deletedAt, deletedBy, createdAt, updatedAt)
    }

    /** Hydrates a document from a stored record. */
    constructor (m: Message)
      ensures Lean() == m
    {
      id, conversationId, sender, content := m.id, m.conversationId, m.sender, m.content;
      messageType, fileUrl, fileName, fileSize, fileType := m.messageType, m.fileUrl, m.fileName, m.fileSize, m.fileType;
      status, readBy, replyTo := m.status, m.readBy, m.replyTo;
      isEdited, editedAt, isDeleted, deletedAt, deletedBy := m.isEdited, m.editedAt, m.isDeleted, m.deletedAt, m.deletedBy;
      createdAt, updatedAt := m.createdAt, m.updatedAt;
    }

    /** `markAsRead(userId)` at time `now`: a new reader is appended, the status
        becomes read and the document is saved; a reader already listed leaves the
        document as it was, unsaved. */
    method MarkAsRead(userId: UserId, now: int)
      modifies this
      ensures userId in old(readBy) ==> Lean() == old(Lean())
      ensures userId !in old(readBy) ==>
                Lean() == old(Lean()).(readBy := old(readBy) + [userId], status := Read, updatedAt := now)
      ensures readBy == AddReader(old(readBy), userId)
    {
      if userId !in readBy {
        readBy := AddReader(readBy, userId);
        status := Read;
        updatedAt := now;
      }
    }

    /** `edit(newContent)` at time `now`. Saving re-runs validation, so an empty
        content is refused and the stored message keeps its old fields. */
    method Edit(newContent: string, now: int) returns (r: Result<(), string>)
      modifies this
      ensures r.Err? <==> newContent == ""
      ensures r.Err? ==> r.error == ValidationFailed && Lean() == old(Lean())
      ensures r.Ok? ==> Lean() == old(Lean()).(content := newContent, isEdited := true, editedAt := Some(now),
                                              updatedAt := now)
    {
      if newContent == "" {
        return Err(ValidationFailed);
      }
      content := newContent;
      isEdited := true;
      editedAt := Some(now);
      updatedAt := now;
      r := Ok(());
    }

    /** `delete(userId)` at time `now`: a soft delete that keeps the content. */
    method Delete(userId: UserId, now: int)
      modifies this
      ensures Lean() == old(Lean()).(isDeleted := true, deletedAt := Some(now), deletedBy := Some(userId),
                                    updatedAt := now)
      ensures content == old(content)
    {
      isDeleted := true;
      deletedAt := Some(now);
      deletedBy := Some(userId);
      updatedAt := now;
    }
  }

  /** Reading a message twice is reading it once: the second `markAsRead` of the
      same user finds the user listed and changes nothing. */
  method MarkAsReadTwice(m: Message, userId: UserId, t1: int, t2: int) returns (once: Message, twice: Message)
    ensures twice == once
    ensures userId in once.readBy && multiset(once.readBy)[userId] == multiset(m.readBy)[userId] + (if userId in m.readBy then 0 else 1)
    ensures userId !in m.readBy ==> once.status == Read && once.updatedAt == t1
    ensures userId in m.readBy ==> once == m
  {
    var doc := new MessageDoc(m);
    doc.MarkAsRead(userId, t1);
    once := doc.Lean();
    doc.MarkAsRead(userId, t2);
    twice := doc.Lean();
  }

  function CreatedAt(m: Message): int {
    m.createdAt
  }

  const DefaultPage := 1
  const DefaultMessagesLimit := 50

  /** The messages `getMessages` may return: those of the conversation not deleted. */
  predicate Listed(m: Message, conversationId: ChatId) {
    m.conversationId == conversationId && !m.isDeleted
  }

  /** `Message.getMessages(conversationId, page, limit)`. */
  function GetMessages(ms: seq<Message>, conversationId: ChatId, page: int, limit: int): (r: Result<seq<Message>, string>)
    ensures r.Ok? <==> Query.Skip(page, limit) >= 0
    ensures r.Ok? ==> forall m :: m in r.value ==> m in ms && Listed(m, conversationId)
    ensures r.Ok? ==> Query.NewestFirstOrder(r.value, CreatedAt)
    ensures r.Ok? && limit != 0 ==> |r.value| <= Query.Abs(limit)
    ensures page == 1 && (limit == 0 || |ms| <= Query.Abs(limit)) ==>
              r.Ok? && forall m :: m in ms && Listed(m, conversationId) ==> m in r.value
  {
    var visible := Query.Filter(ms, (m: Message) => Listed(m, conversationId));
    var sorted := Query.NewestFirst(visible, CreatedAt);
    Query.PageKeepsOrder(sorted, page, limit, CreatedAt);
    Query.Page(sorted, page, limit)
  }

  /** The messages `searchMessages` returns for a query: `matches` stands for the
      case-insensitive `$regex` test of the content, which the model leaves opaque. */
  predicate Found(m: Message, conversationId: ChatId, query: string, matches: (string, string) -> bool) {
    m.conversationId == conversationId && matches(m.content, query) && !m.isDeleted
  }

  /** `Message.searchMessages(conversationId, query)`: every match, newest first. */
  function SearchMessages(ms: seq<Message>, conversationId: ChatId, query: string,
                          matches: (string, string) -> bool): (r: seq<Message>)
    ensures forall m :: m in r <==> m in ms && Found(m, conversationId, query, matches)
    ensures forall m :: m in r ==> !m.isDeleted
    ensures Query.NewestFirstOrder(r, CreatedAt)
  {
    var found := Query.Filter(ms, (m: Message) => Found(m, conversationId, query, matches));
    var r := Query.NewestFirst(found, CreatedAt);
    assert forall m :: m in r <==> multiset(r)[m] > 0;
    assert forall m :: m in found <==> multiset(found)[m] > 0;
    r
  }
}
