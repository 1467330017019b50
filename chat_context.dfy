/** The client's chat list provider of contexts/ChatContext.js. Each HTTP call is
    replaced by its outcome, passed in as a parameter; the provider's state after the
    call and the value the call returns are computed from it. */
module ChatContext {
  import opened Common

  /** A chat as the client holds it: its id, the fields it does not inspect, and the
      last message shown in the list. */
  datatype ChatItem<D, M> = ChatItem(id: ChatId, data: D, lastMessage: Option<M>)

  /** `chats`, `loading` and `error` of the provider. */
  datatype Provider<D, M> = Provider(chats: seq<ChatItem<D, M>>, loading: bool, error: Option<string>)

  /** An awaited request: it resolved with a body (`None` for a falsy `response.data`),
      or it was rejected, carrying the server's `message` field when there was one. */
  datatype Response<T> = Resolved(data: Option<T>) | Rejected(serverMessage: Option<string>)

  /** The `{ success, chat | message | error }` object the actions return. */
  datatype Outcome<T> = Success(value: T) | Failure(error: string)

  const LoadFailed := "Failed to load chats"
  const CreateChatFailed := "Failed to create chat"
  const CreateGroupFailed := "Failed to create group chat"
  const SendFailed := "Failed to send message"
  const OutsideProvider := "useChat must be used within a ChatProvider"

  /** The provider as mounted, before its first fetch settles. */
  function Mounted<D, M>(): (p: Provider<D, M>)
    ensures p.chats == [] && p.loading && p.error == None
  {
    Provider([], true, None)
  }

  /** How each action turns a response into its result: a body is a success; a
      missing body fails with the action's own message; a rejection fails with the
      server's message when it is a non-empty string, and with the action's own
      message otherwise. */
  function Settle<T>(resp: Response<T>, fallback: string): (r: Outcome<T>)
    ensures r.Success? <==> resp.Resolved? && resp.data.Some?
    ensures r.Success? ==> r.value == resp.data.value
    ensures resp.Resolved? && resp.data.None? ==> r == Failure(fallback)
    ensures resp.Rejected? ==> r == Failure(if Truthy(resp.serverMessage) then resp.serverMessage.value else fallback)
  {
    match resp
    case Resolved(Some(x)) => Success(x)
    case Resolved(None) => Failure(fallback)
    case Rejected(m) => Failure(if Truthy(m) then m.value else fallback)
  }

  /** `fetchChats`: a loaded list replaces the chats; a failure records the error and
      keeps the list. Either way loading ends. An earlier error is not cleared. */
  function FetchChats<D, M>(p: Provider<D, M>, loaded: Option<seq<ChatItem<D, M>>>): (r: Provider<D, M>)
    ensures !r.loading
    ensures loaded.Some? ==> r.chats == loaded.value && r.error == p.error
    ensures loaded.None? ==> r.chats == p.chats && r.error == Some(LoadFailed)
  {
    match loaded
    case Some(cs) => p.(chats := cs, loading := false)
    case None => p.(loading := false, error := Some(LoadFailed))
  }

  /** Appends the created chat on success; shared by `createChat` and `createGroupChat`. */
  function Created<D, M>(p: Provider<D, M>, o: Outcome<ChatItem<D, M>>): (r: Provider<D, M>)
    ensures o.Success? ==> r.chats == p.chats + [o.value]
    ensures o.Failure? ==> r.chats == p.chats
    ensures r.loading == p.loading && r.error == p.error
  {
    if o.Success? then p.(chats := p.chats + [o.value]) else p
  }

  /** `createChat(userId)`. */
  function CreateChat<D, M>(p: Provider<D, M>, resp: Response<ChatItem<D, M>>)
    : (r: (Provider<D, M>, Outcome<ChatItem<D, M>>))
    ensures r.1 == Settle(resp, CreateChatFailed)
    ensures r.0 == Created(p, r.1)
  {
    var o := Settle(resp, CreateChatFailed);
    (Created(p, o), o)
  }

  /** `createGroupChat({ name, participants })`. */
  function CreateGroupChat<D, M>(p: Provider<D, M>, resp: Response<ChatItem<D, M>>)
    : (r: (Provider<D, M>, Outcome<ChatItem<D, M>>))
    ensures r.1 == Settle(resp, CreateGroupFailed)
    ensures r.0 == Created(p, r.1)
  {
    var o := Settle(resp, CreateGroupFailed);
    (Created(p, o), o)
  }

  /** The chat list with `lastMessage` set on every chat whose id is `chatId`. */
  function WithLastMessage<D, M>(chats: seq<ChatItem<D, M>>, chatId: ChatId, m: M): (r: seq<ChatItem<D, M>>)
    ensures |r| == |chats|
    ensures forall i :: 0 <= i < |r| ==> r[i].id == chats[i].id && r[i].data == chats[i].data
    ensures forall i :: 0 <= i < |r| && chats[i].id == chatId ==> r[i].lastMessage == Some(m)
    ensures forall i :: 0 <= i < |r| && chats[i].id != chatId ==> r[i] == chats[i]
  {
    seq(|chats|, i requires 0 <= i < |chats| =>
      if chats[i].id == chatId then chats[i].(lastMessage := Some(m)) else chats[i])
  }

  /** `sendMessage(chatId, content)`: on success the matching chats show the new message. */
  function SendMessage<D, M>(p: Provider<D, M>, chatId: ChatId, resp: Response<M>): (r: (Provider<D, M>, Outcome<M>))
    ensures r.1 == Settle(resp, SendFailed)
    ensures r.1.Success? ==> r.0 == p.(chats := WithLastMessage(p.chats, chatId, r.1.value))
    ensures r.1.Failure? ==> r.0 == p
  {
    var o := Settle(resp, SendFailed);
    if o.Success? then (p.(chats := WithLastMessage(p.chats, chatId, o.value)), o) else (p, o)
  }

  /** `useChat()` outside a provider throws. */
  function UseChat<V>(context: Option<V>): (r: Result<V, string>)
    ensures context.Some? <==> r.Ok?
    ensures r.Ok? ==> r.value == context.value
    ensures r.Err? ==> r.error == OutsideProvider
  {
    match context
    case Some(v) => Ok(v)
    case None => Err(OutsideProvider)
  }

  /** Sending to an id no chat in the list has leaves the list as it was. */
  lemma SendToUnknownChat<D, M>(p: Provider<D, M>, chatId: ChatId, resp: Response<M>)
    requires forall i :: 0 <= i < |p.chats| ==> p.chats[i].id != chatId
    ensures SendMessage(p, chatId, resp).0 == p
  {
    var o := Settle(resp, SendFailed);
    if o.Success? {
      assert WithLastMessage(p.chats, chatId, o.value) == p.chats;
    }
  }

  /** Two successful sends to one chat leave the list as the second alone would. */
  lemma LastSendWins<D, M>(chats: seq<ChatItem<D, M>>, chatId: ChatId, m1: M, m2: M)
    ensures WithLastMessage(WithLastMessage(chats, chatId, m1), chatId, m2) == WithLastMessage(chats, chatId, m2)
  {
    var a := WithLastMessage(WithLastMessage(chats, chatId, m1), chatId, m2);
    var b := WithLastMessage(chats, chatId, m2);
    assert forall i :: 0 <= i < |a| ==> a[i] == b[i];
  }

  /** A failed load is still reported after a later load succeeds. */
  lemma ErrorOutlivesReload<D, M>(p: Provider<D, M>, cs: seq<ChatItem<D, M>>)
    ensures FetchChats(FetchChats(p, None), Some(cs)) == Provider(cs, false, Some(LoadFailed))
  {
  }

  /** Creating a chat grows the list by one exactly when the call succeeds, and never
      disturbs the chats already there. */
  lemma CreateChatGrows<D, M>(p: Provider<D, M>, resp: Response<ChatItem<D, M>>)
    ensures var (q, o) := CreateChat(p, resp);
            && (|q.chats| == |p.chats| + 1 <==> o.Success?)
            && q.chats[..|p.chats|] == p.chats
  {
    var (q, o) := CreateChat(p, resp);
    if o.Success? {
      assert q.chats[..|p.chats|] == p.chats;
    }
  }
}
