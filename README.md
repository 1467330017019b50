# AI chat application: verified model of its state-update rules

The repository is a chat application. An Express and MongoDB backend serves
accounts, chats and messages over REST and socket.io. A Next.js client keeps a
small store, a chat-list provider and a group-creation dialog. This project is a
Dafny model of the parts of that code that update tables and records under
stated conditions. It covers:

- the presence maps and room table of the socket service;
- the two socket servers' handshake, connection rooms, message, read-receipt and
  typing handlers, with their unread counters;
- the REST chat handlers;
- the Message and Chat models: defaults, validation, read, edit, soft delete,
  find-or-create and the paginated listings;
- the password-reset token machines of the auth controller and the older auth
  routes, and the reset-link helper;
- the client store, the chat provider's list updaters and the dialog's
  selection and validation rules.

Each source file keeps its own record shape, because the revisions disagree
with each other:

- `config/socket.js` gives messages `chat` and `type` fields. The Message.js
  schema has neither; it declares `conversationId` and `messageType` instead.
  Neither `message.encryptContent` nor `message.getMessageDetails` is defined
  in Message.js.
- `config/socket.js` gives chats `settings.encryption` and an `unreadCounts`
  array of `{user, count}` entries. Chat.js declares neither.
- `chatController.js` uses `isGroup`, a Map of unread counts and an embedded
  `chat.messages` array. Chat.js declares `isGroupChat` and none of the others.
- `routes/auth.js` stores the raw reset token and has no throttle. The
  controller stores its sha256 and refuses a new token while one is pending.

## How the model is built

- The database becomes in-memory values:
  - a collection the code searches with `findOne` is a sequence, where the first
    stored match wins (`Common.FirstIndex`);
  - a collection keyed by id is a map.
- Every handler is one atomic step. A class holds the tables it mutates, and its
  methods state the whole new state.
- The following are function-typed parameters:
  - bcrypt's hash and compare;
  - sha256;
  - JWT signing and verification;
  - `encryptMessage`;
  - the regex test of `searchMessages`.
- The following are plain parameters:
  - the clock;
  - new document ids;
  - random reset tokens;
  - `FRONTEND_URL`, `AI_USER_ID`;
  - the outcome of each awaited client request.
- socket.io rooms are a table from room name to its sockets, in join order
  (`Rooms`). Emitted events are appended to an outbox together with their
  recipient sockets.
- Mongo queries are modelled as follows:
  - sorting is a stable sort, descending;
  - `skip` is `(page - 1) * limit`, and a negative value is an error;
  - `limit(0)` means no limit;
  - a negative limit returns at most its absolute value.
- Mongoose validation runs on `create` and on `save`. A required string rejects
  `""`, and each enum rejects any name outside its list. `timestamps` sets
  `updatedAt` on every save.

## Model

| member | source | states |
|---|---|---|
| Rooms.Join | backend/src/services/socketService.js:42 | joining adds exactly the socket to that room, changes no other room, keeps join order and keeps every list duplicate-free |
| Rooms.JoinAll | backend/src/config/socket.js:51-59 | after joining a set of rooms, each of those rooms holds the socket as well, other rooms are unchanged, and nobody else is added |
| Rooms.Leave | backend/src/services/socketService.js:62 | leaving removes exactly that socket from that room, and no other room changes |
| Rooms.LeaveAll | backend/src/config/socket.js:176-184 | on disconnect the socket is gone from every room, and every other member stays |
| Handshake.Authenticate | backend/src/services/socketService.js:13-32 | the handshake succeeds iff the token is truthy, verifies and carries the subject claim; the user is then the one stored under that claim; otherwise the error is 'Authentication error' for a missing or bad token and 'User not found' for an unknown user |
| SocketService.MapDefined | backend/src/services/socketService.js:133-135 | a user is listed iff one of the room's sockets maps to them; the result is no longer than the room, and exactly as long when every socket is mapped |
| SocketService.SocketService.IsUserOnline | backend/src/services/socketService.js:124-126 | a user is online iff `userSockets` holds it; under the service invariant, an online user's socket is a live session of that user |
| SocketService.SocketService.GetOnlineUsers | backend/src/services/socketService.js:129-136 | an unknown room gives []; otherwise the result lists exactly the users mapped from the room's sockets, and is no longer than the number of distinct members |
| SocketService.SocketService.Connect | backend/src/services/socketService.js:34-42 | a rejected handshake changes nothing; an accepted one sets userSockets[u] to s (the last connection wins) and socketUsers[s] to u, joins the socket to its own room and the user's room, and makes the user online |
| SocketService.ConnectConsistent | backend/src/services/socketService.js:34-42 | recording a fresh socket in both maps and joining its own and its user's room keeps both maps pointing at live sessions of the right user and every room member a live socket |
| SocketService.SocketService.JoinChat | backend/src/services/socketService.js:45-58 | the socket joins the room, and userJoined goes to the room's members other than the sender |
| SocketService.SocketService.LeaveChat | backend/src/services/socketService.js:61-70 | the socket leaves the room, and userLeft goes to the remaining members |
| SocketService.SocketService.Typing | backend/src/services/socketService.js:73-79 | userTyping goes to the room minus the sender; nothing else changes |
| SocketService.SocketService.RelayMessageRead | backend/src/services/socketService.js:82-92 | messageRead goes to the room minus the sender; nothing is stored |
| SocketService.SocketService.Disconnect | backend/src/services/socketService.js:95-101 | both map entries go unconditionally, the socket leaves every room, and the user then reads as offline |
| SocketService.SocketService.EmitMessage | backend/src/services/socketService.js:106-108 | a message event goes to every member of the room |
| SocketService.SocketService.EmitToUser | backend/src/services/socketService.js:111-116 | nothing is emitted for a user with no socket; otherwise one event goes to the user's latest socket |
| SocketService.SocketService.EmitToChat | backend/src/services/socketService.js:119-121 | the event goes to every member of the room |
| SocketService.OverlappingSessions | backend/src/services/socketService.js:37-101 | with two sockets of one user, closing the older one marks the user offline although the newer socket is still live and still mapped |
| SocketGateway.FindEntry | backend/src/config/socket.js:146-148 | the position of the first unread entry of the user; None iff no entry has that user |
| SocketGateway.BumpUnread | backend/src/config/socket.js:104-118 | the forEach loop computes the fold BumpAll of increment-or-push over the participants, skipping the sender |
| SocketGateway.BumpCount | backend/src/config/socket.js:106-116 | one step adds one to that participant's count and changes nobody else's |
| SocketGateway.BumpUsers | backend/src/config/socket.js:106-116 | one step pushes an entry only for a participant that had none |
| SocketGateway.BumpAllCount | backend/src/config/socket.js:104-118 | each user's count grows by their number of listings among the participants (from 0 when absent), and the sender's count stays the same |
| SocketGateway.BumpAllEntries | backend/src/config/socket.js:104-118 | a user gains an entry only by being a non-sender participant with no entry, and then gains exactly one; nobody else's number of entries changes |
| SocketGateway.BumpAllKeeps | backend/src/config/socket.js:104-118 | existing entries stay in place for the same user; the entries of the sender and of non-participants are unchanged |
| SocketGateway.ResetUnread | backend/src/config/socket.js:145-152 | the reader's first entry drops to 0, and no entry is created when the reader has none; every other position and every other user's count is unchanged |
| SocketGateway.ChatsOf | backend/src/config/socket.js:54 | exactly the chats that list the user as a participant |
| SocketGateway.Gateway.Connect | backend/src/config/socket.js:19-59 | a rejected handshake (claim `id`) changes nothing; an accepted one marks the user online with lastSeen now, and joins the socket's own room, the user's room and the room of every chat that lists the user |
| SocketGateway.ConnectConsistent | backend/src/config/socket.js:19-59 | after a connection every user is still stored under its own id, every room member has a session, and the new socket sits in the room of every chat whose participants include its user |
| SocketGateway.Gateway.SendMessage | backend/src/config/socket.js:62-125 | a non-participant gets one error event, sent to its own socket only, and nothing is stored; otherwise the message is stored (encrypted when the chat asks for it), becomes lastMessage at now, new_message goes to the whole room, and the unread entries are BumpAll of the old ones |
| SocketGateway.Gateway.MarkRead | backend/src/config/socket.js:128-164 | a message that is unknown or belongs to another chat gives 'Message not found' to the sender and changes nothing; otherwise the reader is added once with status read; a missing chat gives 'Error marking message as read'; otherwise ResetUnread runs and message_read goes to the room |
| SocketGateway.Gateway.Typing | backend/src/config/socket.js:167-173 | user_typing goes to the room minus the sender; nothing is stored |
| SocketGateway.Gateway.Disconnect | backend/src/config/socket.js:176-184 | the user is marked offline with lastSeen now, and the socket leaves every room |
| Query.Filter | backend/src/models/Message.js:120-123 | keeps exactly the documents that satisfy the test, no more often than before; keeps everything when all pass |
| Query.FilterMultiset | backend/src/models/Message.js:120-123 | a kept document appears as often as before, and a dropped one not at all |
| Query.Insert | backend/src/models/Message.js:124 | inserting into a newest-first list keeps it newest first, and adds exactly one copy of the element |
| Query.NewestFirst | backend/src/models/Message.js:124 | the result is in newest-first order and is a permutation of the input |
| Query.Page | backend/src/models/Message.js:119-126 | an error iff (page-1)*limit < 0; otherwise the result is exactly the window of the input starting at the skip, with Mongo's limit rules (0 = no limit, a negative limit counts as its absolute value); a first page with a covering limit is the whole input |
| Query.PageKeepsOrder | backend/src/models/Message.js:124-126 | a page of a newest-first list is newest first |
| Query.WindowKeepsOrder | backend/src/models/Message.js:125-126 | any contiguous window of a newest-first list is newest first |
| MessageModel.ParseMessageType | backend/src/models/Message.js:20-24 | accepts exactly the five enum names, giving back the type of that name |
| MessageModel.Create | backend/src/models/Message.js:3-78 | creation succeeds iff a sender is given, the content is non-empty and any type given is in the enum; otherwise the error is validation failure; on success every field is copied or defaulted (type text, status sent, readBy [], not edited, not deleted), with createdAt and updatedAt set to now |
| MessageModel.AddReader | backend/src/models/Message.js:94-95 | the reader is in the result; the old list is a prefix and the result is at most one longer, with the reader at the end when it was absent; the result equals the old list iff the reader was already there; no duplicate is introduced |
| MessageModel.MessageDoc.MarkAsRead | backend/src/models/Message.js:93-99 | a known reader leaves the document unchanged; a new reader is appended, the status becomes read and updatedAt becomes now |
| MessageModel.MarkAsReadTwice | backend/src/models/Message.js:93-99 | a second markAsRead changes nothing; the reader appears exactly once more than before if new, and not at all more otherwise |
| MessageModel.MessageDoc.Edit | backend/src/models/Message.js:102-107 | empty content fails validation and leaves every field unchanged; otherwise content, isEdited, editedAt and updatedAt change and nothing else |
| MessageModel.MessageDoc.Delete | backend/src/models/Message.js:110-115 | a soft delete: isDeleted, deletedAt, deletedBy and updatedAt are set and the content is kept |
| MessageModel.GetMessages | backend/src/models/Message.js:118-130 | an error iff the skip is negative; every message returned belongs to the conversation and is not deleted; newest first; at most |limit|; a first page with a covering limit holds every such message |
| MessageModel.SearchMessages | backend/src/models/Message.js:133-142 | returns exactly the non-deleted messages of the conversation with matching content, newest first |
| ChatModel.NewChat | backend/src/models/Chat.js:3-46 | a new chat gets the given fields plus the schema defaults: no last message yet, lastMessageTime now, active, createdAt and updatedAt now |
| ChatModel.ChatDoc.UpdateLastMessage | backend/src/models/Chat.js:65-69 | sets lastMessage and lastMessageTime (and updatedAt, on save) and nothing else |
| ChatModel.FindDirect | backend/src/models/Chat.js:73-76 | the first stored non-group chat that lists both users; None iff there is none |
| ChatModel.FindOrCreate | backend/src/models/Chat.js:72-87 | an existing match is returned and nothing is created; otherwise one chat with participants [user1, user2], not a group, is appended; the result always lists both users |
| ChatModel.ChatStore.FindOrCreateChat | backend/src/models/Chat.js:72-87 | the returned chat and the new collection are those given by FindOrCreate |
| ChatModel.FindDirectAppend | backend/src/models/Chat.js:73-83 | appending a chat does not change which earlier chat matches first |
| ChatModel.FindOrCreateIdempotent | backend/src/models/Chat.js:72-87 | calling it twice for the same pair returns the same chat, and the second call changes nothing |
| ChatModel.FindDirectSymmetric | backend/src/models/Chat.js:74 | swapping the two users finds the same chat |
| ChatModel.ChatStore.CreateGroupChat | backend/src/models/Chat.js:90-98 | appends a group chat with exactly the given participants, name and admin |
| ChatModel.GetUserChats | backend/src/models/Chat.js:101-113 | an error iff the skip is negative; every chat returned is active and lists the user; sorted by lastMessageTime, newest first; at most |limit|; a first page with a covering limit holds them all |
| ChatController.IncrementUnread | backend/src/controllers/chatController.js:153-158 | the loop computes Increments over the participants, skipping the sender |
| ChatController.IncrementsCount | backend/src/controllers/chatController.js:153-158 | each non-sender participant's count grows by its number of listings, an absent count starting from 0; the sender's count stays the same |
| ChatController.IncrementsKeys | backend/src/controllers/chatController.js:153-158 | a count is created for exactly the non-sender participants |
| ChatController.ReadAll | backend/src/controllers/chatController.js:262-266 | every embedded message lists the caller as a reader; the old readers stay as a prefix, at most the caller is added, and only when absent; no other field of any message changes |
| ChatController.MarkAllRead | backend/src/controllers/chatController.js:262-266 | the loop computes ReadAll |
| ChatController.ReadAllIdempotent | backend/src/controllers/chatController.js:262-266 | marking read twice equals marking read once, and no reader is listed twice |
| ChatController.FoundAllIff | backend/src/controllers/chatController.js:74-78 | the count check passes iff every participant exists and none is listed twice |
| ChatController.ChatApi.GetChatMessages | backend/src/controllers/chatController.js:22-42 | a non-participant gets 403 'Access denied'; otherwise the reply is 200 with the conversation's GetMessages page |
| ChatController.ChatApi.GetChat | backend/src/controllers/chatController.js:45-64 | gives 404 for an unknown chat, 403 for a non-participant, and otherwise 200 with the chat |
| ChatController.ChatApi.CreateChat | backend/src/controllers/chatController.js:67-108 | the caller goes first among the participants; a failed count check gives 404 and nothing is stored; a direct request answers 200 with an existing chat holding them all; otherwise a new chat is stored with groupAdmin set to the caller exactly when isGroup is set |
| ChatController.ChatApi.SendMessage | backend/src/controllers/chatController.js:111-165 | a non-participant gets 403 and nothing changes; otherwise the encrypted message is created with the caller as sender and the chat as conversation, any validation failure gives 500 with nothing stored, the message becomes lastMessage and is broadcast to the room, and the unread Map becomes Increments |
| ChatController.ChatApi.GetAiReply | backend/src/controllers/chatController.js:168-223 | gives 403 for a non-participant and 404 for an unknown message id, with nothing changed; otherwise the fixed reply from the AI user is created with replyTo set to the message id, becomes lastMessage and is broadcast; when no AI user is configured it gives 500 |
| ChatController.ChatApi.SearchMessages | backend/src/controllers/chatController.js:226-246 | a non-participant gets 403; otherwise the reply is 200 with the model's search result |
| ChatController.ChatApi.MarkAsRead | backend/src/controllers/chatController.js:249-283 | a missing chat gives 404 and nothing changes; otherwise every embedded message has the caller as a reader, the caller's count is 0 (created if absent), and messagesRead is broadcast |
| AuthController.ClearedReset | backend/src/controllers/authController.js:241-252 | on a driver that writes `undefined` as null (Mongoose 5): the new hash is set, the token and expiry are cleared, and the identity fields are kept |
| AuthController.StrippedReset | backend/src/controllers/authController.js:241-252 | on a driver that drops `undefined` keys from an update (Mongoose 6 and later): only the hash changes; the token, its expiry and the identity fields are kept |
| AuthController.StrippedTokenSurvives | backend/src/controllers/authController.js:242-252 | after a reset on a key-dropping driver, the used token still finds its record until it expires, and that record still counts as pending (the 429 test of line 149) |
| AuthController.ConsumedTokenRejected | backend/src/controllers/authController.js:242-252 | on a null-writing driver, once the record that held a token has been cleared, a lookup of that token fails at any time |
| AuthController.AuthApi.Register | backend/src/controllers/authController.js:18-78 | invalid input gives 400; a record sharing the email or the username gives 400, with 'Email already registered.' exactly when that record's email is the one given and 'Username already taken.' otherwise; otherwise one record is appended and 201 comes with a token cookie |
| AuthController.AuthApi.Login | backend/src/controllers/authController.js:81-130 | 401 'Invalid credentials.' iff the email is unknown or the password does not match; otherwise 200 with the profile and a token cookie |
| AuthController.AuthApi.ForgotPassword | backend/src/controllers/authController.js:133-182 | an unknown email gives 200 and no change; a pending unexpired token gives 429 and no change; otherwise sha256 of the token and an expiry of now + 3600000 are stored, and the reply carries the reset link |
| AuthController.ForgotRevealsAccount | backend/src/controllers/authController.js:143-177 | the replies for a known and an unknown email differ in message and shape, so the reply tells whether an account exists |
| AuthController.AuthApi.VerifyResetToken | backend/src/controllers/authController.js:185-209 | 200 iff some record holds sha256(token) with expiry > now; 400 otherwise |
| AuthController.AuthApi.ResetPassword | backend/src/controllers/authController.js:212-271 | a token that does not verify gives 400 and no change; otherwise that record gets the new hash, and it loses its token and expiry exactly when the driver writes `undefined` as null |
| AuthController.ResetLifecycle | backend/src/controllers/authController.js:133-271 | a token that is issued, verified within the hour and used once resets the password; on a null-writing driver it is then refused and a new request is served; on a key-dropping driver it resets the password again and a new request gets 429 |
| AuthController.AuthApi.VerifyToken | backend/src/controllers/authController.js:274-285 | 404 iff the caller's record is gone; otherwise 200 with the whole record less its password, the reset fields, online flag and lastSeen included |
| AuthController.AuthApi.Logout | backend/src/controllers/authController.js:288-301 | an existing caller goes offline with lastSeen now; the reply is always 200 |
| AuthRoutes.ClearedReset | backend/src/routes/auth.js:160-166 | the new hash is set, the token and expiry are cleared, and the identity fields are kept |
| AuthRoutes.AuthRouter.Register | backend/src/routes/auth.js:11-53 | an existing email (and only the email) gives 400 'User already exists' with no change; otherwise one record is appended and 201 with a token |
| AuthRoutes.AuthRouter.Login | backend/src/routes/auth.js:56-91 | an unknown email and a wrong password both give 400 'Invalid credentials'; otherwise 200 with a token |
| AuthRoutes.AuthRouter.ForgotPassword | backend/src/routes/auth.js:94-123 | an unknown email gives 200 and no change; otherwise the raw token and an expiry of now + 3600000 overwrite the old ones with no throttle, and the reply is 200, or 500 when the mail call fails |
| AuthRoutes.NewTokenReplacesOld | backend/src/routes/auth.js:107-113 | a second request makes the first token invalid before it would have expired |
| AuthRoutes.AuthRouter.VerifyResetToken | backend/src/routes/auth.js:126-144 | 200 iff a record holds that exact token with expiry > now; 400 otherwise |
| AuthRoutes.AuthRouter.ResetPassword | backend/src/routes/auth.js:147-174 | a token that does not verify gives 400 and no change; otherwise that record gets the new hash and loses its token and expiry |
| AuthRoutes.ResetThenReuse | backend/src/routes/auth.js:147-174 | a consumed token is refused the second time |
| AuthRoutes.AuthRouter.Verify | backend/src/routes/auth.js:177-185 | 200 with the caller's record less its password (the raw reset token and its expiry included), or with null when the record is gone |
| AuthRoutes.VerifyRevealsResetToken | backend/src/routes/auth.js:177-185 | after a reset request (which stores the raw token, lines 111-112), `/verify` returns that token, and it passes `/verify-reset-token` |
| Email.GenerateResetUrl | backend/src/utils/email.js:3-12 | success is always true; the URL is the front-end address (or `undefined`), then "/reset-password?token=", then the raw token |
| Email.TokenRoundTrip | backend/src/utils/email.js:5 | the token can be read back verbatim from the end of the link |
| Email.LinksDistinguishTokens | backend/src/utils/email.js:5 | different tokens give different links |
| Email.EmailIrrelevant | backend/src/utils/email.js:3-11 | the email argument does not affect the result |
| ClientStore.Initial | frontend/src/store/useStore.js:5-19 | the initial state: no user, not authenticated, no messages, online |
| ClientStore.SetUser | frontend/src/store/useStore.js:7 | the user is replaced, isAuthenticated is whether a user is given, and the other fields are unchanged |
| ClientStore.Logout | frontend/src/store/useStore.js:8 | there is no user and the store is not authenticated; messages and the online flag are unchanged |
| ClientStore.AddMessage | frontend/src/store/useStore.js:12-15 | the message list grows by one at its end, and the earlier messages and other fields are unchanged |
| ClientStore.SetMessages | frontend/src/store/useStore.js:16 | the message list is replaced wholesale, and nothing else changes |
| ClientStore.SetIsOnline | frontend/src/store/useStore.js:20 | only the online flag changes |
| ClientStore.RunKeepsConsistent | frontend/src/store/useStore.js:5-20 | every sequence of setter calls keeps "authenticated iff a user is set" |
| ClientStore.MessagesOnlyGrow | frontend/src/store/useStore.js:12-16 | without setMessages, the old message list stays a prefix |
| ChatContext.Mounted | frontend/src/contexts/ChatContext.js:10-12 | the provider starts with no chats, loading, and no error |
| ChatContext.Settle | frontend/src/contexts/ChatContext.js:42-54 | success iff the response has a body; a missing body gives the action's default message; a rejection gives the server's non-empty message, or else the default |
| ChatContext.FetchChats | frontend/src/contexts/ChatContext.js:20-36 | a load replaces the chats, a failure sets 'Failed to load chats' and keeps them; loading always ends |
| ChatContext.ErrorOutlivesReload | frontend/src/contexts/ChatContext.js:20-36 | a later successful load does not clear an earlier error |
| ChatContext.Created | frontend/src/contexts/ChatContext.js:43 | the created chat is appended on success, and the list is unchanged otherwise |
| ChatContext.CreateChat | frontend/src/contexts/ChatContext.js:38-55 | the result follows Settle with 'Failed to create chat', and on success the chat is appended |
| ChatContext.CreateChatGrows | frontend/src/contexts/ChatContext.js:42-47 | the list grows by one iff the call succeeds, and the old chats stay in front |
| ChatContext.CreateGroupChat | frontend/src/contexts/ChatContext.js:57-74 | the same as createChat, with 'Failed to create group chat' as the default |
| ChatContext.WithLastMessage | frontend/src/contexts/ChatContext.js:82-88 | the length and ids are kept; the chats with the id get the new lastMessage, and every other chat is unchanged |
| ChatContext.SendMessage | frontend/src/contexts/ChatContext.js:76-100 | the result follows Settle with 'Failed to send message'; on success the list becomes WithLastMessage, and on failure it is unchanged |
| ChatContext.SendToUnknownChat | frontend/src/contexts/ChatContext.js:82-88 | sending to an id no chat has leaves the list unchanged |
| ChatContext.LastSendWins | frontend/src/contexts/ChatContext.js:82-88 | two sends to one chat give the same list as the second send alone |
| ChatContext.UseChat | frontend/src/contexts/ChatContext.js:119-125 | outside a provider it fails with 'useChat must be used within a ChatProvider'; otherwise it gives the context |
| GroupDialog.Opened | frontend/src/components/chat/CreateGroupChatDialog.jsx:13-18 | the initial dialog state |
| GroupDialog.TrimStart | frontend/src/components/chat/CreateGroupChatDialog.jsx:23 | removes exactly the leading ECMAScript white space and line terminators |
| GroupDialog.TrimEnd | frontend/src/components/chat/CreateGroupChatDialog.jsx:23 | removes exactly the trailing white space and line terminators |
| GroupDialog.TrimEmptyIffBlank | frontend/src/components/chat/CreateGroupChatDialog.jsx:23 | the trimmed string is empty iff the string is all white space |
| GroupDialog.SearchUsers | frontend/src/components/chat/CreateGroupChatDialog.jsx:22-41 | a blank query changes nothing; otherwise the results are exactly the found users that are not already selected, each as often as it was found, or the search error is shown; loading ends; results never include a selected user |
| GroupDialog.AddUser | frontend/src/components/chat/CreateGroupChatDialog.jsx:43-47 | the user is appended to the selection and removed from the results by id, other results keeping their multiplicity, and the query is cleared; results stay free of selected users |
| GroupDialog.RemoveUser | frontend/src/components/chat/CreateGroupChatDialog.jsx:49-51 | removes exactly the selected users with that id, keeps every other selected user as often as it was there, and changes nothing else |
| GroupDialog.Ids | frontend/src/components/chat/CreateGroupChatDialog.jsx:70 | the selected users' ids in selection order |
| GroupDialog.CreateGroup | frontend/src/components/chat/CreateGroupChatDialog.jsx:53-88 | a blank name gives 'Please enter a group name' and makes no call; fewer than 2 selected gives 'Please select at least 2 users' and makes no call; otherwise the call carries the untrimmed name and the ids, success closes the dialog, and failure shows the returned error or the default; loading ends |
| GroupDialog.CreateCallsIff | frontend/src/components/chat/CreateGroupChatDialog.jsx:53-71 | the call is made iff the name is not blank and at least 2 users are selected; an enabled button (line 174) always reaches it |
| GroupDialog.FailureKeepsSelection | frontend/src/components/chat/CreateGroupChatDialog.jsx:79-87 | a failed creation keeps the selection and the name, and does not close the dialog |

## Left out

- I/O, logging, toasts, cookie options, HTTP status plumbing beyond status and
  body, and all rendering are left out.
- Concurrency is left out: interleaved awaits, races between saves, and socket.io
  delivery guarantees. Each handler is one atomic step.
- Store failures that reach a `catch` are left out. The failures the model does
  cover are:
  - message validation on create and edit;
  - a negative skip;
  - a missing `AI_USER_ID`;
  - the null chat in `mark_read`;
  - the mail call of `routes/auth.js`.
- AuthController.AuthApi: the Mongoose version is not fixed by the repository. It
  decides what `$set` with `undefined` does in `resetPassword`, so the model takes
  it as the `stripsUndefined` parameter and states both outcomes.
- The reply shapes of AuthController.AuthApi.VerifyToken, AuthRoutes.AuthRouter.Verify
  and AuthRoutes.VerifyRevealsResetToken assume that User.js does not mark the
  reset fields `select: false`. User.js is not part of this model.
- Ids are taken to be well-formed ObjectIds. A malformed id makes `findById`
  and `findOne` throw a CastError, and that path is not modelled:
  - in the handshake, the catch answers 'Authentication error', where
    Handshake.Authenticate answers 'User not found';
  - in the REST handlers, the catch answers 500. ChatController.ChatApi.GetChat
    answers 404 instead, and the other id-taking handlers answer as for an id
    that matches no record.
- SocketGateway.Gateway.SendMessage: the model follows the success path as
  config/socket.js writes it against its own record shape. Against the
  repository's schemas, that path throws:
  - Chat.js declares no `settings`, so `chat.settings.encryption` throws first
    (config/socket.js:87);
  - at that point nothing has been saved, nothing is broadcast and no count
    changes, and the sender gets 'Error sending message';
  - Message.js defines neither `encryptContent` nor `getMessageDetails`, and
    Chat.js declares no `unreadCounts`. The model emits the stored message
    itself.
- SocketGateway.Gateway.MarkRead: Chat.js declares no `unreadCounts`.
  - So `chat.unreadCounts.find` throws (config/socket.js:146), after
    `markAsRead` has saved the reader.
  - The source then leaves the reader added and no count changed. It sends no
    `message_read`, and the sender gets 'Error marking message as read'.
  - The model follows config/socket.js's own shape, in which the entry is
    reset and the read is broadcast.
- ChatController.ChatApi.CreateChat: the chats are a map keyed by id, so when
  several direct chats hold all the participants, the model may answer with any
  of them. `Chat.findOne` answers with the first in natural order.
  - The lookup filters on `isGroup: false` (chatController.js:84). Chat.js does
    not declare `isGroup`, and `new Chat` does not store it.
  - So against the repository's schemas the outcome depends on the driver's
    query strictness:
    - with strict queries (the Mongoose 6 default) the filter is dropped, and
      a group chat holding all the participants may be returned;
    - otherwise (Mongoose 7 and later) no stored chat matches, and a new chat
      is always created.
  - The model follows chatController.js's own shape, in which every chat
    records `isGroup`.
- ChatController.ChatApi.SendMessage: Chat.js declares no `unreadCounts`.
  - With any participant other than the sender, `chat.unreadCounts.get` throws
    (chatController.js:155).
  - By then the message is stored (line 129), lastMessage is saved (line 141)
    and `newMessage` is broadcast (line 150).
  - So the source replies 500 'Error sending message' without changing any
    count. The model follows chatController.js's own shape, with the counts
    incremented and 201.
- ChatController.ChatApi.MarkAsRead: in Chat.js, `chat.messages` is a virtual
  that is not populated here (Chat.js:53).
  - So `chat.messages.forEach` throws (chatController.js:262), and the source
    replies 500 with nothing changed and no broadcast.
  - The model follows chatController.js's own shape: an embedded message
    array, ReadAll, the caller's count set to 0, the broadcast and 200.
- MessageModel.MessageDoc.Edit: only the stored record is modelled. When
  validation rejects the save, the in-memory document has already been given
  the new content, `isEdited` and `editedAt`; the model does not show that.
- The mail call of `routes/auth.js`: `sendPasswordResetEmail` is imported from
  utils/email.js, which does not export it, so the call throws after the token
  is saved. The `mailSent` parameter stands for its outcome.
- `parseInt` of the query string is left out. Pages and limits are integers.
- `populate`, `lean`, the `replyMessage` and `messages` virtuals, and
  `getParticipants` are left out. They are read-side joins that change no state.
- In `searchMessages`, the `$regex` test is an opaque parameter.
- Stable sorting stands in for Mongo's sort; Mongo leaves the order of ties
  unspecified.
- `getAIResponse` is dead code: `genAI` is commented out.
- `getIO` only returns the server.
- The `getUserChats` controller only passes its arguments through to the
  Chat.js listing (modelled as ChatModel.GetUserChats).
- The Chat.js `metadata` map is never read or written by the core.
- The User schema (User.js) is not part of this model. New user records get no
  reset token, offline status and no lastSeen.
- The express-validator rules are not part of this model. They enter as the
  `valid` flag of AuthController.AuthApi.Register.
- `decryptMessage` and its failures are left out. The `encryptMessage` and
  `encryptContent` results are parameters.
- A request with no `token` query string is left out. Tokens are strings.
- SocketService.SocketService.Connect: the `userSockets` and `socketUsers` maps
  are Map objects keyed by `toString()` ids. The model keys them by the id
  string directly.
- MessageModel.GetMessages and ChatModel.GetUserChats: their `ensures` state
  that results are sound and ordered, and bound their length. They do not spell
  out the exact window of a later page; Query.Page states that window.
- ChatContext.FetchChats: a resolved response without a body (`setChats(undefined)`)
  is outside the model. A loaded list is a sequence.
- GroupDialog.CreateGroup: the `catch` branch ('Failed to create group chat.
  Please try again.') is reachable only if `createGroupChat` throws. The
  provider's version catches everything, so the model takes that outcome as a
  parameter.
