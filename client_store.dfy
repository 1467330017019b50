/** The client-side zustand store of store/useStore.js: the signed-in user, the
    message list and the online flag. Each setter yields the next state from the
    current one; the user and message types are left as type parameters. */
module ClientStore {
  import opened Common

  /** `user` is `None` for `null`; a user object is always truthy. */
  datatype State<U, M> = State(user: Option<U>, isAuthenticated: bool, messages: seq<M>, isOnline: bool)

  /** The store as created. */
  function Initial<U, M>(): (s: State<U, M>)
    ensures s.user == None && !s.isAuthenticated && s.messages == [] && s.isOnline
  {
    State(None, false, [], true)
  }

  /** `setUser(user)`: `isAuthenticated` becomes `!!user`. */
  function SetUser<U, M>(s: State<U, M>, user: Option<U>): (r: State<U, M>)
    ensures r.user == user && (r.isAuthenticated <==> user.Some?)
    ensures r.messages == s.messages && r.isOnline == s.isOnline
  {
    s.(user := user, isAuthenticated := user.Some?)
  }

  /** `logout()`. */
  function Logout<U, M>(s: State<U, M>): (r: State<U, M>)
    ensures r.user == None && !r.isAuthenticated
    ensures r.messages == s.messages && r.isOnline == s.isOnline
  {
    s.(user := None, isAuthenticated := false)
  }

  /** `addMessage(message)`: appended at the end, earlier messages kept. */
  function AddMessage<U, M>(s: State<U, M>, message: M): (r: State<U, M>)
    ensures |r.messages| == |s.messages| + 1
    ensures r.messages[..|s.messages|] == s.messages && r.messages[|s.messages|] == message
    ensures r.user == s.user && r.isAuthenticated == s.isAuthenticated && r.isOnline == s.isOnline
  {
    s.(messages := s.messages + [message])
  }

  /** `setMessages(messages)`: the list is replaced wholesale. */
  function SetMessages<U, M>(s: State<U, M>, messages: seq<M>): (r: State<U, M>)
    ensures r.messages == messages
    ensures r.user == s.user && r.isAuthenticated == s.isAuthenticated && r.isOnline == s.isOnline
  {
    s.(messages := messages)
  }

  /** `setIsOnline(status)`: only the flag changes. */
  function SetIsOnline<U, M>(s: State<U, M>, status: bool): (r: State<U, M>)
    ensures r.isOnline == status
    ensures r.user == s.user && r.isAuthenticated == s.isAuthenticated && r.messages == s.messages
  {
    s.(isOnline := status)
  }

  datatype Action<U, M> =
    | SetUserAction(user: Option<U>)
    | LogoutAction
    | AddMessageAction(message: M)
    | SetMessagesAction(messages: seq<M>)
    | SetIsOnlineAction(status: bool)

  function Apply<U, M>(s: State<U, M>, a: Action<U, M>): State<U, M> {
    match a
    case SetUserAction(u) => SetUser(s, u)
    case LogoutAction => Logout(s)
    case AddMessageAction(m) => AddMessage(s, m)
    case SetMessagesAction(ms) => SetMessages(s, ms)
    case SetIsOnlineAction(b) => SetIsOnline(s, b)
  }

  /** The actions applied in order. */
  function Run<U, M>(s: State<U, M>, actions: seq<Action<U, M>>): State<U, M>
    decreases |actions|
  {
    if actions == [] then s else Run(Apply(s, actions[0]), actions[1..])
  }

  /** The store reads as authenticated exactly when it holds a user. */
  predicate Consistent<U, M>(s: State<U, M>) {
    s.isAuthenticated <==> s.user.Some?
  }

  /** Every sequence of setter calls keeps the store consistent, starting from creation. */
  lemma {:induction false} RunKeepsConsistent<U, M>(s: State<U, M>, actions: seq<Action<U, M>>)
    requires Consistent(s)
    ensures Consistent(Run(s, actions))
    decreases |actions|
  {
    if actions != [] {
      RunKeepsConsistent(Apply(s, actions[0]), actions[1..]);
    }
  }

  /** Without `setMessages`, the message list only grows at its end. */
  lemma {:induction false} MessagesOnlyGrow<U, M>(s: State<U, M>, actions: seq<Action<U, M>>)
    requires forall i :: 0 <= i < |actions| ==> !actions[i].SetMessagesAction?
    ensures var r := Run(s, actions);
            |s.messages| <= |r.messages| && r.messages[..|s.messages|] == s.messages
    decreases |actions|
  {
    if actions != [] {
      var next := Apply(s, actions[0]);
      MessagesOnlyGrow(next, actions[1..]);
      var r := Run(next, actions[1..]);
      assert r.messages[..|next.messages|][..|s.messages|] == r.messages[..|s.messages|];
    }
  }
}
