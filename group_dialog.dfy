/** The group-creation dialog of components/chat/CreateGroupChatDialog.jsx: a user
    search, a selection of members, a group name, and the call that creates the
    group through the chat provider. Each handler maps the dialog state (and the
    outcome of the request it awaits) to the state after it has finished. */
module GroupDialog {
  import opened Common
  import Query
  import ChatContext

  datatype UserItem = UserItem(id: UserId, username: string, email: string)

  /** The component's state hooks; `closed` records that `onClose` was called. */
  datatype DialogState = DialogState(
    searchQuery: string,
    searchResults: seq<UserItem>,
    selectedUsers: seq<UserItem>,
    groupName: string,
    loading: bool,
    error: string,
    closed: bool)

  /** The argument passed to the provider's `createGroupChat`. */
  datatype GroupRequest = GroupRequest(name: string, participants: seq<UserId>)

  const SearchFailed := "Failed to search users. Please try again."
  const NameMissing := "Please enter a group name"
  const TooFewUsers := "Please select at least 2 users"
  const CreateFailed := "Failed to create group chat"
  const CreateThrew := "Failed to create group chat. Please try again."

  function Opened(): (st: DialogState)
    ensures st.searchQuery == "" && st.searchResults == [] && st.selectedUsers == []
    ensures st.groupName == "" && !st.loading && st.error == "" && !st.closed
  {
    DialogState("", [], [], "", false, "", false)
  }

  /** The characters `String.prototype.trim` removes: the ECMAScript white space
      and line terminators. */
  predicate IsJsSpace(c: char) {
    || ('\t' <= c <= '\r')
    || c == ' ' || c == '\U{00A0}' || c == '\U{1680}'
    || ('\U{2000}' <= c <= '\U{200A}')
    || c == '\U{2028}' || c == '\U{2029}' || c == '\U{202F}' || c == '\U{205F}'
    || c == '\U{3000}' || c == '\U{FEFF}'
  }

  predicate IsBlank(s: string) {
    forall i :: 0 <= i < |s| ==> IsJsSpace(s[i])
  }

  function TrimStart(s: string): (r: string)
    ensures |r| <= |s| && r == s[|s| - |r|..]
    ensures forall i :: 0 <= i < |s| - |r| ==> IsJsSpace(s[i])
    ensures r != [] ==> !IsJsSpace(r[0])
  {
    if s != [] && IsJsSpace(s[0]) then TrimStart(s[1..]) else s
  }

  function TrimEnd(s: string): (r: string)
    ensures |r| <= |s| && r == s[..|r|]
    ensures forall i :: |r| <= i < |s| ==> IsJsSpace(s[i])
    ensures r != [] ==> !IsJsSpace(r[|r| - 1])
  {
    if s != [] && IsJsSpace(s[|s| - 1]) then TrimEnd(s[..|s| - 1]) else s
  }

  /** `s.trim()`. */
  function Trim(s: string): string {
    TrimEnd(TrimStart(s))
  }

  lemma {:induction false} TrimStartEmptyIffBlank(s: string)
    ensures TrimStart(s) == "" <==> IsBlank(s)
  {
    if s != [] {
      assert IsBlank(s) <==> IsJsSpace(s[0]) && IsBlank(s[1..]) by {
        assert forall i :: 0 < i < |s| ==> s[i] == s[1..][i - 1];
      }
      if IsJsSpace(s[0]) {
        TrimStartEmptyIffBlank(s[1..]);
      }
    }
  }

  lemma {:induction false} TrimEndEmptyIffBlank(s: string)
    ensures TrimEnd(s) == "" <==> IsBlank(s)
  {
    if s != [] {
      var init := s[..|s| - 1];
      assert IsBlank(s) <==> IsJsSpace(s[|s| - 1]) && IsBlank(init) by {
        assert forall i :: 0 <= i < |s| - 1 ==> s[i] == init[i];
      }
      if IsJsSpace(s[|s| - 1]) {
        TrimEndEmptyIffBlank(init);
      }
    }
  }

  /** `!s.trim()` holds exactly for the strings made only of white space. */
  lemma TrimEmptyIffBlank(s: string)
    ensures Trim(s) == "" <==> IsBlank(s)
  {
    var t := TrimStart(s);
    TrimStartEmptyIffBlank(s);
    TrimEndEmptyIffBlank(t);
    assert t != [] ==> !IsBlank(t);
  }

  /** Some selected user has this id (`selectedUsers.find(...)` is truthy). */
  predicate Selected(sel: seq<UserItem>, id: UserId) {
    exists j :: 0 <= j < |sel| && sel[j].id == id
  }

  /** No search result is a user already selected. */
  predicate Disjoint(st: DialogState) {
    forall u :: u in st.searchResults ==> !Selected(st.selectedUsers, u.id)
  }

  /** `handleSearchUsers`: nothing happens for a blank query; otherwise `found` is the
      awaited result list (`None` when the request failed), the users already selected
      are dropped from it, and loading ends. */
  function SearchUsers(st: DialogState, found: Option<seq<UserItem>>): (r: DialogState)
    ensures Trim(st.searchQuery) == "" ==> r == st
    ensures Trim(st.searchQuery) != "" && found.Some? ==>
              && (forall u :: u in r.searchResults <==> u in found.value && !Selected(st.selectedUsers, u.id))
              && r == st.(searchResults := r.searchResults, loading := false, error := "")
    ensures Trim(st.searchQuery) != "" && found.None? ==> r == st.(loading := false, error := SearchFailed)
    ensures Trim(st.searchQuery) != "" && found.Some? ==>
              forall u :: multiset(r.searchResults)[u] == if Selected(st.selectedUsers, u.id) then 0 else multiset(found.value)[u]
    ensures Trim(st.searchQuery) != "" && found.Some? ==> Disjoint(r)
    ensures Disjoint(st) ==> Disjoint(r)
  {
    if Trim(st.searchQuery) == "" then st
    else match found
      case Some(users) =>
        var keep := (u: UserItem) => !Selected(st.selectedUsers, u.id);
        var results := Query.Filter(users, keep);
        assert forall u :: multiset(results)[u] == if keep(u) then multiset(users)[u] else 0 by {
          forall u ensures multiset(results)[u] == if keep(u) then multiset(users)[u] else 0 {
            Query.FilterMultiset(users, keep, u);
          }
        }
        st.(searchResults := results, loading := false, error := "")
      case None => st.(loading := false, error := SearchFailed)
  }

  /** `handleAddUser`: the user joins the selection, leaves the results, and the
      query is cleared. */
  function AddUser(st: DialogState, user: UserItem): (r: DialogState)
    ensures r.selectedUsers == st.selectedUsers + [user]
    ensures forall u :: u in r.searchResults <==> u in st.searchResults && u.id != user.id
    ensures forall u :: multiset(r.searchResults)[u] == if u.id == user.id then 0 else multiset(st.searchResults)[u]
    ensures r == st.(selectedUsers := r.selectedUsers, searchResults := r.searchResults, searchQuery := "")
    ensures Disjoint(st) ==> Disjoint(r)
  {
    var keep := (u: UserItem) => u.id != user.id;
    var results := Query.Filter(st.searchResults, keep);
    assert forall u :: multiset(results)[u] == if keep(u) then multiset(st.searchResults)[u] else 0 by {
      forall u ensures multiset(results)[u] == if keep(u) then multiset(st.searchResults)[u] else 0 {
        Query.FilterMultiset(st.searchResults, keep, u);
      }
    }
    var r := st.(selectedUsers := st.selectedUsers + [user], searchResults := results, searchQuery := "");
    assert Disjoint(st) ==> Disjoint(r) by {
      if Disjoint(st) {
        forall u, j | u in r.searchResults && 0 <= j < |r.selectedUsers|
          ensures r.selectedUsers[j].id != u.id
        {
          if j < |st.selectedUsers| {
            assert r.selectedUsers[j] == st.selectedUsers[j];
          }
        }
      }
    }
    r
  }

  /** `handleRemoveUser`: every selected user with that id is dropped. */
  function RemoveUser(st: DialogState, userId: UserId): (r: DialogState)
    ensures forall u :: u in r.selectedUsers <==> u in st.selectedUsers && u.id != userId
    ensures forall u :: multiset(r.selectedUsers)[u] == if u.id == userId then 0 else multiset(st.selectedUsers)[u]
    ensures !Selected(r.selectedUsers, userId)
    ensures r == st.(selectedUsers := r.selectedUsers)
    ensures Disjoint(st) ==> Disjoint(r)
  {
    var keep := (u: UserItem) => u.id != userId;
    var kept := Query.Filter(st.selectedUsers, keep);
    assert forall u :: multiset(kept)[u] == if keep(u) then multiset(st.selectedUsers)[u] else 0 by {
      forall u ensures multiset(kept)[u] == if keep(u) then multiset(st.selectedUsers)[u] else 0 {
        Query.FilterMultiset(st.selectedUsers, keep, u);
      }
    }
    var r := st.(selectedUsers := kept);
    assert !Selected(r.selectedUsers, userId) by {
      forall j | 0 <= j < |r.selectedUsers| ensures r.selectedUsers[j].id != userId {
        assert r.selectedUsers[j] in r.selectedUsers;
      }
    }
    assert Disjoint(st) ==> Disjoint(r) by {
      if Disjoint(st) {
        forall u, j | u in r.searchResults && 0 <= j < |r.selectedUsers|
          ensures r.selectedUsers[j].id != u.id
        {
          assert r.selectedUsers[j] in r.selectedUsers;
          var k :| 0 <= k < |st.selectedUsers| && st.selectedUsers[k] == r.selectedUsers[j];
        }
      }
    }
    r
  }

  /** The ids of the selected users, in selection order. */
  function Ids(sel: seq<UserItem>): (r: seq<UserId>)
    ensures |r| == |sel| && forall i :: 0 <= i < |sel| ==> r[i] == sel[i].id
  {
    seq(|sel|, i requires 0 <= i < |sel| => sel[i].id)
  }

  /** `handleCreateGroup`: the name is checked first, then the number of members;
      only then is the provider called with the untrimmed name and the selected ids.
      `outcome` is what the awaited call returned, or `None` when it threw. A
      success closes the dialog; a failure shows the returned error, or a fixed
      message when that is empty. Loading ends in every case that made the call. */
  function CreateGroup<T>(st: DialogState, outcome: Option<ChatContext.Outcome<T>>)
    : (r: (DialogState, Option<GroupRequest>))
    ensures Trim(st.groupName) == "" ==> r == (st.(error := NameMissing), None)
    ensures Trim(st.groupName) != "" && |st.selectedUsers| < 2 ==> r == (st.(error := TooFewUsers), None)
    ensures Trim(st.groupName) != "" && |st.selectedUsers| >= 2 ==>
              && r.1 == Some(GroupRequest(st.groupName, Ids(st.selectedUsers)))
              && r.0 == st.(loading := false, error := r.0.error, closed := r.0.closed)
              && (r.0.closed <==> st.closed || (outcome.Some? && outcome.value.Success?))
              && r.0.error == match outcome
                              case None => CreateThrew
                              case Some(Success(_)) => ""
                              case Some(Failure(e)) => if e != "" then e else CreateFailed
  {
    if Trim(st.groupName) == "" then (st.(error := NameMissing), None)
    else if |st.selectedUsers| < 2 then (st.(error := TooFewUsers), None)
    else
      var request := Some(GroupRequest(st.groupName, Ids(st.selectedUsers)));
      match outcome
      case None => (st.(loading := false, error := CreateThrew), request)
      case Some(Success(_)) => (st.(loading := false, error := "", closed := true), request)
      case Some(Failure(e)) => (st.(loading := false, error := if e != "" then e else CreateFailed), request)
  }

  /** The create button's `disabled` expression. */
  predicate CreateDisabled(st: DialogState) {
    st.loading || |st.selectedUsers| < 2 || Trim(st.groupName) == ""
  }

  /** The handler reaches the provider exactly when the name is not blank and at
      least two users are selected; in particular an enabled button always does. */
  lemma CreateCallsIff<T>(st: DialogState, outcome: Option<ChatContext.Outcome<T>>)
    ensures CreateGroup(st, outcome).1.Some? <==> !IsBlank(st.groupName) && |st.selectedUsers| >= 2
    ensures !CreateDisabled(st) ==> CreateGroup(st, outcome).1.Some?
  {
    TrimEmptyIffBlank(st.groupName);
  }

  /** A failed creation keeps the selection and the name, so the user can retry. */
  lemma FailureKeepsSelection<T>(st: DialogState, outcome: Option<ChatContext.Outcome<T>>)
    requires outcome.None? || outcome.value.Failure?
    ensures CreateGroup(st, outcome).0.selectedUsers == st.selectedUsers
    ensures CreateGroup(st, outcome).0.groupName == st.groupName
    ensures !CreateGroup(st, outcome).0.closed || st.closed
  {
  }
}
