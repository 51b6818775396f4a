/**
 * The manager's staff-account screen: creating cashier accounts, deleting
 * them, and switching their two permission flags.
 */
module StaffUsers {
  import opened Wrappers
  import opened Accounts

  /** The role every account created here receives. */
  const CashierRole := "admin"

  /** The fallback texts used when the server sends no message of its own. */
  const CreateFailedText := "فشل إنشاء المستخدم."
  const DeleteFailedText := "فشل حذف المستخدم."

  /** The line shown under the form. */
  datatype UserMessage =
    | NoMessage
    | EnterCredentials
    | CashierCreated
    | UserDeleted
    | PermissionUpdated
    | PermissionFailed
    | UsersFetchFailed
    | ServerError(text: string)

  /** How a request ended: success, or a failure that may carry the server's own message. */
  datatype CallOutcome = Succeeded | CallFailed(serverMessage: Option<string>)

  datatype CreateUserRequest = CreateUserRequest(username: string, password: string, role: string)

  datatype PermissionRequest = PermissionRequest(userId: string, permissions: Permissions)

  /** `error.response?.data?.msg || fallback`: an empty server message counts as none. */
  function ServerText(serverMessage: Option<string>, fallback: string): (t: string)
    ensures serverMessage.Some? && serverMessage.value != "" ==> t == serverMessage.value
    ensures serverMessage.None? || serverMessage.value == "" ==> t == fallback
  {
    Truthy(serverMessage).GetOr(fallback)
  }

  /** `users.find(u => u._id === id)`: the first user with that id. */
  function FindUser(users: seq<StaffUser>, id: string): (r: Option<StaffUser>)
    ensures r.None? <==> forall k :: 0 <= k < |users| ==> users[k].id != id
    ensures r.Some? ==> exists k :: 0 <= k < |users| && users[k] == r.value
                                    && r.value.id == id && forall j :: 0 <= j < k ==> users[j].id != id
  {
    if users == [] then None
    else if users[0].id == id then Some(users[0])
    else
      var rest := FindUser(users[1..], id);
      assert rest.Some? ==> exists k :: 1 <= k < |users| && users[k] == rest.value
                                        && forall j :: 1 <= j < k ==> users[j].id != id by {
        if rest.Some? {
          var k :| 0 <= k < |users[1..]| && users[1..][k] == rest.value
                   && forall j :: 0 <= j < k ==> users[1..][j].id != id;
          assert users[k + 1] == rest.value;
          assert forall j :: 1 <= j < k + 1 ==> users[j].id != id by {
            forall j | 1 <= j < k + 1 ensures users[j].id != id {
              assert users[j] == users[1..][j - 1];
            }
          }
        }
      }
      rest
  }

  /** `users.map(u => u._id === id ? { ...u, permissions: p } : u)`. */
  function UpdatePermissions(users: seq<StaffUser>, id: string, p: Permissions): (r: seq<StaffUser>)
    ensures |r| == |users|
    ensures forall k :: 0 <= k < |users| && users[k].id == id ==> r[k] == users[k].(permissions := Some(p))
    ensures forall k :: 0 <= k < |users| && users[k].id != id ==> r[k] == users[k]
  {
    if users == [] then []
    else [if users[0].id == id then users[0].(permissions := Some(p)) else users[0]]
         + UpdatePermissions(users[1..], id, p)
  }

  /**
   * The permissions a checkbox click asks for: the user's current flags (both
   * off when the record has none) with the clicked one set.
   */
  function RequestedPermissions(u: StaffUser, key: PermissionKey, value: bool): (p: Permissions)
    ensures key == CanViewAnalytics ==>
      p.canViewAnalytics == value && p.canManageMenu == EffectivePermissions(u).canManageMenu
    ensures key == CanManageMenu ==>
      p.canManageMenu == value && p.canViewAnalytics == EffectivePermissions(u).canViewAnalytics
  {
    SetPermission(EffectivePermissions(u), key, value)
  }

  /**
   * After a successful change every row of that user shows the new flag and
   * keeps the other one it showed before the click.
   */
  lemma PermissionChangeShowsOnlyTheClickedFlag(users: seq<StaffUser>, k: nat, key: PermissionKey, value: bool)
    requires k < |users|
    ensures var p := RequestedPermissions(users[k], key, value);
            var shown := EffectivePermissions(UpdatePermissions(users, users[k].id, p)[k]);
            var before := EffectivePermissions(users[k]);
            && (key == CanViewAnalytics ==> shown == before.(canViewAnalytics := value))
            && (key == CanManageMenu ==> shown == before.(canManageMenu := value))
  {
  }

  /** Applying the same permissions twice is the same as applying them once. */
  lemma UpdatePermissionsIdempotent(users: seq<StaffUser>, id: string, p: Permissions)
    ensures UpdatePermissions(UpdatePermissions(users, id, p), id, p) == UpdatePermissions(users, id, p)
  {
  }

  class UserManager {
    var users: seq<StaffUser>
    var username: string
    var password: string
    var message: UserMessage

    constructor ()
      ensures users == [] && username == "" && password == "" && message == NoMessage
    {
      users, username, password, message := [], "", "", NoMessage;
    }

    /** `fetchUsers`: the list the server sent, or a failure message and the list kept. */
    method ApplyUsersFetch(fetched: Option<seq<StaffUser>>)
      modifies this`users, this`message
      ensures fetched.Some? ==> users == fetched.value && message == old(message)
      ensures fetched.None? ==> users == old(users) && message == UsersFetchFailed
    {
      if fetched.Some? {
        users := fetched.value;
      } else {
        message := UsersFetchFailed;
      }
    }

    /**
     * `handleCreateUser`: with an empty name or password nothing is sent;
     * otherwise a cashier account is requested, and on success the fields
     * are cleared and the list reloaded (`refetched`).
     */
    method HandleCreateUser(outcome: CallOutcome, refetched: Option<seq<StaffUser>>)
      returns (request: Option<CreateUserRequest>)
      modifies this
      ensures request.None? <==> old(username) == "" || old(password) == ""
      ensures request.None? ==> message == EnterCredentials && users == old(users)
                                && username == old(username) && password == old(password)
      ensures request.Some? ==> request.value == CreateUserRequest(old(username), old(password), CashierRole)
      ensures request.Some? && outcome.Succeeded? ==>
        username == "" && password == ""
        && users == refetched.GetOr(old(users))
        && message == (if refetched.Some? then CashierCreated else UsersFetchFailed)
      ensures request.Some? && outcome.CallFailed? ==>
        users == old(users) && username == old(username) && password == old(password)
        && message == ServerError(ServerText(outcome.serverMessage, CreateFailedText))
    {
      message := NoMessage;
      if username == "" || password == "" {
        message := EnterCredentials;
        return None;
      }
      request := Some(CreateUserRequest(username, password, CashierRole));
      if outcome.Succeeded? {
        message := CashierCreated;
        username := "";
        password := "";
        ApplyUsersFetch(refetched);
      } else {
        message := ServerError(ServerText(outcome.serverMessage, CreateFailedText));
      }
    }

    /** `handleDeleteUser`: only a confirmed delete is sent; success reloads the list. */
    method HandleDeleteUser(userId: string, confirmed: bool, outcome: CallOutcome,
                            refetched: Option<seq<StaffUser>>) returns (request: Option<string>)
      modifies this`users, this`message
      ensures request == (if confirmed then Some(userId) else None)
      ensures !confirmed ==> users == old(users) && message == old(message)
      ensures confirmed && outcome.Succeeded? ==>
        users == refetched.GetOr(old(users))
        && message == (if refetched.Some? then UserDeleted else UsersFetchFailed)
      ensures confirmed && outcome.CallFailed? ==>
        users == old(users) && message == ServerError(ServerText(outcome.serverMessage, DeleteFailedText))
    {
      if !confirmed {
        return None;
      }
      request := Some(userId);
      if outcome.Succeeded? {
        message := UserDeleted;
        ApplyUsersFetch(refetched);
      } else {
        message := ServerError(ServerText(outcome.serverMessage, DeleteFailedText));
      }
    }

    /**
     * `handlePermissionChange`: sends the user's flags with one changed; on
     * success only that user's rows take them. A user id not in the list
     * stops the handler before anything is sent.
     */
    method HandlePermissionChange(userId: string, key: PermissionKey, value: bool, succeeded: bool)
      returns (request: Option<PermissionRequest>)
      modifies this`users, this`message
      ensures request.None? <==> FindUser(old(users), userId).None?
      ensures request.None? ==> users == old(users) && message == old(message)
      ensures request.Some? ==>
        request.value == PermissionRequest(userId, RequestedPermissions(FindUser(old(users), userId).value, key, value))
      ensures request.Some? && succeeded ==>
        users == UpdatePermissions(old(users), userId, request.value.permissions) && message == PermissionUpdated
      ensures request.Some? && !succeeded ==> users == old(users) && message == PermissionFailed
    {
      var user := FindUser(users, userId);
      if user.None? {
        return None;
      }
      var newPermissions := RequestedPermissions(user.value, key, value);
      request := Some(PermissionRequest(userId, newPermissions));
      if succeeded {
        users := UpdatePermissions(users, userId, newPermissions);
        message := PermissionUpdated;
      } else {
        message := PermissionFailed;
      }
    }
  }
}
