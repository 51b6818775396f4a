/**
 * The staff application shell: restoring the session from browser storage,
 * signing in and out, and choosing the dashboard from the user's role.
 */
module AdminApp {
  import opened Wrappers
  import opened Accounts

  const TokenKey := "authToken"
  const UserKey := "user"

  /** What the shell shows. */
  datatype Page = Checking | LoginPage | ManagerHome | CashierHome

  /** Storage lookup with JavaScript truthiness: a missing key and an empty text are both "no token". */
  function StoredToken(storage: map<string, string>): (r: Option<string>)
    ensures r.Some? <==> TokenKey in storage && storage[TokenKey] != ""
    ensures r.Some? ==> r.value == storage[TokenKey]
  {
    if TokenKey in storage && storage[TokenKey] != "" then Some(storage[TokenKey]) else None
  }

  /**
   * The page for a state: the check screen while loading, the login page
   * without a user, the manager dashboard for role "manager", the cashier
   * dashboard for role "admin", and the login page for any other role.
   */
  function Route(loading: bool, user: Option<StaffUser>): (p: Page)
    ensures p == Checking <==> loading
    ensures p == ManagerHome <==> !loading && user.Some? && user.value.role == "manager"
    ensures p == CashierHome <==> !loading && user.Some? && user.value.role == "admin"
    ensures p == LoginPage <==> !loading && (user.None? || user.value.role !in {"manager", "admin"})
  {
    if loading then Checking
    else if user.None? then LoginPage
    else if user.value.role == "manager" then ManagerHome
    else if user.value.role == "admin" then CashierHome
    else LoginPage
  }

  /** The user left after a render: rendering signs out a user of any other role. */
  function UserAfterRender(loading: bool, user: Option<StaffUser>): (r: Option<StaffUser>)
    ensures r.Some? ==> r == user
    ensures r.None? <==> user.None? || (!loading && user.value.role !in {"manager", "admin"})
  {
    if !loading && user.Some? && user.value.role != "manager" && user.value.role != "admin" then None else user
  }

  /** A second render shows the same page and signs nobody else out. */
  lemma RenderSettles(loading: bool, user: Option<StaffUser>)
    ensures Route(loading, UserAfterRender(loading, user)) == Route(loading, user)
    ensures UserAfterRender(loading, UserAfterRender(loading, user)) == UserAfterRender(loading, user)
  {
  }

  class App {
    var storage: map<string, string>
    var user: Option<StaffUser>
    var loading: bool

    /** A signed-in user always has a token in storage. */
    predicate Valid()
      reads this
    {
      user.Some? ==> TokenKey in storage
    }

    constructor (storage: map<string, string>)
      ensures this.storage == storage && user == None && loading
      ensures Valid()
    {
      this.storage := storage;
      user := None;
      loading := true;
    }

    /** `handleLogout`: forget the token and the stored user. */
    method Logout()
      modifies this`storage, this`user
      ensures storage == old(storage) - {TokenKey, UserKey} && user == None
      ensures Valid() && Route(loading, user) == (if loading then Checking else LoginPage)
    {
      storage := storage - {TokenKey, UserKey};
      user := None;
    }

    /**
     * The start-up check: without a token there is nothing to ask; with one,
     * the server's answer (`me`, `None` on failure) either signs the user in
     * or signs out. Loading ends either way.
     */
    method StartupCheck(me: Option<StaffUser>) returns (request: Option<string>)
      requires Valid()
      modifies this
      ensures request == StoredToken(old(storage)) && !loading && Valid()
      ensures request.None? ==> storage == old(storage) && user == old(user)
      ensures request.Some? && me.Some? ==> storage == old(storage) && user == me
      ensures request.Some? && me.None? ==> storage == old(storage) - {TokenKey, UserKey} && user == None
    {
      request := StoredToken(storage);
      if request.Some? {
        if me.Some? {
          user := me;
        } else {
          Logout();
        }
      }
      loading := false;
    }

    /** `handleLoginSuccess`: store the token and the user's JSON text, then sign in. */
    method LoginSuccess(token: string, u: StaffUser, userJson: string)
      modifies this`storage, this`user
      ensures storage == old(storage)[TokenKey := token][UserKey := userJson] && user == Some(u)
      ensures Valid()
    {
      storage := storage[TokenKey := token][UserKey := userJson];
      user := Some(u);
    }

    /** `renderDashboard` with the shell around it: pick the page, signing out an unknown role. */
    method Render() returns (page: Page)
      requires Valid()
      modifies this`storage, this`user
      ensures page == Route(old(loading), old(user)) && Valid()
      ensures user == UserAfterRender(loading, old(user))
      ensures user == old(user) ==> storage == old(storage)
      ensures user != old(user) ==> storage == old(storage) - {TokenKey, UserKey}
    {
      if loading {
        return Checking;
      }
      if user.None? {
        return LoginPage;
      }
      if user.value.role == "manager" {
        page := ManagerHome;
      } else if user.value.role == "admin" {
        page := CashierHome;
      } else {
        Logout();
        page := LoginPage;
      }
    }
  }
}
