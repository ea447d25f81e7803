/**
 * The session context (contexts/AuthContext.tsx): the signed-in user, the
 * `loading` flag and the one browser-storage entry `zchpc_user` that keeps a
 * session across page loads.
 */
module Auth {
  import opened Wrappers

  /** A signed-in user; `avatar` is optional. */
  datatype User = User(
    id: string,
    name: string,
    email: string,
    role: string,
    avatar: Option<string>,
    permissions: seq<string>)

  /** The only credential pair `login` accepts. */
  const AdminEmail: string := "admin@zchpc.com"
  const AdminPassword: string := "admin"

  /** The permission tags the administrator holds, in declaration order. */
  const AdminPermissions: seq<string> := ["admin", "sales", "accounting", "procurement", "hr", "inventory"]

  /** The user every successful login signs in. */
  function DefaultUser(): User {
    User("1", "Admin User", AdminEmail, "Administrator", Some("/assets/avatar.png"), AdminPermissions)
  }

  /** `JSON.stringify(defaultUser)`: keys in declaration order, no white space. */
  const DefaultUserJson: string :=
    "{\"id\":\"1\",\"name\":\"Admin User\",\"email\":\"admin@zchpc.com\",\"role\":\"Administrator\","
    + "\"avatar\":\"/assets/avatar.png\",\"permissions\":[\"admin\",\"sales\",\"accounting\","
    + "\"procurement\",\"hr\",\"inventory\"]}"

  /** `isAuthenticated`: `!!user`. */
  predicate IsAuthenticated(user: Option<User>) {
    user.Some?
  }

  /** `checkPermission(permission)`: no user holds nothing; otherwise membership in the user's tags. */
  predicate HasPermission(user: Option<User>, permission: string) {
    match user
    case None => false
    case Some(u) => permission in u.permissions
  }

  /** Without a user every permission check fails. */
  lemma NoUserNoPermission(permission: string)
    ensures !HasPermission(None, permission)
  {
  }

  /** The administrator holds exactly the six tags admin, sales, accounting, procurement, hr and inventory. */
  lemma DefaultUserPermissions(permission: string)
    ensures HasPermission(Some(DefaultUser()), permission)
        <==> permission in {"admin", "sales", "accounting", "procurement", "hr", "inventory"}
  {
  }

  /** The provider's state: the current user, `loading`, and the storage entry `zchpc_user`. */
  class AuthProvider {
    var user: Option<User>
    var loading: bool
    /** `localStorage.getItem('zchpc_user')`: `None` when the key is absent. */
    var stored: Option<string>

    /** First render: no user and `loading` set, with whatever the browser has stored. */
    constructor (stored0: Option<string>)
      ensures user == None && loading && stored == stored0
    {
      user := None;
      loading := true;
      stored := stored0;
    }

    /**
     * The mount effect. A stored value that is non-empty (truthy) is parsed;
     * `parse` returns `None` where `JSON.parse` throws. A parsed value becomes
     * the user, an unparseable one is removed from storage, and either way
     * `loading` ends false.
     */
    method Restore(parse: string -> Option<User>)
      modifies this
      ensures !loading
      ensures old(stored).Some? && old(stored).value != "" && parse(old(stored).value).Some? ==>
                user == parse(old(stored).value) && stored == old(stored)
      ensures old(stored).Some? && old(stored).value != "" && parse(old(stored).value).None? ==>
                user == old(user) && stored == None
      ensures (old(stored).None? || old(stored).value == "") ==> user == old(user) && stored == old(stored)
    {
      if stored.Some? && stored.value != "" {
        var parsed := parse(stored.value);
        if parsed.Some? {
          user := parsed;
        } else {
          stored := None;
        }
      }
      loading := false;
    }

    /** `login` up to its `await`: `loading` is raised and nothing else changes. */
    method StartLogin()
      modifies this
      ensures loading
      ensures user == old(user) && stored == old(stored)
    {
      loading := true;
    }

    /**
     * `login` after its `await`: the fixed credential pair signs in the
     * default user and stores its serialized form; anything else changes
     * neither the user nor storage. `loading` is cleared in both cases.
     */
    method FinishLogin(email: string, password: string) returns (ok: bool)
      modifies this
      ensures ok <==> email == AdminEmail && password == AdminPassword
      ensures ok ==> user == Some(DefaultUser()) && stored == Some(DefaultUserJson)
      ensures !ok ==> user == old(user) && stored == old(stored)
      ensures !loading
    {
      if email == AdminEmail && password == AdminPassword {
        user := Some(DefaultUser());
        stored := Some(DefaultUserJson);
        ok := true;
      } else {
        ok := false;
      }
      loading := false;
    }

    /** The whole of `login`, with the delay between its two halves left out. */
    method Login(email: string, password: string) returns (ok: bool)
      modifies this
      ensures ok <==> email == AdminEmail && password == AdminPassword
      ensures ok ==> user == Some(DefaultUser()) && stored == Some(DefaultUserJson)
      ensures ok ==> forall p :: HasPermission(user, p) <==> p in AdminPermissions
      ensures !ok ==> user == old(user) && stored == old(stored)
      ensures !loading
    {
      StartLogin();
      ok := FinishLogin(email, password);
    }

    /**
     * `logout`: whatever the state, afterwards there is no user and no stored
     * session; `loading` is untouched. The new state does not depend on the
     * old user or storage, so a second logout changes nothing.
     */
    method Logout()
      modifies this
      ensures user == None && stored == None
      ensures loading == old(loading)
      ensures !IsAuthenticated(user)
    {
      user := None;
      stored := None;
    }
  }
}
