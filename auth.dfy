/** The mock authentication store: a nullable user with login and logout. */
module Auth {
  import opened Wrappers

  datatype User = User(name: string, role: string)

  const AdminRole := "Admin"

  /** The `AuthProvider` component's `user` state; `None` is `null` (logged out). */
  class AuthProvider {
    var user: Option<User>

    /** Every logged-in user is an administrator. */
    ghost predicate Valid()
      reads this
    {
      user.Some? ==> user.value.role == AdminRole
    }

    constructor ()
      ensures Valid() && user == None
    {
      user := None;
    }

    /** Replaces any previous user. */
    method Login(username: string)
      modifies this
      ensures Valid() && user == Some(User(username, AdminRole))
    {
      user := Some(User(username, AdminRole));
    }

    method Logout()
      modifies this
      ensures Valid() && user == None
    {
      user := None;
    }

    /** Logging out twice is logging out once. */
    method LogoutTwice()
      modifies this
      ensures Valid() && user == None
    {
      Logout();
      Logout();
    }
  }

  /** The login page's scenario: log in as "Ratnesh Singh", then log out. */
  method LoginLogoutScenario() returns (p: AuthProvider)
    ensures fresh(p) && p.user == None
  {
    p := new AuthProvider();
    p.Login("Ratnesh Singh");
    assert p.user == Some(User("Ratnesh Singh", "Admin"));
    p.Logout();
  }
}
