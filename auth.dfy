/** user_auth.py: `UserAuth`, a login state over a fixed table of accounts. */
module Auth {
  import opened Wrappers

  /** A stored account: its password and its role. */
  datatype Account = Account(password: string, role: string)

  /** `current_user`: who is logged in, and with which role. */
  datatype Session = Session(username: string, role: string)

  const AdminName: string := "admin"
  const AdminRole: string := "admin"
  const UserName: string := "user"
  const UserRole: string := "user"

  /** The accounts `UserAuth` is built with. */
  function InitialUsers(): (m: map<string, Account>)
    ensures m.Keys == {AdminName, UserName}
    ensures m[AdminName].role == AdminRole && m[UserName].role == UserRole
  {
    map[AdminName := Account("admin123", AdminRole), UserName := Account("user123", UserRole)]
  }

  /** Only the `admin` account has the admin role. */
  lemma OnlyAdminIsAdmin(name: string)
    requires name in InitialUsers()
    ensures InitialUsers()[name].role == AdminRole <==> name == AdminName
  {
    assert AdminRole != UserRole;
  }

  class UserAuth {
    var users: map<string, Account>
    var currentUser: Option<Session>

    /** The table is the one the object was built with, and a logged-in user
        is an account of the table with that account's role. */
    ghost predicate Valid()
      reads this
    {
      users == InitialUsers()
      && (currentUser.Some? ==>
            currentUser.value.username in users
            && currentUser.value.role == users[currentUser.value.username].role)
    }

    constructor()
      ensures Valid() && currentUser == None
    {
      users := InitialUsers();
      currentUser := None;
    }

    /** `login`: succeeds exactly when the account exists and the password is
        its password; success logs that account in, failure changes nothing. */
    method Login(username: string, password: string) returns (ok: bool)
      requires Valid()
      modifies this
      ensures Valid() && users == old(users)
      ensures ok <==> username in users && users[username].password == password
      ensures ok ==> currentUser == Some(Session(username, users[username].role))
      ensures ok ==> (IsAdmin() <==> username == AdminName)
      ensures !ok ==> currentUser == old(currentUser)
    {
      if username in users && users[username].password == password {
        currentUser := Some(Session(username, users[username].role));
        OnlyAdminIsAdmin(username);
        return true;
      }
      return false;
    }

    /** `logout`: nobody is logged in afterwards. */
    method Logout()
      requires Valid()
      modifies this
      ensures Valid() && users == old(users)
      ensures currentUser == None && !IsAuthenticated() && !IsAdmin()
    {
      currentUser := None;
    }

    /** `is_admin`: the logged-in user has the admin role, which in the
        table only the `admin` account has. */
    function IsAdmin(): (r: bool)
      reads this
      ensures r ==> IsAuthenticated()
      ensures Valid() ==> (r <==> currentUser.Some? && currentUser.value.username == AdminName)
    {
      var admin := currentUser.Some? && currentUser.value.role == AdminRole;
      if currentUser.Some? && currentUser.value.username in InitialUsers() then
        OnlyAdminIsAdmin(currentUser.value.username);
        admin
      else admin
    }

    /** `is_authenticated`: somebody is logged in. */
    function IsAuthenticated(): (r: bool)
      reads this
      ensures r <==> currentUser != None
    {
      currentUser.Some?
    }
  }
}
