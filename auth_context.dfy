/** The authentication provider: a simulated account store in local
    storage, the signed-in user, and the toasts and navigation that follow
    each operation. */
module AuthContext {
  import opened Common

  const UsersKey := "weatherAppUsers"
  const SessionKey := "weatherAppUser"
  const InvalidCredentials := "Invalid email or password"
  const EmailInUse := "Email already in use"
  const HomeRoute := "/"
  const LoginRoute := "/login"

  /** An account as the store keeps it, password included. */
  datatype User = User(id: string, name: string, email: string, password: string, createdAt: string)

  /** The signed-in user: an account without its password. */
  datatype Profile = Profile(id: string, name: string, email: string, createdAt: string)

  datatype Toast = Toast(title: string, description: string, destructive: bool)

  /** `const { password: _, ...userWithoutPassword } = user`. */
  function WithoutPassword(u: User): (p: Profile)
    ensures p.id == u.id && p.name == u.name && p.email == u.email && p.createdAt == u.createdAt
  {
    Profile(u.id, u.name, u.email, u.createdAt)
  }

  predicate Matches(u: User, email: string, password: string) {
    u.email == email && u.password == password
  }

  /** `storedUsers.find(u => u.email === email && u.password === password)`:
      the first account with both. */
  function FindUser(users: seq<User>, email: string, password: string): (r: Option<User>)
    ensures r.Some? <==> exists i :: 0 <= i < |users| && Matches(users[i], email, password)
    ensures r.Some? ==> exists i :: 0 <= i < |users| && users[i] == r.value && Matches(r.value, email, password)
                          && forall j :: 0 <= j < i ==> !Matches(users[j], email, password)
    decreases |users|
  {
    if users == [] then None
    else if Matches(users[0], email, password) then Some(users[0])
    else
      var r := FindUser(users[1..], email, password);
      assert forall i :: 0 < i < |users| ==> users[i] == users[1..][i - 1];
      r
  }

  /** `storedUsers.some(u => u.email === email)`. */
  predicate EmailTaken(users: seq<User>, email: string) {
    exists i :: 0 <= i < |users| && users[i].email == email
  }

  /** No two accounts share an email. */
  predicate UniqueEmails(users: seq<User>) {
    forall i, j :: 0 <= i < j < |users| ==> users[i].email != users[j].email
  }

  /** The account store after `register`: unchanged (`None`) when the email
      is taken, the new account appended otherwise. */
  function Registered(users: seq<User>, name: string, email: string, password: string,
                      id: string, createdAt: string): (r: Option<seq<User>>)
    ensures r.None? <==> EmailTaken(users, email)
    ensures r.Some? ==> r.value == users + [User(id, name, email, password, createdAt)]
  {
    if EmailTaken(users, email) then None
    else Some(users + [User(id, name, email, password, createdAt)])
  }

  /** Registering never creates a second account for an email. */
  lemma RegisterKeepsEmailsUnique(users: seq<User>, name: string, email: string, password: string,
                                  id: string, createdAt: string)
    requires UniqueEmails(users)
    ensures var r := Registered(users, name, email, password, id, createdAt);
            r.Some? ==> UniqueEmails(r.value)
  {
  }

  /** After registering, logging in with the same email and password finds
      exactly the new account. */
  lemma LoginAfterRegister(users: seq<User>, name: string, email: string, password: string,
                                              id: string, createdAt: string)
    requires !EmailTaken(users, email)
    ensures var us := users + [User(id, name, email, password, createdAt)];
            FindUser(us, email, password) == Some(User(id, name, email, password, createdAt))
  {
    var u := User(id, name, email, password, createdAt);
    var us := users + [u];
    assert us[|users|] == u;
    assert forall j :: 0 <= j < |users| ==> us[j] == users[j];
  }

  /** With unique emails, the only account login can find for an email is
      the one registered under it. */
  lemma LoginFindsTheAccount(users: seq<User>, k: nat, password: string)
    requires UniqueEmails(users) && k < |users|
    ensures FindUser(users, users[k].email, password).Some? <==> users[k].password == password
    ensures FindUser(users, users[k].email, password).Some? ==> FindUser(users, users[k].email, password).value == users[k]
  {
  }

  class Auth {
    /** The accounts stored under `weatherAppUsers` (no entry reads as `[]`). */
    var users: seq<User>
    /** The profile stored under `weatherAppUser`. */
    var storedSession: Option<Profile>
    var currentUser: Option<Profile>
    var loading: bool
    var route: string
    var lastToast: Option<Toast>

    /** A signed-in user is also the stored session, and no two stored
        accounts share an email. */
    ghost predicate Valid()
      reads this
    {
      && (currentUser.Some? ==> storedSession == currentUser)
      && UniqueEmails(users)
    }

    /** The first render: nobody signed in yet, and loading. */
    constructor(users: seq<User>, storedSession: Option<Profile>, route: string)
      requires UniqueEmails(users)
      ensures Valid()
      ensures this.users == users && this.storedSession == storedSession && this.route == route
      ensures currentUser.None? && loading && lastToast.None?
    {
      this.users := users;
      this.storedSession := storedSession;
      this.route := route;
      currentUser := None;
      loading := true;
      lastToast := None;
    }

    /** The mount effect: a stored session signs its user in again. */
    method LoadSession()
      modifies this
      requires Valid()
      ensures Valid()
      ensures currentUser == (if storedSession.Some? then storedSession else old(currentUser))
      ensures !loading
      ensures users == old(users) && storedSession == old(storedSession)
      ensures route == old(route) && lastToast == old(lastToast)
    {
      if storedSession.Some? {
        currentUser := storedSession;
      }
      loading := false;
    }

    method Login(email: string, password: string) returns (ok: bool)
      modifies this
      requires Valid()
      ensures Valid()
      ensures var found := FindUser(old(users), email, password);
              && ok == found.Some?
              && users == old(users) && !loading
              && (ok ==> && currentUser == Some(WithoutPassword(found.value))
                         && storedSession == currentUser
                         && route == HomeRoute
                         && lastToast == Some(Toast("Login Successful", "Welcome back!", false)))
              && (!ok ==> && currentUser == old(currentUser) && storedSession == old(storedSession)
                          && route == old(route)
                          && lastToast == Some(Toast("Login Failed", InvalidCredentials, true)))
    {
      loading := true;
      var user := FindUser(users, email, password);
      if user.None? {
        lastToast := Some(Toast("Login Failed", InvalidCredentials, true));
        loading := false;
        return false;
      }
      var profile := WithoutPassword(user.value);
      currentUser := Some(profile);
      storedSession := Some(profile);
      lastToast := Some(Toast("Login Successful", "Welcome back!", false));
      route := HomeRoute;
      loading := false;
      return true;
    }

    /** `register`; the account's id and creation time are the clock's
        readings, passed in. */
    method Register(name: string, email: string, password: string, id: string, createdAt: string)
      returns (ok: bool)
      modifies this
      requires Valid()
      ensures Valid()
      ensures var r := Registered(old(users), name, email, password, id, createdAt);
              && ok == r.Some?
              && !loading
              && (ok ==> && users == r.value
                         && currentUser == Some(Profile(id, name, email, createdAt))
                         && storedSession == currentUser
                         && route == HomeRoute
                         && lastToast == Some(Toast("Registration Successful", "Your account has been created.", false)))
              && (!ok ==> && users == old(users)
                          && currentUser == old(currentUser) && storedSession == old(storedSession)
                          && route == old(route)
                          && lastToast == Some(Toast("Registration Failed", EmailInUse, true)))
    {
      loading := true;
      if EmailTaken(users, email) {
        lastToast := Some(Toast("Registration Failed", EmailInUse, true));
        loading := false;
        return false;
      }
      var newUser := User(id, name, email, password, createdAt);
      users := users + [newUser];
      var profile := WithoutPassword(newUser);
      currentUser := Some(profile);
      storedSession := Some(profile);
      lastToast := Some(Toast("Registration Successful", "Your account has been created.", false));
      route := HomeRoute;
      loading := false;
      return true;
    }

    method Logout()
      modifies this
      requires Valid()
      ensures Valid()
      ensures currentUser.None? && storedSession.None? && route == LoginRoute
      ensures users == old(users) && loading == old(loading)
      ensures lastToast == Some(Toast("Logged Out", "You have been successfully logged out.", false))
    {
      currentUser := None;
      storedSession := None;
      lastToast := Some(Toast("Logged Out", "You have been successfully logged out.", false));
      route := LoginRoute;
    }
  }
}
