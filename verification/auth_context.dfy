/**
 * Authentication: the shared list of registered users and the session the
 * application keeps for the signed-in visitor (`currentUser`, `isLoggedIn`,
 * `isAdmin`), with login, administrator login, logout and registration.
 */
module AuthContext {
  import opened Wrappers
  import opened Types
  import opened Seqs
  import Text

  /** The fixed administrator credentials accepted before the user list is consulted. */
  const AdminEmail := "admin@bangalorewheels.com"
  const AdminPassword := "admin123"

  /** `user${n}`. */
  function UserId(n: nat): string { Text.Id("user", n) }

  /** The module-level `users` array of the mock data. It is one object shared by the
      session and the administrators' user page, and both push into it. */
  class UserDirectory {
    var users: seq<User>

    constructor (initial: seq<User>)
      ensures users == initial
    {
      users := initial;
    }
  }

  /** A stored user with these credentials and this role. */
  function WithCredentials(email: string, password: string, admin: bool): User -> bool {
    (u: User) => u.email == email && u.password == password && u.isAdmin == admin
  }

  function WithEmail(email: string): User -> bool { (u: User) => u.email == email }

  /** The user `login` finds: the first stored non-administrator whose email and password
      both match. */
  function FindLogin(users: seq<User>, email: string, password: string): (r: Option<User>)
    ensures r.Some? <==>
      exists i :: 0 <= i < |users| && users[i].email == email && users[i].password == password && !users[i].isAdmin
    ensures r.Some? ==> r.value in users && r.value.email == email && r.value.password == password && !r.value.isAdmin
  {
    var r := Find(users, WithCredentials(email, password, false));
    assert r.Some? ==> WithCredentials(email, password, false)(r.value);
    r
  }

  /** The stored administrator `loginAsAdmin` falls back to. */
  function FindAdmin(users: seq<User>, email: string, password: string): (r: Option<User>)
    ensures r.Some? <==>
      exists i :: 0 <= i < |users| && users[i].email == email && users[i].password == password && users[i].isAdmin
    ensures r.Some? ==> r.value in users && r.value.email == email && r.value.password == password && r.value.isAdmin
  {
    var r := Find(users, WithCredentials(email, password, true));
    assert r.Some? ==> WithCredentials(email, password, true)(r.value);
    r
  }

  /** The record built for the fixed credentials; it is never stored in the user list. */
  function HardcodedAdmin(now: Instant): (r: User)
    ensures r.id == "admin1" && r.isAdmin && r.email == AdminEmail && r.password == AdminPassword
    ensures r.createdAt == now
  {
    User("admin1", "Admin User", AdminEmail, "9876543210", AdminPassword, true, now)
  }

  /** The user `loginAsAdmin` signs in: the fixed credentials win over the list; otherwise
      a stored administrator with the credentials, or nobody. */
  function AdminLogin(users: seq<User>, email: string, password: string, now: Instant): (r: Option<User>)
    ensures r.Some? ==> r.value.isAdmin && r.value.email == email && r.value.password == password
    ensures email == AdminEmail && password == AdminPassword ==> r == Some(HardcodedAdmin(now))
    ensures r.Some? && r.value.id != "admin1" ==> r.value in users
    ensures r.None? <==>
      !(email == AdminEmail && password == AdminPassword) && FindAdmin(users, email, password).None?
  {
    if email == AdminEmail && password == AdminPassword then Some(HardcodedAdmin(now))
    else FindAdmin(users, email, password)
  }

  /** Some stored user already has the email. */
  predicate EmailTaken(users: seq<User>, email: string) {
    exists i :: 0 <= i < |users| && users[i].email == email
  }

  /** The user `register` creates: the given details, a new id, never an administrator. */
  function NewUser(id: string, name: string, email: string, phone: string, password: string, now: Instant): (r: User)
    ensures r.id == id && !r.isAdmin && r.createdAt == now
    ensures r.name == name && r.email == email && r.phone == phone && r.password == password
  {
    User(id, name, email, phone, password, false, now)
  }

  /** The user list after `register`: nothing when the email is taken, otherwise the list
      with the new user numbered after the current length appended. */
  function Registered(users: seq<User>, name: string, email: string, phone: string, password: string, now: Instant)
    : (r: Option<seq<User>>)
    ensures r.None? <==> EmailTaken(users, email)
    ensures r.Some? ==> |r.value| == |users| + 1 && r.value[..|users|] == users
    ensures r.Some? ==>
      var u := r.value[|users|];
      && u.id == UserId(|users| + 1) && !u.isAdmin && u.createdAt == now
      && u.name == name && u.email == email && u.phone == phone && u.password == password
  {
    if Find(users, WithEmail(email)).Some? then
      assert WithEmail(email)(users[FirstIndex(users, WithEmail(email))]);
      None
    else Some(users + [NewUser(UserId(|users| + 1), name, email, phone, password, now)])
  }

  /** No two stored users share an email. */
  predicate EmailsUnique(users: seq<User>) {
    forall i, j :: 0 <= i < j < |users| ==> users[i].email != users[j].email
  }

  /** Registration keeps emails unique. */
  lemma RegisterKeepsEmailsUnique(users: seq<User>, name: string, email: string, phone: string, password: string, now: Instant)
    requires EmailsUnique(users)
    ensures var r := Registered(users, name, email, phone, password, now);
            r.Some? ==> EmailsUnique(r.value)
  {
    var r := Registered(users, name, email, phone, password, now);
    if r.Some? {
      forall i, j | 0 <= i < j < |r.value| ensures r.value[i].email != r.value[j].email {
        assert r.value[i] == users[i];
        if j < |users| {
          assert r.value[j] == users[j];
        }
      }
    }
  }

  /** With unique emails the two doors are separate: no credentials open both the user
      login and the stored-administrator login. */
  lemma LoginAndAdminLoginExclusive(users: seq<User>, email: string, password: string)
    requires EmailsUnique(users)
    ensures !(FindLogin(users, email, password).Some? && FindAdmin(users, email, password).Some?)
  {
    if FindLogin(users, email, password).Some? {
      var i :| 0 <= i < |users| && users[i].email == email && users[i].password == password && !users[i].isAdmin;
      forall j | 0 <= j < |users| && j != i ensures users[j].email != email {
        if j < i {
          assert users[j].email != users[i].email;
        } else {
          assert users[i].email != users[j].email;
        }
      }
    }
  }

  /** A registered account is never an administrator, so the account just created can
      sign in through `login` and never through the stored-administrator path. */
  lemma RegisteredUserLogsInAsUser(users: seq<User>, name: string, email: string, phone: string, password: string, now: Instant)
    requires EmailsUnique(users)
    ensures var r := Registered(users, name, email, phone, password, now);
            r.Some? ==> FindLogin(r.value, email, password).Some? && FindAdmin(r.value, email, password).None?
  {
    var r := Registered(users, name, email, phone, password, now);
    if r.Some? {
      var k := |users|;
      assert r.value[k].email == email && r.value[k].password == password && !r.value[k].isAdmin;
      RegisterKeepsEmailsUnique(users, name, email, phone, password, now);
      LoginAndAdminLoginExclusive(r.value, email, password);
    }
  }

  /** The signed-in state. */
  class AuthSession {
    const directory: UserDirectory
    var currentUser: Option<User>
    var isLoggedIn: bool
    var isAdmin: bool

    /** `isLoggedIn` says whether somebody is signed in, and `isAdmin` whether that
        somebody is an administrator; in particular `isAdmin` implies `isLoggedIn`. */
    predicate Valid()
      reads this
    {
      && isLoggedIn == currentUser.Some?
      && isAdmin == (currentUser.Some? && currentUser.value.isAdmin)
    }

    constructor (directory: UserDirectory)
      ensures this.directory == directory
      ensures currentUser == None && !isLoggedIn && !isAdmin && Valid()
    {
      this.directory := directory;
      currentUser := None;
      isLoggedIn := false;
      isAdmin := false;
    }

    /** The start-up effect: a user saved by an earlier visit is signed in again, an
        administrator exactly when the saved record says so. */
    method RestoreSession(stored: Option<User>)
      requires Valid()
      modifies this
      ensures Valid()
      ensures stored.Some? ==> currentUser == stored && isLoggedIn && isAdmin == stored.value.isAdmin
      ensures stored.None? ==>
        currentUser == old(currentUser) && isLoggedIn == old(isLoggedIn) && isAdmin == old(isAdmin)
    {
      if stored.Some? {
        currentUser := stored;
        isLoggedIn := true;
        isAdmin := stored.value.isAdmin;
      }
    }

    /** `login`: signs in the first stored non-administrator with these credentials;
        on failure the session is as it was. */
    method Login(email: string, password: string) returns (ok: bool)
      requires Valid()
      modifies this
      ensures Valid()
      ensures var found := FindLogin(directory.users, email, password);
              ok == found.Some? && (ok ==> currentUser == found && isLoggedIn && !isAdmin)
      ensures !ok ==>
        currentUser == old(currentUser) && isLoggedIn == old(isLoggedIn) && isAdmin == old(isAdmin)
    {
      var user := FindLogin(directory.users, email, password);
      if user.Some? {
        currentUser := user;
        isLoggedIn := true;
        isAdmin := false;
        return true;
      }
      return false;
    }

    /** `loginAsAdmin`: the fixed credentials first, then a stored administrator; on
        failure the session is as it was. */
    method LoginAsAdmin(email: string, password: string, now: Instant) returns (ok: bool)
      requires Valid()
      modifies this
      ensures Valid()
      ensures var found := AdminLogin(directory.users, email, password, now);
              ok == found.Some? && (ok ==> currentUser == found && isLoggedIn && isAdmin)
      ensures !ok ==>
        currentUser == old(currentUser) && isLoggedIn == old(isLoggedIn) && isAdmin == old(isAdmin)
    {
      if email == AdminEmail && password == AdminPassword {
        var adminUser := HardcodedAdmin(now);
        currentUser := Some(adminUser);
        isLoggedIn := true;
        isAdmin := true;
        return true;
      }
      var admin := FindAdmin(directory.users, email, password);
      if admin.Some? {
        currentUser := admin;
        isLoggedIn := true;
        isAdmin := true;
        return true;
      }
      return false;
    }

    /** `logout`: nobody is signed in. */
    method Logout()
      modifies this
      ensures Valid()
      ensures currentUser == None && !isLoggedIn && !isAdmin
    {
      currentUser := None;
      isLoggedIn := false;
      isAdmin := false;
    }

    /** `register`: false and no change when the email is taken; otherwise the new user is
        pushed onto the shared list and signed in as a non-administrator. */
    method Register(name: string, email: string, phone: string, password: string, now: Instant)
      returns (ok: bool)
      requires Valid()
      modifies this, directory
      ensures Valid()
      ensures var r := Registered(old(directory.users), name, email, phone, password, now);
              ok == r.Some? && directory.users == (if ok then r.value else old(directory.users))
      ensures ok ==> currentUser == Some(directory.users[|directory.users| - 1]) && isLoggedIn && !isAdmin
      ensures !ok ==>
        currentUser == old(currentUser) && isLoggedIn == old(isLoggedIn) && isAdmin == old(isAdmin)
    {
      var existingUser := Find(directory.users, WithEmail(email));
      if existingUser.Some? {
        return false;
      }
      var newUser := NewUser(UserId(|directory.users| + 1), name, email, phone, password, now);
      directory.users := directory.users + [newUser];
      currentUser := Some(newUser);
      isLoggedIn := true;
      isAdmin := false;
      return true;
    }
  }
}
