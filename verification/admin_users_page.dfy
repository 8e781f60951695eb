/**
 * The administrators' users page: the search over the page's own copy of the
 * user list, and the add, edit and delete dialogs, which change both that copy
 * and the shared `users` list the sign-in code reads.
 */
module AdminUsersPage {
  import opened Wrappers
  import opened Types
  import opened Seqs
  import Text
  import Ids
  import AuthContext

  // ---------------------------------------------------------------- search

  /** The search: name and email ignoring case, phone as typed. */
  predicate MatchesSearch(u: User, term: string) {
    || Text.ContainsIgnoreCase(u.name, term)
    || Text.ContainsIgnoreCase(u.email, term)
    || Text.Contains(u.phone, term)
  }

  /** `filteredUsers`: the users matching the search, in list order. */
  function FilteredUsers(all: seq<User>, term: string): (r: seq<User>)
    ensures forall i :: 0 <= i < |r| ==> MatchesSearch(r[i], term)
    ensures forall i :: 0 <= i < |all| && MatchesSearch(all[i], term) ==> all[i] in r
    ensures IsSubsequence(r, all)
  {
    var p := (u: User) => MatchesSearch(u, term);
    FilterIsSubsequence(all, p);
    Filter(all, p)
  }

  /** An empty search box lists every user, in order. */
  lemma EmptySearchListsAll(all: seq<User>)
    ensures FilteredUsers(all, "") == all
  {
    forall i | 0 <= i < |all| ensures MatchesSearch(all[i], "") {
      Text.ContainsEmpty(all[i].phone);
    }
    FilterKeepsAll(all, (u: User) => MatchesSearch(u, ""));
  }

  // ---------------------------------------------------------------- add

  /** The add dialog's fields. */
  datatype UserForm = UserForm(name: string, email: string, phone: string, password: string, isAdmin: bool)

  /** The dialog's fields when it opens and after a user was added. */
  const EmptyForm := UserForm("", "", "", "", false)

  /** Why "Add User" added nobody. */
  datatype AddRejection = FieldsRequired | EmailInUse

  /** The checks of `handleAddUser`, in order: name, email, phone and password must be
      non-empty (white space counts as content), then no listed user may have the email. */
  function CheckAdd(all: seq<User>, form: UserForm): (r: Option<AddRejection>)
    ensures r == Some(FieldsRequired) <==>
              form.name == "" || form.email == "" || form.phone == "" || form.password == ""
    ensures r.None? <==>
              && form.name != "" && form.email != "" && form.phone != "" && form.password != ""
              && !AuthContext.EmailTaken(all, form.email)
  {
    if form.name == "" || form.email == "" || form.phone == "" || form.password == "" then
      Some(FieldsRequired)
    else if exists i :: 0 <= i < |all| && all[i].email == form.email then
      Some(EmailInUse)
    else None
  }

  /** The user an accepted add creates: the form's fields, the id numbered after the page's
      list, and the creation time. */
  function AddedUser(all: seq<User>, form: UserForm, now: Instant): (u: User)
    ensures u.id == AuthContext.UserId(|all| + 1) && u.createdAt == now
    ensures u.name == form.name && u.email == form.email && u.phone == form.phone
    ensures u.password == form.password && u.isAdmin == form.isAdmin
  {
    User(AuthContext.UserId(|all| + 1), form.name, form.email, form.phone, form.password, form.isAdmin, now)
  }

  /** An accepted add keeps the emails of the page's list unique. */
  lemma AddKeepsEmailsUnique(all: seq<User>, form: UserForm, now: Instant)
    requires AuthContext.EmailsUnique(all) && CheckAdd(all, form).None?
    ensures AuthContext.EmailsUnique(all + [AddedUser(all, form, now)])
  {
    var r := all + [AddedUser(all, form, now)];
    forall i, j | 0 <= i < j < |r| ensures r[i].email != r[j].email {
      assert r[i] == all[i];
      if j < |all| {
        assert r[j] == all[j];
      }
    }
  }

  /** Ids are the list length plus one, so once a user other than the last was deleted the
      next user added gets the id of the current last user. */
  lemma DeleteThenAddRepeatsId(all: seq<User>, k: nat, form: UserForm, now: Instant)
    requires Ids.Canonical(UserIds(all), "user")
    requires k < |all| - 1
    ensures var rest := UsersWithout(all, all[k].id);
            exists j :: 0 <= j < |rest| && rest[j].id == AddedUser(rest, form, now).id
  {
    var ids := UserIds(all);
    Ids.CanonicalUnique(ids, "user");
    forall j | 0 <= j < |all| && j != k ensures OtherThan(all[k].id)(all[j]) {
      assert ids[j] == all[j].id && ids[k] == all[k].id;
    }
    FilterRemovesOne(all, OtherThan(all[k].id), k);
    var rest := UsersWithout(all, all[k].id);
    assert rest[|rest| - 1] == all[|all| - 1];
    assert ids[|all| - 1] == all[|all| - 1].id;
  }

  // ---------------------------------------------------------------- update and delete

  function UserIds(users: seq<User>): seq<string> {
    Map(users, (u: User) => u.id)
  }

  function HasId(id: string): User -> bool { (u: User) => u.id == id }

  function OtherThan(id: string): User -> bool { (u: User) => u.id != id }

  /** `allUsers.map(u => u.id === edited.id ? edited : u)`: every user with the id replaced. */
  function UsersReplaced(users: seq<User>, edited: User): (r: seq<User>)
    ensures |r| == |users|
    ensures forall i :: 0 <= i < |r| ==> r[i] == if users[i].id == edited.id then edited else users[i]
  {
    Map(users, (u: User) => if u.id == edited.id then edited else u)
  }

  /** `allUsers.filter(u => u.id !== id)`: every user with the id removed. */
  function UsersWithout(users: seq<User>, id: string): (r: seq<User>)
    ensures forall i :: 0 <= i < |r| ==> r[i].id != id
    ensures forall i :: 0 <= i < |users| && users[i].id != id ==> users[i] in r
    ensures IsSubsequence(r, users)
  {
    FilterIsSubsequence(users, OtherThan(id));
    Filter(users, OtherThan(id))
  }

  /** `users[users.findIndex(u => u.id === edited.id)] = edited`: only the first user with
      the id replaced, nothing when there is none. */
  function FirstReplaced(users: seq<User>, edited: User): (r: seq<User>)
    ensures |r| == |users|
    ensures var k := FirstIndex(users, HasId(edited.id));
            forall i :: 0 <= i < |r| ==> r[i] == if i == k then edited else users[i]
  {
    var k := FirstIndex(users, HasId(edited.id));
    if k < 0 then users else users[k := edited]
  }

  /** `users.splice(users.findIndex(u => u.id === id), 1)`: only the first user with the id
      removed, nothing when there is none. */
  function FirstRemoved(users: seq<User>, id: string): seq<User> {
    var k := FirstIndex(users, HasId(id));
    if k < 0 then users else users[..k] + users[k + 1..]
  }

  /** With unique ids the page's update and the shared list's update agree: replacing every
      user with the id is replacing the first. */
  lemma UniqueIdsReplaceAlike(users: seq<User>, edited: User)
    requires Ids.Unique(UserIds(users))
    ensures UsersReplaced(users, edited) == FirstReplaced(users, edited)
  {
    var k := FirstIndex(users, HasId(edited.id));
    forall i | 0 <= i < |users| && users[i].id == edited.id ensures i == k {
      assert HasId(edited.id)(users[i]);
      assert UserIds(users)[i] == users[i].id && UserIds(users)[k] == users[k].id;
    }
  }

  /** With unique ids the page's delete and the shared list's delete agree: removing every
      user with the id is removing the first. */
  lemma UniqueIdsRemoveAlike(users: seq<User>, id: string)
    requires Ids.Unique(UserIds(users))
    ensures UsersWithout(users, id) == FirstRemoved(users, id)
  {
    var k := FirstIndex(users, HasId(id));
    if k < 0 {
      FilterKeepsAll(users, OtherThan(id));
    } else {
      forall i | 0 <= i < |users| && i != k ensures OtherThan(id)(users[i]) {
        assert UserIds(users)[i] == users[i].id && UserIds(users)[k] == users[k].id;
      }
      FilterRemovesOne(users, OtherThan(id), k);
    }
  }

  /** With a repeated id the two copies part: the page replaces both users with the id, the
      shared list only the first. */
  lemma RepeatedIdReplacesApart(users: seq<User>, i: nat, j: nat, edited: User)
    requires i < j < |users| && users[i].id == users[j].id == edited.id && users[j] != edited
    ensures UsersReplaced(users, edited)[j] == edited
    ensures FirstReplaced(users, edited)[j] == users[j]
  {
    assert HasId(edited.id)(users[i]);
  }

  /** The edit dialog checks nothing: saving an email another user has leaves two users with
      that email. */
  lemma EditCanDuplicateEmail(users: seq<User>, i: nat, j: nat)
    requires i < |users| && j < |users| && i != j
    requires forall k :: 0 <= k < |users| && k != i ==> users[k].id != users[i].id
    ensures var edited := users[i].(email := users[j].email);
            var r := UsersReplaced(users, edited);
            r[i].email == r[j].email
  {
  }

  // ---------------------------------------------------------------- the page

  /** The delete button of a row is disabled on the signed-in user's own row; with nobody
      signed in it is enabled everywhere. */
  predicate DeleteEnabled(u: User, currentUser: Option<User>) {
    currentUser.None? || u.id != currentUser.value.id
  }

  /** The edit dialog's "Is Admin User" box is disabled when editing oneself. */
  predicate AdminBoxEnabled(selected: User, currentUser: Option<User>) {
    currentUser.None? || selected.id != currentUser.value.id
  }

  /** The page's state. `allUsers` starts as the shared list; the two are then kept apart
      and changed together. */
  class AdminUsersView {
    const directory: AuthContext.UserDirectory
    var allUsers: seq<User>
    var newUser: UserForm
    var selectedUser: Option<User>
    var isAddUserOpen: bool
    var isEditUserOpen: bool
    var isDeleteUserOpen: bool

    constructor (directory: AuthContext.UserDirectory)
      ensures this.directory == directory && allUsers == directory.users
      ensures newUser == EmptyForm && selectedUser == None
      ensures !isAddUserOpen && !isEditUserOpen && !isDeleteUserOpen
    {
      this.directory := directory;
      allUsers := directory.users;
      newUser := EmptyForm;
      selectedUser := None;
      isAddUserOpen := false;
      isEditUserOpen := false;
      isDeleteUserOpen := false;
    }

    /** `handleAddUser`: a rejected add changes nothing; an accepted one appends the new user
        to the page's list and pushes it onto the shared list, clears the form and closes the
        dialog. */
    method HandleAddUser(now: Instant) returns (rejected: Option<AddRejection>)
      modifies this, directory
      ensures rejected == CheckAdd(old(allUsers), old(newUser))
      ensures rejected.Some? ==>
        && allUsers == old(allUsers) && directory.users == old(directory.users)
        && newUser == old(newUser) && isAddUserOpen == old(isAddUserOpen)
      ensures rejected.None? ==>
        var u := AddedUser(old(allUsers), old(newUser), now);
        && allUsers == old(allUsers) + [u] && directory.users == old(directory.users) + [u]
        && newUser == EmptyForm && !isAddUserOpen
      ensures selectedUser == old(selectedUser) && isEditUserOpen == old(isEditUserOpen)
      ensures isDeleteUserOpen == old(isDeleteUserOpen)
    {
      if newUser.name == "" || newUser.email == "" || newUser.phone == "" || newUser.password == "" {
        return Some(FieldsRequired);
      }
      var email := newUser.email;
      var existing := Find(allUsers, (u: User) => u.email == email);
      if existing.Some? {
        return Some(EmailInUse);
      }
      var user := AddedUser(allUsers, newUser, now);
      allUsers := allUsers + [user];
      directory.users := directory.users + [user];
      newUser := EmptyForm;
      isAddUserOpen := false;
      return None;
    }

    /** The row's edit button: the dialog opens on a copy of the user. */
    method OpenEditDialog(u: User)
      modifies this
      ensures selectedUser == Some(u) && isEditUserOpen
      ensures allUsers == old(allUsers) && newUser == old(newUser)
      ensures isAddUserOpen == old(isAddUserOpen) && isDeleteUserOpen == old(isDeleteUserOpen)
    {
      selectedUser := Some(u);
      isEditUserOpen := true;
    }

    /** The edit dialog's name, email and phone inputs. */
    method EditDetails(name: string, email: string, phone: string)
      requires selectedUser.Some?
      modifies this
      ensures selectedUser == Some(old(selectedUser).value.(name := name, email := email, phone := phone))
      ensures allUsers == old(allUsers) && newUser == old(newUser) && isEditUserOpen == old(isEditUserOpen)
      ensures isAddUserOpen == old(isAddUserOpen) && isDeleteUserOpen == old(isDeleteUserOpen)
    {
      selectedUser := Some(selectedUser.value.(name := name, email := email, phone := phone));
    }

    /** The edit dialog's "Is Admin User" box, which cannot be used on oneself. */
    method EditAdmin(isAdmin: bool, currentUser: Option<User>)
      requires selectedUser.Some? && AdminBoxEnabled(selectedUser.value, currentUser)
      modifies this
      ensures selectedUser == Some(old(selectedUser).value.(isAdmin := isAdmin))
      ensures allUsers == old(allUsers) && newUser == old(newUser) && isEditUserOpen == old(isEditUserOpen)
      ensures isAddUserOpen == old(isAddUserOpen) && isDeleteUserOpen == old(isDeleteUserOpen)
    {
      selectedUser := Some(selectedUser.value.(isAdmin := isAdmin));
    }

    /** `handleUpdateUser`: nothing without a selected user; otherwise every user with its id
        is replaced in the page's list, the first one in the shared list, and the dialog
        closes. Both lists keep their lengths. */
    method HandleUpdateUser()
      modifies this, directory
      ensures old(selectedUser).None? ==>
        allUsers == old(allUsers) && directory.users == old(directory.users) && isEditUserOpen == old(isEditUserOpen)
      ensures old(selectedUser).Some? ==>
        && allUsers == UsersReplaced(old(allUsers), old(selectedUser).value)
        && directory.users == FirstReplaced(old(directory.users), old(selectedUser).value)
        && !isEditUserOpen
      ensures |allUsers| == |old(allUsers)| && |directory.users| == |old(directory.users)|
      ensures selectedUser == old(selectedUser) && newUser == old(newUser)
      ensures isAddUserOpen == old(isAddUserOpen) && isDeleteUserOpen == old(isDeleteUserOpen)
    {
      if selectedUser.None? {
        return;
      }
      var edited := selectedUser.value;
      allUsers := UsersReplaced(allUsers, edited);
      var index := FirstIndex(directory.users, HasId(edited.id));
      if index != -1 {
        directory.users := directory.users[index := edited];
      }
      isEditUserOpen := false;
    }

    /** The row's delete button, enabled on every row but the signed-in user's own. */
    method OpenDeleteDialog(u: User, currentUser: Option<User>)
      requires DeleteEnabled(u, currentUser)
      modifies this
      ensures selectedUser == Some(u) && isDeleteUserOpen
      ensures allUsers == old(allUsers) && newUser == old(newUser)
      ensures isAddUserOpen == old(isAddUserOpen) && isEditUserOpen == old(isEditUserOpen)
    {
      selectedUser := Some(u);
      isDeleteUserOpen := true;
    }

    /** `handleDeleteUser`: nothing without a selected user; otherwise every user with its id
        leaves the page's list, the first one leaves the shared list, and the dialog closes. */
    method HandleDeleteUser()
      modifies this, directory
      ensures old(selectedUser).None? ==>
        allUsers == old(allUsers) && directory.users == old(directory.users) && isDeleteUserOpen == old(isDeleteUserOpen)
      ensures old(selectedUser).Some? ==>
        && allUsers == UsersWithout(old(allUsers), old(selectedUser).value.id)
        && directory.users == FirstRemoved(old(directory.users), old(selectedUser).value.id)
        && !isDeleteUserOpen
      ensures selectedUser == old(selectedUser) && newUser == old(newUser)
      ensures isAddUserOpen == old(isAddUserOpen) && isEditUserOpen == old(isEditUserOpen)
    {
      if selectedUser.None? {
        return;
      }
      var id := selectedUser.value.id;
      allUsers := UsersWithout(allUsers, id);
      var index := FirstIndex(directory.users, HasId(id));
      if index != -1 {
        directory.users := directory.users[..index] + directory.users[index + 1..];
      }
      isDeleteUserOpen := false;
    }
  }

  /** A delete opened from an enabled button never removes the signed-in user: every listed
      user with the signed-in id stays. */
  lemma SignedInUserSurvivesDelete(users: seq<User>, selected: User, currentUser: Option<User>)
    requires currentUser.Some? && DeleteEnabled(selected, currentUser)
    ensures forall i :: 0 <= i < |users| && users[i].id == currentUser.value.id ==>
              users[i] in UsersWithout(users, selected.id)
  {
  }
}
