/**
 * The administrator's actions on users and groups. A user belongs to at most
 * one group through a nullable `groupId` that must name an existing group;
 * e-mail addresses are unique. Every action is refused unless the session
 * user is an ADMIN.
 */
module Admin {
  import opened Wrappers
  import Session

  datatype User = User(email: string, password: string, name: string, role: Session.Role, groupId: Option<string>)

  datatype Group = Group(name: string, description: Option<string>)

  datatype AdminStore = AdminStore(users: map<string, User>, groups: map<string, Group>)

  datatype AdminError =
    | NotAuthorized   // "Non autorisé"
    | NotFound        // the database finds no row with that id
    | UnknownGroup    // the database refuses a groupId naming no group
    | EmailTaken      // "Un utilisateur avec cet email existe déjà"
    | SelfDelete      // "Vous ne pouvez pas supprimer votre propre compte"

  /** Every user's group exists. */
  predicate GroupsResolve(st: AdminStore) {
    forall u :: u in st.users && st.users[u].groupId.Some? ==> st.users[u].groupId.value in st.groups
  }

  /** No two users share an e-mail address. */
  predicate EmailsUnique(st: AdminStore) {
    forall u, v :: u in st.users && v in st.users && st.users[u].email == st.users[v].email ==> u == v
  }

  predicate Valid(st: AdminStore) {
    GroupsResolve(st) && EmailsUnique(st)
  }

  /** The users whose group is `g`. */
  function Members(st: AdminStore, g: string): set<string> {
    set u | u in st.users && st.users[u].groupId == Some(g)
  }

  /* -------------------------------- Groups -------------------------------- */

  /** `createGroupAction`: one new group under the fresh id `newId`. */
  function CreateGroup(st: AdminStore, session: Session.MaybeSession, newId: string, name: string, description: Option<string>)
    : (r: Result<AdminStore, AdminError>)
    requires newId !in st.groups
    ensures !Session.IsAdmin(session) <==> r == Err(NotAuthorized)
    ensures r.Ok? ==> r.value.users == st.users && r.value.groups == st.groups[newId := Group(name, description)]
    ensures r.Ok? ==> |r.value.groups| == |st.groups| + 1
  {
    if !Session.IsAdmin(session) then Err(NotAuthorized)
    else Ok(st.(groups := st.groups[newId := Group(name, description)]))
  }

  /** Sets one user's group (or clears it), checking the user and the group exist. */
  function SetGroup(st: AdminStore, userId: string, groupId: Option<string>): (r: Result<AdminStore, AdminError>)
    ensures userId !in st.users <==> r == Err(NotFound)
    ensures r == Err(UnknownGroup) <==> userId in st.users && groupId.Some? && groupId.value !in st.groups
    ensures r.Ok? ==>
      && r.value.groups == st.groups
      && r.value.users == st.users[userId := st.users[userId].(groupId := groupId)]
  {
    if userId !in st.users then Err(NotFound)
    else if groupId.Some? && groupId.value !in st.groups then Err(UnknownGroup)
    else Ok(st.(users := st.users[userId := st.users[userId].(groupId := groupId)]))
  }

  /** `addUserToGroupAction`: the user's one group becomes `groupId`. */
  function AddUserToGroup(st: AdminStore, session: Session.MaybeSession, userId: string, groupId: string)
    : (r: Result<AdminStore, AdminError>)
    ensures !Session.IsAdmin(session) ==> r == Err(NotAuthorized)
    ensures Session.IsAdmin(session) ==> r == SetGroup(st, userId, Some(groupId))
  {
    if !Session.IsAdmin(session) then Err(NotAuthorized) else SetGroup(st, userId, Some(groupId))
  }

  /** Joining a group moves the user out of any group they were in; nobody else moves. */
  lemma AddMovesUser(st: AdminStore, session: Session.MaybeSession, userId: string, groupId: string, other: string)
    requires AddUserToGroup(st, session, userId, groupId).Ok?
    requires other != groupId
    ensures var st' := AddUserToGroup(st, session, userId, groupId).value;
      && Members(st', groupId) == Members(st, groupId) + {userId}
      && Members(st', other) == Members(st, other) - {userId}
  {
  }

  /** `removeUserFromGroupAction`: the user's group is cleared. */
  function RemoveUserFromGroup(st: AdminStore, session: Session.MaybeSession, userId: string)
    : (r: Result<AdminStore, AdminError>)
    ensures !Session.IsAdmin(session) ==> r == Err(NotAuthorized)
    ensures Session.IsAdmin(session) ==> (r.Ok? <==> userId in st.users)
    ensures r.Ok? ==>
      && r.value.groups == st.groups
      && r.value.users == st.users[userId := st.users[userId].(groupId := None)]
  {
    if !Session.IsAdmin(session) then Err(NotAuthorized) else SetGroup(st, userId, None)
  }

  /** Adding a user to a group and removing them again leaves the user in no group. */
  lemma AddThenRemove(st: AdminStore, session: Session.MaybeSession, userId: string, groupId: string)
    requires AddUserToGroup(st, session, userId, groupId).Ok?
    ensures var st' := RemoveUserFromGroup(AddUserToGroup(st, session, userId, groupId).value, session, userId);
      && st'.Ok?
      && st'.value.users[userId].groupId.None?
      && st'.value == RemoveUserFromGroup(st, session, userId).value
  {
    var st1 := AddUserToGroup(st, session, userId, groupId).value;
    assert st1.users[userId := st1.users[userId].(groupId := None)]
        == st.users[userId := st.users[userId].(groupId := None)];
  }

  /** `updateMany({ where: { groupId }, data: { groupId: null } })` */
  function ClearGroup(users: map<string, User>, groupId: string): (r: map<string, User>)
    ensures r.Keys == users.Keys
    ensures forall u :: u in users ==>
      r[u] == if users[u].groupId == Some(groupId) then users[u].(groupId := None) else users[u]
  {
    map u | u in users :: if users[u].groupId == Some(groupId) then users[u].(groupId := None) else users[u]
  }

  /**
   * `deleteGroupAction`: first every member's group is cleared, then the group
   * is deleted. The two writes are separate; the second fails for an unknown
   * group.
   */
  function DeleteGroup(st: AdminStore, session: Session.MaybeSession, groupId: string): (r: Result<AdminStore, AdminError>)
    ensures !Session.IsAdmin(session) ==> r == Err(NotAuthorized)
    ensures Session.IsAdmin(session) ==> (r.Ok? <==> groupId in st.groups)
    ensures Session.IsAdmin(session) && groupId !in st.groups ==> r == Err(NotFound)
    ensures r.Ok? ==>
      && r.value.groups == st.groups - {groupId}
      && r.value.users.Keys == st.users.Keys
      && Members(r.value, groupId) == {}
      && (forall u :: u in st.users && st.users[u].groupId != Some(groupId) ==> r.value.users[u] == st.users[u])
      && (forall u :: u in st.users && st.users[u].groupId == Some(groupId) ==> r.value.users[u].groupId.None?)
  {
    if !Session.IsAdmin(session) then Err(NotAuthorized)
    else
      var cleared := ClearGroup(st.users, groupId);
      if groupId !in st.groups then Err(NotFound)
      else Ok(AdminStore(cleared, st.groups - {groupId}))
  }

  /**
   * The failed delete of an unknown group has already run its first write,
   * but in a store whose groups resolve that write changes nothing.
   */
  lemma ClearingUnknownGroupChangesNothing(st: AdminStore, groupId: string)
    requires GroupsResolve(st) && groupId !in st.groups
    ensures ClearGroup(st.users, groupId) == st.users
  {
  }

  /** `updateGroupAction`: the fields present in the patch replace the group's, the others stay. */
  function UpdateGroup(st: AdminStore, session: Session.MaybeSession, groupId: string, name: Option<string>, description: Option<string>)
    : (r: Result<AdminStore, AdminError>)
    ensures !Session.IsAdmin(session) ==> r == Err(NotAuthorized)
    ensures Session.IsAdmin(session) ==> (r.Ok? <==> groupId in st.groups)
    ensures r.Ok? ==>
      && r.value.users == st.users
      && r.value.groups.Keys == st.groups.Keys
      && (forall g :: g in st.groups && g != groupId ==> r.value.groups[g] == st.groups[g])
      && r.value.groups[groupId].name == name.GetOr(st.groups[groupId].name)
      && r.value.groups[groupId].description == (if description.Some? then description else st.groups[groupId].description)
  {
    if !Session.IsAdmin(session) then Err(NotAuthorized)
    else if groupId !in st.groups then Err(NotFound)
    else
      var g := st.groups[groupId];
      var g' := g.(name := name.GetOr(g.name), description := if description.Some? then description else g.description);
      Ok(st.(groups := st.groups[groupId := g']))
  }

  /** An empty patch changes nothing. */
  lemma EmptyPatchIsIdentity(st: AdminStore, session: Session.MaybeSession, groupId: string)
    requires Session.IsAdmin(session) && groupId in st.groups
    ensures UpdateGroup(st, session, groupId, None, None) == Ok(st)
  {
    assert st.groups[groupId := st.groups[groupId]] == st.groups;
  }

  /* --------------------------------- Users -------------------------------- */

  /** `assignUserToGroup`: a null or empty group id clears the group. */
  function AssignUserToGroup(st: AdminStore, session: Session.MaybeSession, userId: string, groupId: Option<string>)
    : (r: Result<AdminStore, AdminError>)
    ensures !Session.IsAdmin(session) ==> r == Err(NotAuthorized)
    ensures Session.IsAdmin(session) ==> r == SetGroup(st, userId, OrNull(groupId))
    ensures r.Ok? ==> r.value.users[userId].groupId == (if Truthy(groupId) then groupId else None)
  {
    if !Session.IsAdmin(session) then Err(NotAuthorized) else SetGroup(st, userId, OrNull(groupId))
  }

  /** Assigning the empty group id is removing the user from their group. */
  lemma AssignEmptyIsRemove(st: AdminStore, session: Session.MaybeSession, userId: string)
    ensures AssignUserToGroup(st, session, userId, Some("")) == RemoveUserFromGroup(st, session, userId)
    ensures AssignUserToGroup(st, session, userId, None) == RemoveUserFromGroup(st, session, userId)
  {
  }

  predicate EmailInUse(st: AdminStore, email: string) {
    exists u :: u in st.users && st.users[u].email == email
  }

  /**
   * `createUser`: refused when the e-mail is taken; otherwise one new user
   * under the fresh id `newId`, with no group, storing `hash(password)`.
   * The hash function is a parameter.
   */
  function CreateUser(st: AdminStore, session: Session.MaybeSession, newId: string, email: string, password: string,
                      name: string, role: Session.Role, hash: string -> string): (r: Result<AdminStore, AdminError>)
    requires newId !in st.users
    ensures !Session.IsAdmin(session) ==> r == Err(NotAuthorized)
    ensures Session.IsAdmin(session) ==> (r == Err(EmailTaken) <==> EmailInUse(st, email))
    ensures r.Ok? ==>
      && r.value.groups == st.groups
      && r.value.users == st.users[newId := User(email, hash(password), name, role, None)]
      && |r.value.users| == |st.users| + 1
  {
    if !Session.IsAdmin(session) then Err(NotAuthorized)
    else if EmailInUse(st, email) then Err(EmailTaken)
    else Ok(st.(users := st.users[newId := User(email, hash(password), name, role, None)]))
  }

  /** A second account with the same e-mail is refused. */
  lemma CreateTwiceRefused(st: AdminStore, session: Session.MaybeSession, id1: string, id2: string, email: string,
                           p1: string, p2: string, n1: string, n2: string, r1: Session.Role, r2: Session.Role, hash: string -> string)
    requires id1 !in st.users && id2 != id1 && id2 !in st.users
    requires CreateUser(st, session, id1, email, p1, n1, r1, hash).Ok?
    ensures CreateUser(CreateUser(st, session, id1, email, p1, n1, r1, hash).value, session, id2, email, p2, n2, r2, hash)
            == Err(EmailTaken)
  {
    var st1 := CreateUser(st, session, id1, email, p1, n1, r1, hash).value;
    assert st1.users[id1].email == email;
  }

  /** `deleteUser`: an admin cannot delete their own account; otherwise only that user goes. */
  function DeleteUser(st: AdminStore, session: Session.MaybeSession, userId: string): (r: Result<AdminStore, AdminError>)
    ensures !Session.IsAdmin(session) ==> r == Err(NotAuthorized)
    ensures Session.IsAdmin(session) && session.value.id == userId ==> r == Err(SelfDelete)
    ensures Session.IsAdmin(session) && session.value.id != userId ==> (r.Ok? <==> userId in st.users)
    ensures r.Ok? ==> r.value.groups == st.groups && r.value.users == st.users - {userId}
  {
    if !Session.IsAdmin(session) then Err(NotAuthorized)
    else if session.value.id == userId then Err(SelfDelete)
    else if userId !in st.users then Err(NotFound)
    else Ok(st.(users := st.users - {userId}))
  }

  /** `updateUserPassword`: only the password changes, to the hash of the new one. */
  function UpdateUserPassword(st: AdminStore, session: Session.MaybeSession, userId: string, newPassword: string,
                              hash: string -> string): (r: Result<AdminStore, AdminError>)
    ensures !Session.IsAdmin(session) ==> r == Err(NotAuthorized)
    ensures Session.IsAdmin(session) ==> (r.Ok? <==> userId in st.users)
    ensures r.Ok? ==>
      && r.value.groups == st.groups
      && r.value.users == st.users[userId := st.users[userId].(password := hash(newPassword))]
  {
    if !Session.IsAdmin(session) then Err(NotAuthorized)
    else if userId !in st.users then Err(NotFound)
    else Ok(st.(users := st.users[userId := st.users[userId].(password := hash(newPassword))]))
  }

  /* ------------------------------ Invariant ------------------------------- */

  /** One administrator action, with its arguments. */
  datatype Action =
    | CreateGroupAction(newGroupId: string, name: string, description: Option<string>)
    | AddToGroupAction(userId: string, groupId: string)
    | RemoveFromGroupAction(userId: string)
    | DeleteGroupAction(groupId: string)
    | UpdateGroupAction(groupId: string, newName: Option<string>, newDescription: Option<string>)
    | AssignGroupAction(userId: string, maybeGroupId: Option<string>)
    | CreateUserAction(newUserId: string, email: string, password: string, userName: string, role: Session.Role)
    | DeleteUserAction(userId: string)
    | UpdatePasswordAction(userId: string, newPassword: string)

  /** The action's id is fresh where it creates something. */
  predicate Fresh(st: AdminStore, a: Action) {
    match a
    case CreateGroupAction(g, _, _) => g !in st.groups
    case CreateUserAction(u, _, _, _, _) => u !in st.users
    case _ => true
  }

  function Apply(st: AdminStore, session: Session.MaybeSession, a: Action, hash: string -> string): Result<AdminStore, AdminError>
    requires Fresh(st, a)
  {
    match a
    case CreateGroupAction(g, n, d) => CreateGroup(st, session, g, n, d)
    case AddToGroupAction(u, g) => AddUserToGroup(st, session, u, g)
    case RemoveFromGroupAction(u) => RemoveUserFromGroup(st, session, u)
    case DeleteGroupAction(g) => DeleteGroup(st, session, g)
    case UpdateGroupAction(g, n, d) => UpdateGroup(st, session, g, n, d)
    case AssignGroupAction(u, g) => AssignUserToGroup(st, session, u, g)
    case CreateUserAction(u, e, p, n, r) => CreateUser(st, session, u, e, p, n, r, hash)
    case DeleteUserAction(u) => DeleteUser(st, session, u)
    case UpdatePasswordAction(u, p) => UpdateUserPassword(st, session, u, p, hash)
  }

  /** No action of a non-admin (or of nobody) succeeds. */
  lemma NonAdminRefused(st: AdminStore, session: Session.MaybeSession, a: Action, hash: string -> string)
    requires Fresh(st, a) && !Session.IsAdmin(session)
    ensures Apply(st, session, a, hash) == Err(NotAuthorized)
  {
  }

  /** Changing anything but e-mails, without adding users, keeps e-mails unique. */
  lemma EmailsKept(st: AdminStore, st': AdminStore)
    requires EmailsUnique(st)
    requires st'.users.Keys <= st.users.Keys
    requires forall u :: u in st'.users ==> st'.users[u].email == st.users[u].email
    ensures EmailsUnique(st')
  {
    forall x, y | x in st'.users && y in st'.users && st'.users[x].email == st'.users[y].email
      ensures x == y
    {
      assert st.users[x].email == st.users[y].email;
    }
  }

  /** A new user with an unused e-mail keeps e-mails unique. */
  lemma CreateUserKeepsValid(st: AdminStore, session: Session.MaybeSession, u: string, e: string, p: string,
                             n: string, role: Session.Role, hash: string -> string)
    requires Valid(st) && u !in st.users
    requires CreateUser(st, session, u, e, p, n, role, hash).Ok?
    ensures Valid(CreateUser(st, session, u, e, p, n, role, hash).value)
  {
    var st' := CreateUser(st, session, u, e, p, n, role, hash).value;
    assert !EmailInUse(st, e);
    forall x, y | x in st'.users && y in st'.users && st'.users[x].email == st'.users[y].email
      ensures x == y
    {
      if x != u && y != u {
        assert st.users[x].email == st.users[y].email;
      }
    }
  }

  /** Deleting a group clears exactly its members, so every remaining group id still resolves. */
  lemma DeleteGroupKeepsValid(st: AdminStore, session: Session.MaybeSession, g: string)
    requires Valid(st)
    requires DeleteGroup(st, session, g).Ok?
    ensures Valid(DeleteGroup(st, session, g).value)
  {
    var st' := DeleteGroup(st, session, g).value;
    forall x | x in st'.users && st'.users[x].groupId.Some?
      ensures st'.users[x].groupId.value in st'.groups
    {
      assert st.users[x].groupId.Some?;
    }
    EmailsKept(st, st');
  }

  /** Setting a user's group to an existing group, or to none, keeps the store valid. */
  lemma SetGroupKeepsValid(st: AdminStore, u: string, g: Option<string>)
    requires Valid(st)
    requires SetGroup(st, u, g).Ok?
    ensures Valid(SetGroup(st, u, g).value)
  {
    EmailsKept(st, SetGroup(st, u, g).value);
  }

  /** Every successful action keeps groups resolving and e-mails unique. */
  lemma ApplyPreservesValid(st: AdminStore, session: Session.MaybeSession, a: Action, hash: string -> string)
    requires Valid(st) && Fresh(st, a)
    requires Apply(st, session, a, hash).Ok?
    ensures Valid(Apply(st, session, a, hash).value)
  {
    var st' := Apply(st, session, a, hash).value;
    match a
    case CreateGroupAction(g, n, d) =>
    case AddToGroupAction(u, g) => SetGroupKeepsValid(st, u, Some(g));
    case RemoveFromGroupAction(u) => SetGroupKeepsValid(st, u, None);
    case DeleteGroupAction(g) => DeleteGroupKeepsValid(st, session, g);
    case UpdateGroupAction(g, n, d) =>
    case AssignGroupAction(u, g) => SetGroupKeepsValid(st, u, OrNull(g));
    case CreateUserAction(u, e, p, n, r) => CreateUserKeepsValid(st, session, u, e, p, n, r, hash);
    case DeleteUserAction(u) => EmailsKept(st, st');
    case UpdatePasswordAction(u, p) => EmailsKept(st, st');
  }
}
