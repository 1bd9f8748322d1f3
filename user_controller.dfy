/** The user-management handlers (Backend/src/controller/UserController.js): create, update,
    delete and activate/deactivate. `caller` and `callerRole` are `req.user._id` and
    `req.user.role`, the account the token middleware loaded. Each handler's decision is a
    function of the collection and the request; the method applies it. */
module UserController {
  import opened Common
  import opened Text
  import opened Identity
  import Store
  import ErrorHandler

  /** The fields the handlers destructure from `req.body`. */
  datatype UserBody = UserBody(
    username: Option<string>,
    email: Option<string>,
    password: Option<string>,
    firstName: Option<string>,
    lastName: Option<string>,
    phone: Option<string>,
    role: Option<string>,
    isActive: Option<bool>)

  // ---------------------------------------------------------------- createUser

  /** The six fields `createUser` insists on. */
  predicate CreateFieldsGiven(body: UserBody) {
    Truthy(body.username) && Truthy(body.email) && Truthy(body.password)
    && Truthy(body.firstName) && Truthy(body.lastName) && Truthy(body.role)
  }

  /** `findOne({ $or: [{ username }, { email }] })` with the values as sent. */
  predicate UserExists(users: map<Id, User>, username: string, email: string) {
    exists o | o in users :: users[o].username == username || users[o].email == email
  }

  /** The document `User.create` builds: the setters trim (and lower-case the email), the
      password is still the plaintext, `isActive` defaults to true. */
  function NewUser(body: UserBody, caller: Id): (u: User)
    requires CreateFieldsGiven(body)
    ensures u.password == body.password.value && u.role == body.role.value
    ensures Lower(u.email) == u.email
    ensures u.isActive == body.isActive.GetOr(true) && u.createdBy == Some(caller)
    ensures u.lastlogin.None? && u.updatedBy.None?
  {
    User(Trim(body.username.value), EmailSetter(body.email.value), body.password.value,
         Some(Trim(body.firstName.value)), Trim(body.lastName.value), body.role.value,
         body.isActive.GetOr(true), TrimOption(body.phone), None, Some(caller), None)
  }

  /** What `createUser` answers. The response is the saved document itself: the schema
      defines `toJson`, not the `toJSON` that serialisation calls, so the hash is sent back. */
  function CreateOutcome(users: map<Id, User>, body: UserBody, caller: Id, newId: Id, hash: string)
    : (r: Outcome<User>)
    ensures r.status in {CREATED, BAD_REQUEST}
    ensures r.data.Some? <==> r.status == CREATED
    ensures !CreateFieldsGiven(body) ==> r == Outcome(BAD_REQUEST, None)
    ensures CreateFieldsGiven(body) && UserExists(users, body.username.value, body.email.value) ==>
      r.status == BAD_REQUEST
    ensures r.status == CREATED ==> (CreateFieldsGiven(body)
      && !UserExists(users, body.username.value, body.email.value)
      && UserErrors(NewUser(body, caller)) == []
      && r.data.value == NewUser(body, caller).(password := hash))
    ensures r.status == CREATED ==> ParseRole(r.data.value.role).Some? && |body.password.value| >= PASSWORD_MIN
  {
    if !CreateFieldsGiven(body) then Outcome(BAD_REQUEST, None)
    else if UserExists(users, body.username.value, body.email.value) then Outcome(BAD_REQUEST, None)
    else
      var u := NewUser(body, caller);
      var saved := UserSave(users, newId, u, Some(hash));
      if saved.Failed? then Outcome(ErrorHandler.StatusOf(saved.error), None)
      else
        UserErrorsSpec(u);
        Outcome(CREATED, Some(saved.record))
  }

  /** A request with all six fields, none of them already taken as sent, is created exactly
      when the document validates and its trimmed username and email are free. */
  lemma CreatedExactly(users: map<Id, User>, body: UserBody, caller: Id, newId: Id, hash: string)
    requires newId !in users
    requires CreateFieldsGiven(body) && !UserExists(users, body.username.value, body.email.value)
    ensures CreateOutcome(users, body, caller, newId, hash).status == CREATED <==>
      UserErrors(NewUser(body, caller)) == []
      && !UserExists(users, NewUser(body, caller).username, NewUser(body, caller).email)
  {
    var u := NewUser(body, caller);
    var saved := UserSave(users, newId, u, Some(hash));
    assert CreateOutcome(users, body, caller, newId, hash).status == CREATED <==> saved.Saved?;
    assert saved.Saved? <==> UserErrors(u) == [] && !UserExists(users, u.username, u.email) by {
      if UserExists(users, u.username, u.email) {
        var o :| o in users && (users[o].username == u.username || users[o].email == u.email);
        assert o != newId;
      }
    }
  }

  lemma CreateKeepsUsersOk(users: map<Id, User>, body: UserBody, caller: Id, newId: Id, hash: string, created: User)
    requires UsersOk(users) && |hash| == HASH_LENGTH
    requires CreateOutcome(users, body, caller, newId, hash) == Outcome(CREATED, Some(created))
    ensures UsersOk(users[newId := created])
  {
    UserSaveKeepsValid(users, newId, NewUser(body, caller), Some(hash));
  }

  /** `createUser`: the new account is stored under the fresh id with the hash in place of
      the plaintext. */
  method CreateUser(dir: Directory, body: UserBody, caller: Id, newId: Id, hash: string)
    returns (out: Outcome<User>)
    requires dir.Valid() && newId !in dir.users && |hash| == HASH_LENGTH
    modifies dir
    ensures dir.Valid()
    ensures out == CreateOutcome(old(dir.users), body, caller, newId, hash)
    ensures dir.users == if out.status == CREATED then old(dir.users)[newId := out.data.value] else old(dir.users)
  {
    out := CreateOutcome(dir.users, body, caller, newId, hash);
    if out.status == CREATED {
      CreateKeepsUsersOk(dir.users, body, caller, newId, hash, out.data.value);
      dir.users := dir.users[newId := out.data.value];
    }
  }

  // ---------------------------------------------------------------- updateUser

  /** `role == !undefined`: `!undefined` is `true`, and a string is loosely equal to `true`
      when it reads as the number 1. Only the plain spelling "1" is modelled. */
  predicate RoleLooselyTrue(role: Option<string>) {
    role == Some("1")
  }

  /** The fields `updateUser` assigns: every truthy profile field (through the setters), and
      for an administrator also a truthy role and any given `isActive`. */
  function UpdatedUser(u: User, body: UserBody, caller: Id, byAdmin: bool): (n: User)
    ensures n.password == u.password && n.createdBy == u.createdBy && n.lastlogin == u.lastlogin
    ensures n.updatedBy == Some(caller)
    ensures n.role == (if byAdmin && Truthy(body.role) then body.role.value else u.role)
    ensures n.isActive == (if byAdmin && body.isActive.Some? then body.isActive.value else u.isActive)
    ensures Lower(u.email) == u.email ==> Lower(n.email) == n.email
  {
    u.(username := if Truthy(body.username) then Trim(body.username.value) else u.username,
       email := if Truthy(body.email) then EmailSetter(body.email.value) else u.email,
       firstName := if Truthy(body.firstName) then Some(Trim(body.firstName.value)) else u.firstName,
       lastName := if Truthy(body.lastName) then Trim(body.lastName.value) else u.lastName,
       phone := if Truthy(body.phone) then Some(Trim(body.phone.value)) else u.phone,
       role := if byAdmin && Truthy(body.role) then body.role.value else u.role,
       isActive := if byAdmin && body.isActive.Some? then body.isActive.value else u.isActive,
       updatedBy := Some(caller))
  }

  /** `findOne({ username })` for a truthy username that differs from the current one. */
  predicate UsernameTaken(users: map<Id, User>, u: User, username: Option<string>) {
    Truthy(username) && username.value != u.username
    && exists o | o in users :: users[o].username == username.value
  }

  predicate EmailTaken(users: map<Id, User>, u: User, email: Option<string>) {
    Truthy(email) && email.value != u.email
    && exists o | o in users :: users[o].email == email.value
  }

  /** May this caller update account `id` at all, with this body? */
  predicate UpdatePermitted(id: Id, body: UserBody, caller: Id, callerRole: string)
    ensures callerRole == "admin" ==> UpdatePermitted(id, body, caller, callerRole)
    ensures UpdatePermitted(id, body, caller, callerRole) && callerRole != "admin" ==>
      caller == id && body.role != Some("1") && body.isActive.None?
  {
    callerRole == "admin" || (caller == id && !RoleLooselyTrue(body.role) && body.isActive.None?)
  }

  /** What `updateUser` answers. */
  function UpdateOutcome(users: map<Id, User>, id: Id, body: UserBody, caller: Id, callerRole: string)
    : (r: Outcome<User>)
    ensures r.status in {OK, BAD_REQUEST, FORBIDDEN, NOT_FOUND}
    ensures r.data.Some? <==> r.status == OK
    ensures r.status == NOT_FOUND <==> id !in users
    ensures r.status == FORBIDDEN <==> id in users && !UpdatePermitted(id, body, caller, callerRole)
    ensures (id in users && UpdatePermitted(id, body, caller, callerRole)
      && (UsernameTaken(users, users[id], body.username) || EmailTaken(users, users[id], body.email))) ==>
      r.status == BAD_REQUEST
    ensures r.status == OK ==> (id in users
      && r.data.value == UpdatedUser(users[id], body, caller, callerRole == "admin")
      && UserErrors(r.data.value) == [])
  {
    if id !in users then Outcome(NOT_FOUND, None)
    else
      var u := users[id];
      if !UpdatePermitted(id, body, caller, callerRole) then Outcome(FORBIDDEN, None)
      else if UsernameTaken(users, u, body.username) || EmailTaken(users, u, body.email) then
        Outcome(BAD_REQUEST, None)
      else
        var saved := UserSave(users, id, UpdatedUser(u, body, caller, callerRole == "admin"), None);
        if saved.Failed? then Outcome(ErrorHandler.StatusOf(saved.error), None)
        else Outcome(OK, Some(saved.record))
  }

  /** An update succeeds exactly when the account exists, the caller may update it, neither a
      new username nor a new email is in use, and the assigned record is valid and clashes
      with no other account's username or email. */
  lemma UpdatedExactly(users: map<Id, User>, id: Id, body: UserBody, caller: Id, callerRole: string)
    ensures UpdateOutcome(users, id, body, caller, callerRole).status == OK <==>
      id in users && UpdatePermitted(id, body, caller, callerRole)
      && !UsernameTaken(users, users[id], body.username) && !EmailTaken(users, users[id], body.email)
      && var n := UpdatedUser(users[id], body, caller, callerRole == "admin");
      UserErrors(n) == []
      && forall o | o in users && o != id :: users[o].username != n.username && users[o].email != n.email
  {
  }

  /** Only an administrator changes a role or an activation state. Anyone else can update
      their own profile alone, and a role or `isActive` they send is either refused (403) or,
      for a role other than "1", silently ignored; the password never changes here. */
  lemma NonAdminCannotEscalate(users: map<Id, User>, id: Id, body: UserBody, caller: Id, callerRole: string)
    requires callerRole != "admin"
    requires UpdateOutcome(users, id, body, caller, callerRole).status == OK
    ensures id == caller
    ensures body.isActive.None?
    ensures var n := UpdateOutcome(users, id, body, caller, callerRole).data.value;
      n.role == users[id].role && n.isActive == users[id].isActive && n.password == users[id].password
  {
  }

  lemma UpdateKeepsUsersOk(users: map<Id, User>, id: Id, body: UserBody, caller: Id, callerRole: string, updated: User)
    requires UsersOk(users)
    requires UpdateOutcome(users, id, body, caller, callerRole) == Outcome(OK, Some(updated))
    ensures UsersOk(users[id := updated])
  {
    UserSaveKeepsValid(users, id, UpdatedUser(users[id], body, caller, callerRole == "admin"), None);
  }

  /** `updateUser`. */
  method UpdateUser(dir: Directory, id: Id, body: UserBody, caller: Id, callerRole: string)
    returns (out: Outcome<User>)
    requires dir.Valid()
    modifies dir
    ensures dir.Valid()
    ensures out == UpdateOutcome(old(dir.users), id, body, caller, callerRole)
    ensures dir.users == if out.status == OK then old(dir.users)[id := out.data.value] else old(dir.users)
  {
    out := UpdateOutcome(dir.users, id, body, caller, callerRole);
    if out.status == OK {
      UpdateKeepsUsersOk(dir.users, id, body, caller, callerRole, out.data.value);
      dir.users := dir.users[id := out.data.value];
    }
  }

  // ---------------------------------------------------------------- deleteUser

  /** `deleteUser`: nobody deletes their own account. */
  method DeleteUser(dir: Directory, id: Id, caller: Id) returns (out: Outcome<User>)
    requires dir.Valid()
    modifies dir
    ensures dir.Valid()
    ensures out.data.None?
    ensures out.status == (if id !in old(dir.users) then NOT_FOUND else if id == caller then FORBIDDEN else OK)
    ensures dir.users == if out.status == OK then old(dir.users) - {id} else old(dir.users)
  {
    if id !in dir.users {
      return Outcome(NOT_FOUND, None);
    }
    if id == caller {
      return Outcome(FORBIDDEN, None);
    }
    dir.users := dir.users - {id};
    out := Outcome(OK, None);
  }

  // ---------------------------------------------------------------- toggleUserStatus

  function Toggled(u: User, caller: Id): (n: User)
    ensures n.isActive == !u.isActive && n.updatedBy == Some(caller)
    ensures n.(isActive := u.isActive, updatedBy := u.updatedBy) == u
  {
    u.(isActive := !u.isActive, updatedBy := Some(caller))
  }

  /** What `toggleUserStatus` answers. The guard refuses a caller who would re-activate their
      own (inactive) account; deactivating one's own active account goes through. */
  function ToggleOutcome(users: map<Id, User>, id: Id, caller: Id): (r: Outcome<User>)
    requires UsersOk(users)
    ensures r.status in {OK, FORBIDDEN, NOT_FOUND}
    ensures r.status == NOT_FOUND <==> id !in users
    ensures r.status == FORBIDDEN <==> id in users && id == caller && !users[id].isActive
    ensures r.data.Some? <==> r.status == OK
    ensures r.status == OK ==> r.data.value == Toggled(users[id], caller)
  {
    if id !in users then Outcome(NOT_FOUND, None)
    else if id == caller && !users[id].isActive then Outcome(FORBIDDEN, None)
    else
      SameIdentitySaves(users, id, Toggled(users[id], caller));
      Outcome(OK, Some(Toggled(users[id], caller)))
  }

  /** `toggleUserStatus`. */
  method ToggleUserStatus(dir: Directory, id: Id, caller: Id) returns (out: Outcome<User>)
    requires dir.Valid()
    modifies dir
    ensures dir.Valid()
    ensures out == ToggleOutcome(old(dir.users), id, caller)
    ensures dir.users == if out.status == OK then old(dir.users)[id := out.data.value] else old(dir.users)
  {
    out := ToggleOutcome(dir.users, id, caller);
    if out.status == OK {
      SameIdentitySaves(dir.users, id, out.data.value);
      dir.users := dir.users[id := out.data.value];
    }
  }

  /** An authenticated caller is active, so the self-guard never fires for them: toggling
      their own account always succeeds, and it deactivates it. */
  lemma SelfToggleDeactivates(users: map<Id, User>, caller: Id)
    requires UsersOk(users)
    requires caller in users && users[caller].isActive
    ensures ToggleOutcome(users, caller, caller).status == OK
    ensures !ToggleOutcome(users, caller, caller).data.value.isActive
  {
  }
}
