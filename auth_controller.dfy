/** The session handlers (Backend/src/controller/AuthController.js): login, change of
    password and logout. `check(candidate, storedHash)` stands for `bcrypt.compare`, and the
    token `generateToken` signs is represented by the user id it carries. */
module AuthController {
  import opened Common
  import opened Text
  import opened Identity
  import Store
  import ErrorHandler

  // ---------------------------------------------------------------- login

  datatype LoginBody = LoginBody(email: Option<string>, username: Option<string>, password: Option<string>)

  /** The `userResponse` that login builds by hand: every field but the password. */
  datatype UserView = UserView(
    id: Id,
    username: string,
    email: string,
    firstName: Option<string>,
    lastName: string,
    role: string,
    isActive: bool,
    lastlogin: Option<int>)

  /** The response of a successful login: the user and a token signed for `tokenUserId`. */
  datatype Session = Session(user: UserView, tokenUserId: Id)

  function ViewOf(id: Id, u: User): UserView {
    UserView(id, u.username, u.email, u.firstName, u.lastName, u.role, u.isActive, u.lastlogin)
  }

  /** `email || username`: the email when it is a non-empty string, else the username. */
  function LoginField(body: LoginBody): Option<string> {
    if Truthy(body.email) then body.email else body.username
  }

  /** `findOne({ $or: [{ username: key }, { email: key }] })`: the accounts it may return. */
  function Matching(users: map<Id, User>, key: string): set<Id> {
    set id | id in users && (users[id].username == key || users[id].email == key)
  }

  /** `found` is what `findOne` returned for the lower-cased login field: nothing when no
      account matches, else one of the matching accounts (the database picks which). */
  predicate FoundBy(users: map<Id, User>, body: LoginBody, found: Option<Id>)
    ensures FoundBy(users, body, found) && found.Some? ==>
      Truthy(LoginField(body)) && found.value in users
      && (users[found.value].username == Lower(LoginField(body).value)
          || users[found.value].email == Lower(LoginField(body).value))
    ensures FoundBy(users, body, found) && found.None? && Truthy(LoginField(body)) ==>
      forall id | id in users ::
        users[id].username != Lower(LoginField(body).value) && users[id].email != Lower(LoginField(body).value)
  {
    if !Truthy(LoginField(body)) then found.None?
    else
      var key := Lower(LoginField(body).value);
      assert forall id | id in users && (users[id].username == key || users[id].email == key) ::
        id in Matching(users, key);
      (found.None? <==> Matching(users, key) == {}) && (found.Some? ==> found.value in Matching(users, key))
  }

  function Stamped(u: User, now: int): User {
    u.(lastlogin := Some(now))
  }

  /** What `login` answers once `findOne` has returned `found`. Any error after the field
      check is caught by the handler and answered with 500. */
  function LoginOutcome(users: map<Id, User>, body: LoginBody, found: Option<Id>,
                        check: (string, string) -> bool, now: int): (r: Outcome<Session>)
    requires FoundBy(users, body, found)
    ensures r.status in {OK, BAD_REQUEST, UNAUTHORIZED, FORBIDDEN, NOT_FOUND, SERVER_ERROR}
    ensures r.data.Some? <==> r.status == OK
    ensures r.status == BAD_REQUEST <==> !Truthy(LoginField(body)) || !Truthy(body.password)
    ensures r.status == NOT_FOUND <==> Truthy(LoginField(body)) && Truthy(body.password) && found.None?
    ensures r.status == FORBIDDEN ==> found.Some? && !users[found.value].isActive
    ensures r.status == UNAUTHORIZED ==> (found.Some? && users[found.value].isActive
      && !check(body.password.value, users[found.value].password))
    ensures r.status == OK ==> (found.Some? && users[found.value].isActive
      && check(body.password.value, users[found.value].password)
      && r.data.value == Session(ViewOf(found.value, Stamped(users[found.value], now)), found.value))
  {
    if !Truthy(LoginField(body)) || !Truthy(body.password) then Outcome(BAD_REQUEST, None)
    else if found.None? then Outcome(NOT_FOUND, None)
    else
      var id := found.value;
      var u := users[id];
      if !u.isActive then Outcome(FORBIDDEN, None)
      else if !check(body.password.value, u.password) then Outcome(UNAUTHORIZED, None)
      else if UserSave(users, id, Stamped(u, now), None).Failed? then Outcome(SERVER_ERROR, None)
      else Outcome(OK, Some(Session(ViewOf(id, Stamped(u, now)), id)))
  }

  /** On a valid collection the save of `lastlogin` never fails, so login never answers 500:
      an active account whose password checks out is logged in. */
  lemma LoginNeverFailsToSave(users: map<Id, User>, body: LoginBody, found: Option<Id>,
                              check: (string, string) -> bool, now: int)
    requires UsersOk(users) && FoundBy(users, body, found)
    ensures LoginOutcome(users, body, found, check, now).status != SERVER_ERROR
    ensures (found.Some? && Truthy(body.password) && users[found.value].isActive
      && check(body.password.value, users[found.value].password)) ==>
      LoginOutcome(users, body, found, check, now).status == OK
  {
    if found.Some? {
      SameIdentitySaves(users, found.value, Stamped(users[found.value], now));
    }
  }

  /** The login field is lower-cased before the lookup, but usernames are stored as typed:
      an account whose username has an upper-case letter is found by its email only. */
  lemma MixedCaseUsernameNeverMatches(u: User, field: string, i: nat)
    requires i < |u.username| && IsUpperAscii(u.username[i])
    ensures u.username != Lower(field)
  {
    LowerSpec(field);
    if |u.username| == |field| {
      assert !IsUpperAscii(Lower(field)[i]);
    }
  }

  /** Emails are stored lower-cased, so an account is found by its email typed in any case. */
  lemma EmailMatchesInAnyCase(users: map<Id, User>, id: Id, field: string)
    requires UsersOk(users) && id in users
    requires EqualsIgnoreCase(field, users[id].email)
    ensures id in Matching(users, Lower(field))
  {
    assert StoredUser(users[id]);
  }

  /** `login`: ask the database, decide, and on success record the time of the login. */
  method Login(dir: Directory, body: LoginBody, check: (string, string) -> bool, now: int)
    returns (out: Outcome<Session>, found: Option<Id>)
    requires dir.Valid()
    modifies dir
    ensures dir.Valid()
    ensures FoundBy(old(dir.users), body, found)
    ensures out == LoginOutcome(old(dir.users), body, found, check, now)
    ensures out.status != SERVER_ERROR
    ensures dir.users == if out.status == OK then old(dir.users)[found.value := Stamped(old(dir.users)[found.value], now)]
                         else old(dir.users)
  {
    if !Truthy(LoginField(body)) {
      found := None;
    } else {
      var matches := Matching(dir.users, Lower(LoginField(body).value));
      if matches == {} {
        found := None;
      } else {
        var id :| id in matches;
        found := Some(id);
      }
    }
    out := LoginOutcome(dir.users, body, found, check, now);
    LoginNeverFailsToSave(dir.users, body, found, check, now);
    if out.status == OK {
      SameIdentitySaves(dir.users, found.value, Stamped(dir.users[found.value], now));
      dir.users := dir.users[found.value := Stamped(dir.users[found.value], now)];
    }
  }

  // ---------------------------------------------------------------- changePassword

  datatype PasswordBody = PasswordBody(currentPassword: Option<string>, newPassword: Option<string>)

  /** What `changePassword` answers for the caller `caller`, storing `hash` (the bcrypt hash
      of the new password). A caller whose account has gone makes `findById` return null,
      and the call on it throws: 500. */
  function ChangePasswordOutcome(users: map<Id, User>, caller: Id, body: PasswordBody,
                                 check: (string, string) -> bool, hash: string): (r: Outcome<User>)
    ensures r.data.None?
    ensures r.status in {OK, BAD_REQUEST, UNAUTHORIZED, SERVER_ERROR}
    ensures !Truthy(body.currentPassword) || !Truthy(body.newPassword) ==> r.status == BAD_REQUEST
    ensures Truthy(body.newPassword) && |body.newPassword.value| < PASSWORD_MIN ==> r.status == BAD_REQUEST
    ensures r.status == SERVER_ERROR <==> (Truthy(body.currentPassword) && Truthy(body.newPassword)
      && |body.newPassword.value| >= PASSWORD_MIN && caller !in users)
    ensures r.status == UNAUTHORIZED <==> (Truthy(body.currentPassword) && Truthy(body.newPassword)
      && |body.newPassword.value| >= PASSWORD_MIN && caller in users
      && !check(body.currentPassword.value, users[caller].password))
    ensures r.status == OK ==> (caller in users && check(body.currentPassword.value, users[caller].password)
      && |body.newPassword.value| >= PASSWORD_MIN)
  {
    if !Truthy(body.currentPassword) || !Truthy(body.newPassword) then Outcome(BAD_REQUEST, None)
    else if |body.newPassword.value| < PASSWORD_MIN then Outcome(BAD_REQUEST, None)
    else if caller !in users then
      Outcome(ErrorHandler.StatusOf(ErrorHandler.TypeError("Cannot read properties of null")), None)
    else if !check(body.currentPassword.value, users[caller].password) then Outcome(UNAUTHORIZED, None)
    else
      var saved := UserSave(users, caller, users[caller].(password := body.newPassword.value), Some(hash));
      if saved.Failed? then Outcome(ErrorHandler.StatusOf(saved.error), None)
      else Outcome(OK, None)
  }

  /** The new password is validated as plaintext and stored as its hash; on a valid
      collection that save cannot fail, so a caller who knows their password always succeeds. */
  lemma ChangePasswordSaves(users: map<Id, User>, caller: Id, newPassword: string, hash: string)
    requires UsersOk(users) && caller in users
    requires |newPassword| >= PASSWORD_MIN && |hash| == HASH_LENGTH
    ensures UserSave(users, caller, users[caller].(password := newPassword), Some(hash))
      == Store.Saved(users[caller].(password := hash))
    ensures UsersOk(users[caller := users[caller].(password := hash)])
  {
    var u := users[caller].(password := newPassword);
    assert StoredUser(users[caller]);
    assert UserErrors(u) == UserErrors(users[caller]);
    UserSaveKeepsValid(users, caller, u, Some(hash));
  }

  /** On a valid collection the answer is decided by the request alone: 400 exactly for a
      missing field or a new password under six characters; otherwise, for a caller whose
      account exists, 200 exactly when the current password checks out and 401 exactly when
      it does not. */
  lemma ChangePasswordExactly(users: map<Id, User>, caller: Id, body: PasswordBody,
                              check: (string, string) -> bool, hash: string)
    requires UsersOk(users)
    ensures ChangePasswordOutcome(users, caller, body, check, hash).status == BAD_REQUEST <==>
      !Truthy(body.currentPassword) || !Truthy(body.newPassword) || |body.newPassword.value| < PASSWORD_MIN
    ensures (Truthy(body.currentPassword) && Truthy(body.newPassword) && |body.newPassword.value| >= PASSWORD_MIN
      && caller in users) ==>
      ((ChangePasswordOutcome(users, caller, body, check, hash).status == OK <==>
          check(body.currentPassword.value, users[caller].password))
       && (ChangePasswordOutcome(users, caller, body, check, hash).status == UNAUTHORIZED <==>
          !check(body.currentPassword.value, users[caller].password)))
  {
    if Truthy(body.currentPassword) && Truthy(body.newPassword) && |body.newPassword.value| >= PASSWORD_MIN
       && caller in users {
      var u := users[caller].(password := body.newPassword.value);
      assert StoredUser(users[caller]);
      assert UserErrors(u) == UserErrors(users[caller]);
      assert UserSave(users, caller, u, Some(hash)).Saved?;
    }
  }

  /** `changePassword`. */
  method ChangePassword(dir: Directory, caller: Id, body: PasswordBody, check: (string, string) -> bool, hash: string)
    returns (out: Outcome<User>)
    requires dir.Valid() && |hash| == HASH_LENGTH
    modifies dir
    ensures dir.Valid()
    ensures out == ChangePasswordOutcome(old(dir.users), caller, body, check, hash)
    ensures out.status == OK ==> dir.users == old(dir.users)[caller := old(dir.users)[caller].(password := hash)]
    ensures out.status != OK ==> dir.users == old(dir.users)
  {
    out := ChangePasswordOutcome(dir.users, caller, body, check, hash);
    if out.status == OK {
      ChangePasswordSaves(dir.users, caller, body.newPassword.value, hash);
      dir.users := dir.users[caller := dir.users[caller].(password := hash)];
    }
  }

  /** After a change of password, the next login with the new password succeeds (when the
      stored hash checks against it) and one with the old password fails (when it does not). */
  lemma ChangeThenLogin(users: map<Id, User>, caller: Id, body: PasswordBody,
                        check: (string, string) -> bool, hash: string, now: int)
    requires UsersOk(users) && |hash| == HASH_LENGTH
    requires ChangePasswordOutcome(users, caller, body, check, hash).status == OK
    requires users[caller].isActive
    ensures var users' := users[caller := users[caller].(password := hash)];
      var login := LoginBody(None, Some(users[caller].username), body.newPassword);
      Lower(users[caller].username) == users[caller].username && check(body.newPassword.value, hash) ==>
        FoundBy(users', login, Some(caller))
        && LoginOutcome(users', login, Some(caller), check, now).status == OK
    ensures var users' := users[caller := users[caller].(password := hash)];
      var login := LoginBody(None, Some(users[caller].username), body.currentPassword);
      Lower(users[caller].username) == users[caller].username && !check(body.currentPassword.value, hash) ==>
        FoundBy(users', login, Some(caller))
        && LoginOutcome(users', login, Some(caller), check, now).status == UNAUTHORIZED
  {
    ChangePasswordSaves(users, caller, body.newPassword.value, hash);
    var users' := users[caller := users[caller].(password := hash)];
    if Lower(users[caller].username) == users[caller].username {
      assert StoredUser(users[caller]);
      assert caller in Matching(users', Lower(users[caller].username));
      var login := LoginBody(None, Some(users[caller].username), body.newPassword);
      if check(body.newPassword.value, hash) {
        LoginNeverFailsToSave(users', login, Some(caller), check, now);
      }
      var login' := LoginBody(None, Some(users[caller].username), body.currentPassword);
      LoginNeverFailsToSave(users', login', Some(caller), check, now);
    }
  }

  // ---------------------------------------------------------------- logout

  /** `logout` answers 200 and touches no state: the token stays valid until it expires. */
  method Logout() returns (out: Outcome<User>)
    ensures out == Outcome(OK, None)
  {
    out := Outcome(OK, None);
  }
}
