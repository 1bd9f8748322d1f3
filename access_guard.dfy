/** The authentication and authorisation middleware (Backend/src/middlewares/auth.js).
    `verify` stands for `jwt.verify` with the server's secret: it either decodes the token's
    payload or throws an error of some name. */
module AccessGuard {
  import opened Common
  import opened Identity

  /** What `jwt.verify(token, secret)` does: returns the payload (whose `userId` may be
      missing) or throws. */
  datatype TokenCheck = Decoded(userId: Option<Id>) | Rejected(errorName: string)

  /** `req.user`: the account loaded from the token, with its id. */
  datatype Principal = Principal(id: Id, user: User)

  /** The result of `verifyToken`: the request goes on with `req.user` set, or is answered. */
  datatype Authentication = Authenticated(principal: Principal) | Denied(status: int)

  /** The result of a role guard: `next()` or an answer. */
  datatype Verdict = Next | Deny(status: int)

  // ---------------------------------------------------------------- the bearer token

  /** The index of the first space, or the length when there is none. */
  function SpaceIndex(s: string): (i: nat)
    ensures i <= |s|
    ensures i < |s| ==> s[i] == ' '
    ensures forall k :: 0 <= k < i ==> s[k] != ' '
  {
    if s == [] || s[0] == ' ' then 0 else 1 + SpaceIndex(s[1..])
  }

  /** `header.split(' ')[1]`: the text between the first and the second space (or the end),
      undefined when there is no space at all. */
  function SecondField(header: string): (r: Option<string>)
    ensures r.None? <==> forall k :: 0 <= k < |header| ==> header[k] != ' '
    ensures r.Some? ==> forall k :: 0 <= k < |r.value| ==> r.value[k] != ' '
    ensures r.Some? ==> SpaceIndex(header) + 1 + |r.value| <= |header|
    ensures r.Some? ==>
      var start, end := SpaceIndex(header) + 1, SpaceIndex(header) + 1 + |r.value|;
      header[start..end] == r.value && (end == |header| || header[end] == ' ')
  {
    var i := SpaceIndex(header);
    if i == |header| then None
    else
      var rest := header[i + 1..];
      Some(rest[..SpaceIndex(rest)])
  }

  /** The header a client sends, `Bearer <token>`, gives back the token when it has no space. */
  lemma {:induction false} BearerField(token: string)
    requires forall k :: 0 <= k < |token| ==> token[k] != ' '
    ensures SecondField("Bearer " + token) == Some(token)
  {
    var header := "Bearer " + token;
    assert header[6] == ' ';
    assert forall k :: 0 <= k < 6 ==> header[k] != ' ';
    assert SpaceIndex(header) == 6;
    var rest := header[6 + 1..];
    assert rest == token;
    assert SpaceIndex(rest) == |rest|;
    assert rest[..SpaceIndex(rest)] == token;
  }

  // ---------------------------------------------------------------- verifyToken

  /** The token `verifyToken` hands to `verify`: the second field of a non-empty header, when
      that is non-empty. */
  function BearerToken(header: Option<string>): Option<string> {
    if Truthy(header) && Truthy(SecondField(header.value)) then SecondField(header.value) else None
  }

  /** `verifyToken`: a missing or empty header, a header without a second field, a bad or
      expired token, or an id that names no account is 401; an inactive account is 403;
      any other error thrown by `verify` is 500. The account let through is the one whose id
      the token carries. */
  function VerifyToken(header: Option<string>, verify: string -> TokenCheck, users: map<Id, User>)
    : (r: Authentication)
    ensures r.Authenticated? ==> (r.principal.id in users && r.principal.user == users[r.principal.id]
      && r.principal.user.isActive)
    ensures r.Authenticated? ==>
      BearerToken(header).Some? && verify(BearerToken(header).value) == Decoded(Some(r.principal.id))
    ensures BearerToken(header).None? ==> r == Denied(UNAUTHORIZED)
    ensures BearerToken(header).Some? && verify(BearerToken(header).value).Rejected? ==>
      var name := verify(BearerToken(header).value).errorName;
      r == Denied(if name == "JsonWebTokenError" || name == "TokenExpiredError" then UNAUTHORIZED else SERVER_ERROR)
    ensures BearerToken(header).Some? && verify(BearerToken(header).value).Decoded? ==>
      var userId := verify(BearerToken(header).value).userId;
      (userId.None? || userId.value !in users) ==> r == Denied(UNAUTHORIZED)
    ensures r.Denied? ==> r.status in {UNAUTHORIZED, FORBIDDEN, SERVER_ERROR}
    ensures !Truthy(header) ==> r == Denied(UNAUTHORIZED)
    ensures r == Denied(FORBIDDEN) <==> (BearerToken(header).Some?
      && var c := verify(BearerToken(header).value);
         c.Decoded? && c.userId.Some? && c.userId.value in users && !users[c.userId.value].isActive)
    ensures r == Denied(SERVER_ERROR) ==> (BearerToken(header).Some?
      && var c := verify(BearerToken(header).value);
         c.Rejected? && c.errorName != "JsonWebTokenError" && c.errorName != "TokenExpiredError")
  {
    var token := BearerToken(header);
    if token.None? then Denied(UNAUTHORIZED)
    else match verify(token.value)
      case Rejected(name) =>
        if name == "JsonWebTokenError" || name == "TokenExpiredError" then Denied(UNAUTHORIZED)
        else Denied(SERVER_ERROR)
      case Decoded(userId) =>
        // `findById(undefined)` finds nothing.
        if userId.None? || userId.value !in users then Denied(UNAUTHORIZED)
        else if !users[userId.value].isActive then Denied(FORBIDDEN)
        else Authenticated(Principal(userId.value, users[userId.value]))
  }

  /** A token that decodes to the id of an active account, sent as `Bearer <token>`,
      authenticates that account; once the account is deactivated the same token is refused. */
  lemma BearerTokenAuthenticates(token: string, verify: string -> TokenCheck, users: map<Id, User>, id: Id)
    requires forall k :: 0 <= k < |token| ==> token[k] != ' '
    requires token != "" && verify(token) == Decoded(Some(id)) && id in users
    ensures users[id].isActive ==>
      VerifyToken(Some("Bearer " + token), verify, users) == Authenticated(Principal(id, users[id]))
    ensures !users[id].isActive ==> VerifyToken(Some("Bearer " + token), verify, users) == Denied(FORBIDDEN)
  {
    BearerField(token);
  }

  // ---------------------------------------------------------------- role guards

  /** `verifyRole(...allowed)`: `allowed.includes(req.user.role)`. */
  function VerifyRole(caller: Option<Principal>, allowed: seq<Role>): (r: Verdict)
    ensures caller.None? ==> r == Deny(UNAUTHORIZED)
    ensures caller.Some? && r != Next ==> r == Deny(FORBIDDEN)
    ensures r == Next <==> (caller.Some? && ParseRole(caller.value.user.role).Some?
      && ParseRole(caller.value.user.role).value in allowed)
  {
    if caller.None? then Deny(UNAUTHORIZED)
    else if !(exists i | 0 <= i < |allowed| :: RoleName(allowed[i]) == caller.value.user.role) then
      ParseRoleInverse(caller.value.user.role);
      Deny(FORBIDDEN)
    else
      var i :| 0 <= i < |allowed| && RoleName(allowed[i]) == caller.value.user.role;
      Next
  }

  /** `verifyAdmin = verifyRole('admin')`. */
  function VerifyAdmin(caller: Option<Principal>): (r: Verdict)
    ensures r == Next <==> caller.Some? && caller.value.user.role == "admin"
  {
    VerifyRole(caller, [Admin])
  }

  /** `verifyAdminOrCoordinador = verifyRole('admin', 'coordinador')`. */
  function VerifyAdminOrCoordinador(caller: Option<Principal>): (r: Verdict)
    ensures r == Next <==> caller.Some? && (caller.value.user.role == "admin" || caller.value.user.role == "coordinador")
  {
    VerifyRole(caller, [Admin, Coordinador])
  }

  /** Every stored account has one of the two roles, so every authenticated caller passes
      `verifyAdminOrCoordinador`, and only an administrator passes `verifyAdmin`. */
  lemma StoredCallerPassesAdminOrCoordinador(users: map<Id, User>, p: Principal)
    requires UsersOk(users) && p.id in users && p.user == users[p.id]
    ensures VerifyAdminOrCoordinador(Some(p)) == Next
    ensures VerifyAdmin(Some(p)) == Next <==> ParseRole(p.user.role) == Some(Admin)
    ensures VerifyAdmin(Some(p)) != Next ==> VerifyAdmin(Some(p)) == Deny(FORBIDDEN)
  {
    assert StoredUser(users[p.id]);
    UserErrorsSpec(p.user);
  }

  /** `verifyAdminOrOwner`: administrators pass; anyone else only for their own id, taken
      from `req.params.id` or else `req.body.userId`. With neither, `targeUserId.toString()`
      throws and the guard answers 500 itself. */
  function VerifyAdminOrOwner(caller: Option<Principal>, paramsId: Option<Id>, bodyUserId: Option<Id>)
    : (r: Verdict)
    ensures r == Next <==> (caller.Some?
      && (caller.value.user.role == "admin" || FirstPresent(paramsId, bodyUserId) == Some(caller.value.id)))
    ensures r == Deny(SERVER_ERROR) <==> (caller.Some? && caller.value.user.role != "admin"
      && paramsId.None? && bodyUserId.None?)
    ensures caller.None? ==> r == Deny(UNAUTHORIZED)
    ensures (caller.Some? && caller.value.user.role != "admin" && FirstPresent(paramsId, bodyUserId).Some?
             && FirstPresent(paramsId, bodyUserId).value != caller.value.id) ==> r == Deny(FORBIDDEN)
  {
    if caller.None? then Deny(UNAUTHORIZED)
    else if caller.value.user.role == "admin" then Next
    else
      var target := FirstPresent(paramsId, bodyUserId);
      if target.None? then Deny(SERVER_ERROR)
      else if target.value != caller.value.id then Deny(FORBIDDEN)
      else Next
  }
}
