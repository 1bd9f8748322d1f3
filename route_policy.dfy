/** Which guards stand in front of which handler (Backend/src/routes/*.js). Every router but
    the login route applies `verifyToken` to all its routes; the write routes add a role guard.
    The public read routes and the statistics are not part of this model. */
module RoutePolicy {
  import opened Common
  import opened Identity
  import opened AccessGuard
  import AuthController
  import UserController

  /** The write routes of the API, and the three session routes. */
  datatype Route =
    | CategoryReorder | CategoryCreate | CategoryUpdate | CategoryDelete | CategoryToggle
    | SubcategoryReorder | SubcategoryCreate | SubcategoryUpdate | SubcategoryDelete | SubcategoryToggle
    | ProductCreate | ProductUpdate | ProductDelete | ProductToggle | ProductStock
    | UserCreate | UserUpdate | UserDelete | UserToggle
    | Login | ChangePassword | Logout

  /** The guard after `verifyToken` (or none at all for the login route). */
  datatype Guard = Public | TokenOnly | AdminOnly | AdminOrCoordinador | AdminOrOwner

  /** The route table: the login route alone is public, the deletions and the account
      creation, deletion and toggle are for administrators only, and the account update alone
      admits the account's owner. */
  function GuardOf(route: Route): (r: Guard)
    ensures r == Public <==> route == Login
    ensures r == AdminOnly <==> AdminRoute(route)
    ensures r == AdminOrOwner <==> route == UserUpdate
    ensures r == TokenOnly <==> route in {ChangePassword, Logout}
  {
    match route
    case CategoryReorder | CategoryCreate | CategoryUpdate | CategoryToggle => AdminOrCoordinador
    case CategoryDelete => AdminOnly
    case SubcategoryReorder | SubcategoryCreate | SubcategoryUpdate | SubcategoryToggle => AdminOrCoordinador
    case SubcategoryDelete => AdminOnly
    case ProductCreate | ProductUpdate | ProductToggle | ProductStock => AdminOrCoordinador
    case ProductDelete => AdminOnly
    case UserCreate | UserDelete | UserToggle => AdminOnly
    case UserUpdate => AdminOrOwner
    case Login => Public
    case ChangePassword | Logout => TokenOnly
  }

  /** The parts of a request the guards read: the `Authorization` header, `req.params.id`
      and `req.body.userId`. */
  datatype Request = Request(header: Option<string>, paramsId: Option<Id>, bodyUserId: Option<Id>)

  /** What reaches the handler: nobody in particular (login), `req.user`, or an answer. */
  datatype Admission = Anonymous | Admitted(principal: Principal) | Refused(status: int)

  function RoleGuard(guard: Guard, p: Principal, req: Request): Verdict {
    match guard
    case AdminOnly => VerifyAdmin(Some(p))
    case AdminOrCoordinador => VerifyAdminOrCoordinador(Some(p))
    case AdminOrOwner => VerifyAdminOrOwner(Some(p), req.paramsId, req.bodyUserId)
    case _ => Next
  }

  /** The middleware chain of `route`, run on `req` against the users collection. */
  function Admit(route: Route, req: Request, verify: string -> TokenCheck, users: map<Id, User>)
    : (r: Admission)
    ensures r == Anonymous <==> route == Login
    ensures r.Admitted? ==> (r.principal.id in users && r.principal.user == users[r.principal.id]
      && r.principal.user.isActive)
    ensures r.Refused? ==> r.status in {UNAUTHORIZED, FORBIDDEN, SERVER_ERROR}
    ensures r.Admitted? ==> VerifyToken(req.header, verify, users) == Authenticated(r.principal)
    ensures route != Login && VerifyToken(req.header, verify, users).Denied? ==>
      r == Refused(VerifyToken(req.header, verify, users).status)
  {
    var guard := GuardOf(route);
    if guard == Public then Anonymous
    else match VerifyToken(req.header, verify, users)
      case Denied(status) => Refused(status)
      case Authenticated(p) =>
        var v := RoleGuard(guard, p, req);
        if v == Next then Admitted(p) else Refused(v.status)
  }

  predicate AdminRoute(route: Route) {
    route in {CategoryDelete, SubcategoryDelete, ProductDelete, UserCreate, UserDelete, UserToggle}
  }

  /** Deletions and account management reach their handler for administrators only; an
      account update reaches it for an administrator or for the account's owner. */
  lemma AdmittedCallers(route: Route, req: Request, verify: string -> TokenCheck, users: map<Id, User>)
    ensures Admit(route, req, verify, users).Admitted? && AdminRoute(route) ==>
      Admit(route, req, verify, users).principal.user.role == "admin"
    ensures Admit(route, req, verify, users).Admitted? && route == UserUpdate ==>
      var p := Admit(route, req, verify, users).principal;
      p.user.role == "admin" || FirstPresent(req.paramsId, req.bodyUserId) == Some(p.id)
  {
  }

  /** A coordinator with a good token reaches every catalog write but the deletions, and is
      refused with 403 on the deletions and on account management. */
  lemma CoordinatorReach(route: Route, token: string, verify: string -> TokenCheck, users: map<Id, User>,
                         id: Id, paramsId: Option<Id>)
    requires UsersOk(users)
    requires token != "" && forall k :: 0 <= k < |token| ==> token[k] != ' '
    requires verify(token) == Decoded(Some(id)) && id in users
    requires users[id].isActive && users[id].role == "coordinador"
    requires route != Login && route != UserUpdate
    ensures var r := Admit(route, Request(Some("Bearer " + token), paramsId, None), verify, users);
      if AdminRoute(route) then r == Refused(FORBIDDEN) else r == Admitted(Principal(id, users[id]))
  {
    BearerTokenAuthenticates(token, verify, users, id);
  }

  /** The session a login returns works: presenting its token (as decoded by `verify`) on
      any guarded route authenticates the account that logged in, as stored after the login. */
  lemma LoginTokenAuthenticates(users: map<Id, User>, body: AuthController.LoginBody, found: Option<Id>,
                                check: (string, string) -> bool, now: int,
                                route: Route, token: string, verify: string -> TokenCheck, paramsId: Option<Id>)
    requires UsersOk(users) && AuthController.FoundBy(users, body, found)
    requires AuthController.LoginOutcome(users, body, found, check, now).status == OK
    requires token != "" && forall k :: 0 <= k < |token| ==> token[k] != ' '
    requires verify(token) == Decoded(Some(AuthController.LoginOutcome(users, body, found, check, now).data.value.tokenUserId))
    requires GuardOf(route) == TokenOnly || GuardOf(route) == AdminOrCoordinador
    ensures var id := found.value;
      var users' := users[id := AuthController.Stamped(users[id], now)];
      Admit(route, Request(Some("Bearer " + token), paramsId, None), verify, users')
        == Admitted(Principal(id, users'[id]))
  {
    var id := found.value;
    var users' := users[id := AuthController.Stamped(users[id], now)];
    SameIdentitySaves(users, id, AuthController.Stamped(users[id], now));
    BearerTokenAuthenticates(token, verify, users', id);
    StoredCallerPassesAdminOrCoordinador(users', Principal(id, users'[id]));
  }

  /** `toggleUserStatus` lets an administrator deactivate their own account; from then on
      every guarded route refuses their token with 403. */
  lemma SelfDeactivationLocksOut(users: map<Id, User>, caller: Id, route: Route, token: string,
                                 verify: string -> TokenCheck, paramsId: Option<Id>)
    requires UsersOk(users) && caller in users && users[caller].isActive
    requires token != "" && forall k :: 0 <= k < |token| ==> token[k] != ' '
    requires verify(token) == Decoded(Some(caller))
    requires route != Login
    ensures UserController.ToggleOutcome(users, caller, caller).status == OK
    ensures var users' := users[caller := UserController.ToggleOutcome(users, caller, caller).data.value];
      Admit(route, Request(Some("Bearer " + token), paramsId, None), verify, users') == Refused(FORBIDDEN)
  {
    UserController.SelfToggleDeactivates(users, caller);
    var users' := users[caller := UserController.ToggleOutcome(users, caller, caller).data.value];
    BearerTokenAuthenticates(token, verify, users', caller);
  }
}
