/**
 The Express router: eight routes, six of them registered behind
 `checkPermission`, and the handlers that read and write the store.
 Because the gate never calls `next`, only the two ungated routes,
 `POST /tokens` and `GET /testing`, ever reach their handler.
 */
module Routes {
  import opened Js
  import opened IdentityStore
  import opened Http
  import opened AuthMiddleware

  datatype Endpoint =
    | GetUsers
    | PostRoles
    | GetPermissions
    | GetPermission
    | GetAdvice
    | GetDelete
    | PostTokens
    | GetTesting

  function Method(e: Endpoint): string {
    match e
    case PostRoles => "POST"
    case PostTokens => "POST"
    case _ => "GET"
  }

  function Path(e: Endpoint): string {
    match e
    case GetUsers => "/users"
    case PostRoles => "/roles"
    case GetPermissions => "/permissions"
    case GetPermission => "/permission"
    case GetAdvice => "/advice"
    case GetDelete => "/delete"
    case PostTokens => "/tokens"
    case GetTesting => "/testing"
  }

  /** The route registered for a method and path, if any. A `HEAD` request
      is served by the `GET` route for the path, as Express does when no
      `HEAD` route is registered. */
  function Route(verb: string, path: string): (r: Option<Endpoint>)
    ensures r.Some? ==> Method(r.value) == (if verb == "HEAD" then "GET" else verb) && Path(r.value) == path
  {
    if verb == "GET" || verb == "HEAD" then
      if path == "/users" then Some(GetUsers)
      else if path == "/permissions" then Some(GetPermissions)
      else if path == "/permission" then Some(GetPermission)
      else if path == "/advice" then Some(GetAdvice)
      else if path == "/delete" then Some(GetDelete)
      else if path == "/testing" then Some(GetTesting)
      else None
    else if verb == "POST" then
      if path == "/roles" then Some(PostRoles)
      else if path == "/tokens" then Some(PostTokens)
      else None
    else None
  }

  /** Every route is found under its own method and path, and a `GET`
      route under `HEAD` too. */
  lemma RouteFindsEveryEndpoint(e: Endpoint)
    ensures Route(Method(e), Path(e)) == Some(e)
    ensures Method(e) == "GET" ==> Route("HEAD", Path(e)) == Some(e)
  {
  }

  /** The permission a route hands to `checkPermission`, or `None` for a
      route registered without the gate. */
  function RequiredPermission(e: Endpoint): (p: Option<string>)
    ensures p.None? <==> e == PostTokens || e == GetTesting
    ensures p.Some? ==> p.value in {"view_users", "create_role", "view_permissions"}
    ensures Method(e) == "GET" && p.Some? && e != GetUsers ==> p == Some("view_permissions")
  {
    match e
    case GetUsers => Some("view_users")
    case PostRoles => Some("create_role")
    case PostTokens => None
    case GetTesting => None
    case _ => Some("view_permissions")
  }

  predicate Gated(e: Endpoint) {
    RequiredPermission(e).Some?
  }

  /** `/tokens` and `/testing` are the only routes without the gate. */
  lemma UngatedRoutes(e: Endpoint)
    ensures !Gated(e) <==> e == PostTokens || e == GetTesting
  {
  }

  const InvalidRoleDefinition := "Invalid role definition"
  const MissingUserOrRole := "Missing user or role"

  /** `Object.entries(users).map(([email, role]) => ({ email, role }))`. */
  function ListUsers(u: Users): (r: seq<UserEntry>)
    ensures |r| == |u|
    ensures forall i :: 0 <= i < |r| ==> r[i].email == Emails(u)[i]
  {
    seq(|u|, i requires 0 <= i < |u| => UserEntry(u[i].email, u[i].role))
  }

  /** The listing holds exactly one entry per key of `users`, in enumeration
      order, each with the role the key is bound to. */
  lemma ListUsersIsTheUsersObject(u: Users)
    requires DistinctEmails(u)
    ensures forall i, j :: 0 <= i < j < |ListUsers(u)| ==> ListUsers(u)[i].email != ListUsers(u)[j].email
    ensures forall x: UserEntry :: x in ListUsers(u) <==> x.email in AsMap(u) && AsMap(u)[x.email] == x.role
  {
    var r := ListUsers(u);
    forall x | x in r
      ensures x.email in AsMap(u) && AsMap(u)[x.email] == x.role
    {
      var i :| 0 <= i < |r| && r[i] == x;
      assert Emails(u)[i] == x.email;
      LookupOfBinding(u, i);
    }
    forall x: UserEntry | x.email in AsMap(u) && AsMap(u)[x.email] == x.role
      ensures x in r
    {
      var i :| 0 <= i < |u| && Emails(u)[i] == x.email;
      LookupOfBinding(u, i);
      assert r[i] == x;
    }
  }

  /** `GET /users`. */
  function ListUsersHandler(s: Store): (r: (Response, Store))
    ensures r.1 == s
    ensures r.0.Json? && r.0.status == 200 && r.0.payload.UserList?
    ensures r.0.payload.entries == ListUsers(s.users)
  {
    (Json(200, UserList(ListUsers(s.users))), s)
  }

  /** `POST /roles`: validates `name` and `permissions`, then replaces
      `roles[name]` with the list as given. */
  function DefineRole(req: Request, s: Store): (r: (Response, Store))
    ensures req.body.None? ==> r == (ServerError, s)
    ensures r.1.users == s.users
    ensures r.0 == Json(400, ErrorMessage(InvalidRoleDefinition)) <==>
      req.body.Some? && (!Truthy(Field(req.body.value, "name")) || !IsArray(Field(req.body.value, "permissions")))
    ensures r.0 != Json(400, ErrorMessage(InvalidRoleDefinition)) && req.body.Some? ==>
      var name, permissions := Field(req.body.value, "name"), Field(req.body.value, "permissions");
      && r.0 == Json(201, RoleDefined(name, permissions))
      && r.1.roles.Keys == s.roles.Keys + {PropertyKey(name)}
      && r.1.roles[PropertyKey(name)] == permissions
      && forall k :: k in s.roles && k != PropertyKey(name) ==> r.1.roles[k] == s.roles[k]
    ensures !(r.0.Json? && r.0.status == 201) ==> r.1 == s
  {
    match req.body
    case None => (ServerError, s)
    case Some(body) =>
      var name, permissions := Field(body, "name"), Field(body, "permissions");
      if !Truthy(name) || !IsArray(permissions) then
        (Json(400, ErrorMessage(InvalidRoleDefinition)), s)
      else
        (Json(201, RoleDefined(name, permissions)),
         s.(roles := s.roles[PropertyKey(name) := permissions]))
  }

  /** A second definition of a role replaces the first outright: the
      permission lists are not merged. */
  lemma RedefineReplaces(req1: Request, req2: Request, s: Store)
    requires req1.body.Some? && req2.body.Some?
    requires PropertyKey(Field(req1.body.value, "name")) == PropertyKey(Field(req2.body.value, "name"))
    requires DefineRole(req1, s).0.status == 201 && DefineRole(req2, s).0.status == 201
    ensures DefineRole(req2, DefineRole(req1, s).1).1 == DefineRole(req2, s).1
  {
  }

  /** `POST /tokens` and `GET /testing`: validate `user` and `role`, then
      overwrite `users[user]`. Whether `role` is defined in `roles` is never
      consulted. */
  function BindUser(req: Request, s: Store): (r: (Response, Store))
    ensures req.body.None? ==> r == (ServerError, s)
    ensures r.1.roles == s.roles
    ensures r.0 == Json(400, ErrorMessage(MissingUserOrRole)) <==>
      req.body.Some? && (!Truthy(Field(req.body.value, "user")) || !Truthy(Field(req.body.value, "role")))
    ensures r.0 != Json(400, ErrorMessage(MissingUserOrRole)) && req.body.Some? ==>
      var user, role := Field(req.body.value, "user"), Field(req.body.value, "role");
      && r.0 == Json(201, RoleAssigned(user, role))
      && Truthy(role)
      && AsMap(r.1.users) == AsMap(s.users)[PropertyKey(user) := role]
    ensures !(r.0.Json? && r.0.status == 201) ==> r.1 == s
    ensures DistinctEmails(s.users) ==> DistinctEmails(r.1.users)
  {
    match req.body
    case None => (ServerError, s)
    case Some(body) =>
      var user, role := Field(body, "user"), Field(body, "role");
      if !Truthy(user) || !Truthy(role) then
        (Json(400, ErrorMessage(MissingUserOrRole)), s)
      else
        PutIsMapUpdate(s.users, PropertyKey(user), role);
        PutKeepsDistinct(s.users, PropertyKey(user), role);
        (Json(201, RoleAssigned(user, role)),
         s.(users := Put(s.users, PropertyKey(user), role)))
  }

  /** A later binding of the same user wins over an earlier one, and the
      user keeps the place it had in the listing. */
  lemma RebindOverwrites(req1: Request, req2: Request, s: Store)
    requires req1.body.Some? && req2.body.Some?
    requires PropertyKey(Field(req1.body.value, "user")) == PropertyKey(Field(req2.body.value, "user"))
    requires BindUser(req1, s).0.status == 201 && BindUser(req2, s).0.status == 201
    ensures BindUser(req2, BindUser(req1, s).1).1 == BindUser(req2, s).1
    ensures Emails(BindUser(req2, BindUser(req1, s).1).1.users) == Emails(BindUser(req1, s).1.users)
  {
    var key := PropertyKey(Field(req1.body.value, "user"));
    OverwriteWins(s.users, key, Field(req1.body.value, "role"), Field(req2.body.value, "role"));
  }

  /** A binding succeeds whatever `roles` holds: a role need not be defined. */
  lemma BindIgnoresRoles(req: Request, s: Store, roles: map<string, Value>)
    ensures BindUser(req, s.(roles := roles)).0 == BindUser(req, s).0
    ensures BindUser(req, s.(roles := roles)).1.users == BindUser(req, s).1.users
  {
  }

  /** `GET /permissions`, `/permission`, `/advice` and `/delete`. */
  function DumpRoles(s: Store): (r: (Response, Store))
    ensures r.1 == s
    ensures r.0 == Json(200, RolesDump(s.roles))
  {
    (Json(200, RolesDump(s.roles)), s)
  }

  /** The handler registered last on the route. Every handler answers, never
      with 401; only `POST /roles` can touch `roles` and only the two binding
      routes can touch `users`. */
  function Handle(e: Endpoint, req: Request, s: Store): (r: (Response, Store))
    ensures r.0 != NoResponse && r.0 != NotFound && !(r.0.Json? && r.0.status == 401)
    ensures r.1.roles != s.roles ==> e == PostRoles
    ensures r.1.users != s.users ==> e == PostTokens || e == GetTesting
  {
    match e
    case GetUsers => ListUsersHandler(s)
    case PostRoles => DefineRole(req, s)
    case PostTokens => BindUser(req, s)
    case GetTesting => BindUser(req, s)
    case _ => DumpRoles(s)
  }

  /** A request to route `e`: through the gate first when the route has one,
      and on to the handler only if the gate calls `next`. */
  function Dispatch(e: Endpoint, req: Request, s: Store): (r: (Response, Store))
    ensures Gated(e) ==> r.1 == s && (r.0 == Unauthorized || r.0 == NoResponse)
    ensures !Gated(e) ==> r == BindUser(req, s)
  {
    match RequiredPermission(e)
    case None => Handle(e, req, s)
    case Some(permission) =>
      var (outcome, s') := CheckPermission(permission, req, s);
      match outcome
      case Halt(response) => (response, s')
      case Next => Handle(e, req, s')
  }

  /** `GET /testing` is a copy of `POST /tokens`. */
  lemma TestingMirrorsTokens(req: Request, s: Store)
    ensures Dispatch(GetTesting, req, s) == Dispatch(PostTokens, req, s)
  {
  }

  /** A request by method and path; an unregistered one gets Express's 404. */
  function Serve(verb: string, path: string, req: Request, s: Store): (r: (Response, Store))
    ensures Route(verb, path).None? ==> r == (NotFound, s)
  {
    match Route(verb, path)
    case None => (NotFound, s)
    case Some(e) => Dispatch(e, req, s)
  }

  /** No gated handler ever answers: whatever it would have sent, the client
      receives the gate's 401 or nothing. */
  lemma {:induction false} GatedHandlersNeverRun(e: Endpoint, req: Request, s: Store)
    requires Gated(e)
    ensures Dispatch(e, req, s).0 != Handle(e, req, s).0
  {
  }

  /** In particular a role can never be defined over HTTP. */
  lemma DefineRoleUnreachable(req: Request, s: Store)
    ensures Dispatch(PostRoles, req, s).1.roles == s.roles
    ensures !(Dispatch(PostRoles, req, s).0.Json? && Dispatch(PostRoles, req, s).0.status == 201)
  {
  }

  /** Only the two ungated routes can change the store. */
  lemma OnlyUngatedRoutesWrite(verb: string, path: string, req: Request, s: Store)
    requires Serve(verb, path, req, s).1 != s
    ensures Route(verb, path) == Some(PostTokens) || Route(verb, path) == Some(GetTesting)
  {
  }

  /** The state after serving a sequence of requests, one after another. */
  function ServeAll(s: Store, reqs: seq<(string, string, Request)>): Store
    decreases |reqs|
  {
    if reqs == [] then s
    else ServeAll(Serve(reqs[0].0, reqs[0].1, reqs[0].2, s).1, reqs[1..])
  }

  /** No sequence of HTTP requests changes `roles`. */
  lemma {:induction false} ServeAllKeepsRoles(s: Store, reqs: seq<(string, string, Request)>)
    ensures ServeAll(s, reqs).roles == s.roles
    decreases |reqs|
  {
    if reqs != [] {
      ServeAllKeepsRoles(Serve(reqs[0].0, reqs[0].1, reqs[0].2, s).1, reqs[1..]);
    }
  }

  /** Serving requests keeps the keys of `users` distinct. */
  lemma {:induction false} ServeAllKeepsValid(s: Store, reqs: seq<(string, string, Request)>)
    requires Valid(s)
    ensures Valid(ServeAll(s, reqs))
    decreases |reqs|
  {
    if reqs != [] {
      ServeAllKeepsValid(Serve(reqs[0].0, reqs[0].1, reqs[0].2, s).1, reqs[1..]);
    }
  }

  /** Every HTTP write binds a truthy role, so a store whose roles are all
      truthy stays that way. */
  lemma {:induction false} ServeAllKeepsRolesTruthy(s: Store, reqs: seq<(string, string, Request)>)
    requires AllRolesTruthy(s.users)
    ensures AllRolesTruthy(ServeAll(s, reqs).users)
    decreases |reqs|
  {
    if reqs != [] {
      var (verb, path, req) := reqs[0];
      var next := Serve(verb, path, req, s).1;
      if next != s {
        var body := req.body.value;
        PutKeepsRolesTruthy(s.users, PropertyKey(Field(body, "user")), Field(body, "role"));
      }
      ServeAllKeepsRolesTruthy(next, reqs[1..]);
    }
  }

  /** When every bound role is truthy, the gate knows a caller exactly when
      the header value is a key of `users`. */
  lemma KnownIffPresent(email: string, u: Users)
    requires AllRolesTruthy(u)
    ensures KnownCaller(email, u) <==> email in Emails(u)
  {
    if Lookup(u, email).Some? {
      var i :| 0 <= i < |u| && u[i] == Binding(email, Lookup(u, email).value);
    }
  }

  /** Starting from a store whose roles are all truthy, after any HTTP
      traffic the gate's "known caller" test is plain key presence. */
  lemma ServedCallerKnownIffPresent(s: Store, reqs: seq<(string, string, Request)>, email: string)
    requires AllRolesTruthy(s.users)
    ensures KnownCaller(email, ServeAll(s, reqs).users) <==> email in Emails(ServeAll(s, reqs).users)
  {
    ServeAllKeepsRolesTruthy(s, reqs);
    KnownIffPresent(email, ServeAll(s, reqs).users);
  }
}
