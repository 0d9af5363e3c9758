/**
 The request gate `checkPermission(requiredPermission)`. Its live code only
 rejects a caller whose `x-user-email` header is missing or empty, or names a
 key of `users` without a truthy role, with 401; for every other caller it
 neither responds nor passes the request on. The role lookup, the permission
 comparison, the 403 reply and the call to `next` are all commented out.
 */
module AuthMiddleware {
  import opened Js
  import opened IdentityStore
  import opened Http

  const NoUserContext := "Unauthorized: no user context"

  /** The 401 reply sent for an unidentified caller. */
  const Unauthorized := Json(401, ErrorMessage(NoUserContext))

  /** What the gate does with a request: answer it itself, or hand it to the
      next handler of the route. */
  datatype GateOutcome = Halt(response: Response) | Next

  /** `!users[email]` is false: the header names a key bound to a truthy role. */
  predicate KnownCaller(email: string, u: Users)
    ensures KnownCaller(email, u) ==> email in Emails(u)
    ensures KnownCaller(email, u) ==> exists v :: Binding(email, v) in u && Truthy(v)
  {
    var bound := Lookup(u, email);
    bound.Some? && Truthy(bound.value)
  }

  /** One run of the middleware returned by `checkPermission(requiredPermission)`
      on `req`, against store `s`. The password header plays no part. */
  function CheckPermission(requiredPermission: string, req: Request, s: Store): (r: (GateOutcome, Store))
    ensures r.1 == s
    ensures r.0.Halt?
    ensures r.0.response == Unauthorized || r.0.response == NoResponse
    ensures req.email.None? || req.email == Some("") ==> r.0.response == Unauthorized
    ensures req.email.Some? && req.email.value !in Emails(s.users) ==> r.0.response == Unauthorized
  {
    var userEmail := req.email;
    if userEmail.None? || userEmail.value == "" || !KnownCaller(userEmail.value, s.users) then
      (Halt(Unauthorized), s)
    else
      (Halt(NoResponse), s)
  }

  /** The decision reads nothing but the email header and `users`: not the
      required permission, not `roles`, not the password header. */
  lemma DecisionIgnoresPermissionRolesAndPassword(
    p1: string, p2: string, req1: Request, req2: Request, s1: Store, s2: Store)
    requires req1.email == req2.email
    requires s1.users == s2.users
    ensures CheckPermission(p1, req1, s1).0 == CheckPermission(p2, req2, s2).0
  {
  }

  /** With distinct keys, the 401 path is taken exactly when no binding for
      the header value holds a truthy role: the lookup is an exact key match. */
  lemma {:induction false} RejectsExactlyUnboundCallers(p: string, req: Request, s: Store)
    requires Valid(s)
    ensures CheckPermission(p, req, s).0 == Halt(Unauthorized) <==>
      (req.email.None? || req.email.value == ""
       || forall i :: 0 <= i < |s.users| && s.users[i].email == req.email.value ==> !Truthy(s.users[i].role))
  {
    if req.email.Some? && req.email.value != "" {
      var e := req.email.value;
      var u := s.users;
      if Lookup(u, e).Some? {
        var i :| 0 <= i < |u| && u[i] == Binding(e, Lookup(u, e).value);
        forall j | 0 <= j < |u| && u[j].email == e ensures j == i { }
      } else {
        forall j | 0 <= j < |u| ensures u[j].email != e {
          assert Emails(u)[j] == u[j].email;
        }
      }
    }
  }
}
