# Access-control service: store, request gate, routes and CLI

This project models the access-control service's in-memory store and every
operation that reads or writes it. It then proves what those operations do.

- **Store.** `users` maps an email to a role. `roles` maps a role name to a
  permission list. `users` is an insertion-ordered association list, because
  the `GET /users` listing follows the object's key order.
- **Request gate.** `checkPermission(requiredPermission)` is the per-request
  middleware.
- **Router.** Eight routes: `GET /users`, `POST /roles`, the four roles dumps
  (`/permissions`, `/permission`, `/advice`, `/delete`), `POST /tokens` and
  `GET /testing`.
- **CLI.** The `assign-role <email> <role>` command.

The intended design is an authorization engine that answers 401, 403 or
"allowed", and forwards allowed requests to the handler. The code does not do
that, and the model follows the code:

- The live gate answers 401 `Unauthorized: no user context` when the
  `x-user-email` header is missing or empty. It also answers 401 when the
  header names no key of `users` bound to a truthy role.
- For every other caller the gate sends nothing and never calls `next`. The
  role lookup, the permission test, the 403 reply and `next()` are commented
  out.
- Six routes are wrapped in the gate, so their handlers can never run.
  Requests routed to `POST /tokens` or `GET /testing` are the only requests
  that change the store. A `HEAD /testing` request counts too, because
  Express serves `HEAD` with the `GET` route. No request over HTTP can change
  `roles`.

The modules follow the program's structure:

- `Js`: body-field values (`undefined`, `null`, string, array, other), JavaScript
  truthiness, `Array.isArray`, and the property-key conversion `obj[v]` applies.
- `IdentityStore`: the store, lookup and keyed assignment.
- `Http`: the abstract request (email header, password header, optional body)
  and the responses.
- `AuthMiddleware`: the gate.
- `Routes`: the route table, the handlers, dispatch through the gate, and
  lemmas about any sequence of requests.
- `Manage`: the CLI.

Every operation is a pure function that returns its outcome together with
the store afterwards. For a route handler the outcome is a response. For
the gate it is a `GateOutcome`: a response, or a hand-over to the next
handler. For the CLI it is the line it prints.

`src/authMiddleware.js:6` is not valid JavaScript. Its evident purpose is to
read the password header, whose value is never used, so the request carries
that header and the gate ignores it. `src/db.js` is not part of
this model. The initial store is any pair of string-keyed maps whose `users`
keys are distinct (`IdentityStore.Valid`), as an object's keys always are.

## Model

| member | source | states |
|---|---|---|
| IdentityStore.Lookup | src/authMiddleware.js:7 | `users[email]` is absent exactly when `email` is not one of the keys; a found value is bound to that very key |
| IdentityStore.Put | src/routes.js:44 | assignment keeps the key order when the key exists, appends the key when it is new, leaves every other position untouched, and the assigned key holds the new role |
| IdentityStore.PutThenLookup | src/routes.js:44 | after `users[email] = role`, reading `users[email]` gives `role`, whatever was there before |
| IdentityStore.PutFrame | cli/manage.js:6 | assigning one key leaves the value read under every other key unchanged |
| IdentityStore.PutKeepsDistinct | src/routes.js:53 | assignment never creates a duplicate key |
| IdentityStore.PutIsMapUpdate | src/routes.js:44 | the association-list assignment is exactly a finite-map update of the object it denotes |
| IdentityStore.OverwriteWins | src/routes.js:44 | a second assignment to a key fully replaces the first: the result is the same as if only the second happened |
| IdentityStore.PutKeepsRolesTruthy | src/routes.js:41-44 | assigning a truthy role keeps every role in `users` truthy |
| AuthMiddleware.CheckPermission | src/authMiddleware.js:3-20 | the gate never mutates the store and never calls `next`; it answers 401 `Unauthorized: no user context` for a missing or empty header and for an email that is not a key, and otherwise sends 401 or nothing |
| AuthMiddleware.DecisionIgnoresPermissionRolesAndPassword | src/authMiddleware.js:3-16 | the outcome depends on neither the required permission nor `roles` nor the password header: requests with the same email header against stores with the same `users` get the same outcome |
| AuthMiddleware.RejectsExactlyUnboundCallers | src/authMiddleware.js:7-8 | with distinct keys, 401 is sent if and only if the header is missing or empty or every binding whose key equals the header value exactly has a falsy role |
| Js.PropertyKey | src/routes.js:18 | the key `obj[v]` uses; the contract covers only the string case (a string is its own key), and the array join and the `null`/`undefined` items joining as `""` rest on the body |
| AuthMiddleware.KnownCaller | src/authMiddleware.js:7 | a caller the gate lets past the 401 check is a key of `users` bound to a truthy role |
| Routes.Route | src/routes.js:7-55 | a method and path resolve to a route only if that route is registered under that method and path, `HEAD` being served by the `GET` route |
| Routes.RouteFindsEveryEndpoint | src/routes.js:7-55 | every registered route is found under its own method and path, and every `GET` route also under `HEAD` |
| Routes.RequiredPermission | src/routes.js:7-35 | only `/tokens` and `/testing` have no gate; every gate asks for `view_users`, `create_role` or `view_permissions`, and every roles dump asks for `view_permissions` |
| Routes.Handle | src/routes.js:8-54 | every handler sends a response, never a 401; only the `/roles` handler can change `roles`, and only the `/tokens` and `/testing` handlers can change `users` |
| Routes.Serve | src/routes.js:5-57 | a method and path with no registered route get a 404 and leave the store unchanged |
| Routes.UngatedRoutes | src/routes.js:39-48 | `/tokens` and `/testing` are exactly the routes registered without `checkPermission` |
| Routes.ListUsers | src/routes.js:8 | the listing has one entry per binding, and the entries' emails follow the key order |
| Routes.ListUsersIsTheUsersObject | src/routes.js:8 | with distinct keys, no email is listed twice, and an `{email, role}` entry is listed if and only if `users[email]` is `role` |
| Routes.ListUsersHandler | src/routes.js:7-9 | `GET /users` answers 200 with the listing and leaves the store unchanged |
| Routes.DefineRole | src/routes.js:13-20 | a missing or falsy `name` or a non-array `permissions` gives 400 `Invalid role definition` and no change; otherwise the reply is 201 echoing `{role, permissions}`, `roles[name]` becomes exactly the supplied list, the key set grows by that key only, all other roles and `users` are unchanged; with no parsed body the handler throws (500) and changes nothing |
| Routes.RedefineReplaces | src/routes.js:18 | defining a role twice leaves only the second list: replace, not merge |
| Routes.BindUser | src/routes.js:39-46 | a missing or falsy `user` or `role` gives 400 `Missing user or role` and no change; otherwise the reply is 201 echoing `{user, role}`, the bound role is truthy, the `users` object becomes the old one updated at `user` only, and `roles` is unchanged |
| Routes.RebindOverwrites | src/routes.js:44 | binding the same user twice leaves only the second role, and the user keeps its place in the key order |
| Routes.BindIgnoresRoles | src/routes.js:40-45 | the binding's reply and effect on `users` do not depend on `roles`, so a role need not be defined |
| Routes.DumpRoles | src/routes.js:22-37 | the four dump routes answer 200 with the `roles` map as it is and change nothing |
| Routes.Dispatch | src/routes.js:7-55 | on a gated route the store is unchanged and the reply is the gate's 401 or nothing; an ungated route runs the binding handler |
| Routes.TestingMirrorsTokens | src/routes.js:48-55 | `GET /testing` behaves exactly like `POST /tokens` |
| Routes.GatedHandlersNeverRun | src/authMiddleware.js:18 | on a gated route the client never receives what the route's handler would have sent |
| Routes.DefineRoleUnreachable | src/routes.js:13 | over HTTP `POST /roles` never answers 201 and never changes `roles` |
| Routes.OnlyUngatedRoutesWrite | src/routes.js:39 | a request that changes the store was routed to `/tokens` or `/testing` |
| Routes.ServeAllKeepsRoles | src/routes.js:7-55 | no sequence of HTTP requests changes `roles` |
| Routes.ServeAllKeepsValid | src/routes.js:39-55 | any sequence of HTTP requests keeps the keys of `users` distinct |
| Routes.ServeAllKeepsRolesTruthy | src/routes.js:41-53 | every HTTP write binds a truthy role, so a store with only truthy roles keeps that property over any request sequence |
| Routes.KnownIffPresent | src/authMiddleware.js:7 | when every bound role is truthy, the gate knows a caller exactly when the header value is a key of `users` |
| Routes.ServedCallerKnownIffPresent | src/authMiddleware.js:7-9 | starting from a store with only truthy roles, after any HTTP traffic the gate's known-caller test is plain key presence |
| Manage.Message | cli/manage.js:7-9 | the usage line is the fixed text; the success line quotes the role and then the email verbatim, each at a fixed offset |
| Manage.Run | cli/manage.js:3-10 | the command succeeds exactly for `assign-role` with a non-empty email and role; it then binds `users[email]` to the role, reports that pair, and leaves every other key and `roles` unchanged; any other input prints usage and changes nothing |
| Manage.MessageNamesTheBinding | cli/manage.js:6-7 | the success message quotes the written role and then the written email verbatim, at fixed offsets |
| Manage.ReassignOverwrites | cli/manage.js:6 | assigning the same email twice leaves only the second role |
| Manage.AssignIgnoresRoles | cli/manage.js:5 | the command's outcome does not depend on `roles`: the role need not be defined |

## Left out

- `src/index.js` (process start-up and listening) is not modelled. As written it
  refers to `app` and `port`, which are never defined, and it never mounts the
  router or a body parser.
- Express routing internals are not modelled. Routes match on the exact method
  and path strings. The one exception is `HEAD`, which Express serves with the
  `GET` route, so `HEAD /testing` writes `users` like `GET /testing`.
  Case-insensitive and trailing-slash matching and the mount prefix are left
  out. An unregistered method and path gives an abstract 404.
- `Js.PropertyKey`: the contract states only that a string is its own key. The
  comma join of an array key and the empty text of `null` and `undefined`
  items are defined in the body, not promised by the contract.
- The `req`, `res` and `next` objects and JSON serialisation are left out.
  Responses are abstract values. A thrown exception is Express's 500 page, with
  no error text.
- `Routes.ListUsers`: the listing uses plain insertion order. JavaScript lists
  array-index keys such as `"0"` or `"42"` first, in numeric order, and the
  model does not.
- Inherited keys are left out, and both maps are plain finite maps. A key such
  as `"constructor"` exists on a plain object's prototype and would pass the
  gate's lookup. Assigning to `"__proto__"` never adds a key. When the value is
  an object or an array, such as a `permissions` list, it replaces the
  prototype. When the value is a string, as a role from the CLI always is, the
  assignment is ignored and nothing changes.
- `src/db.js` is not part of this model: initial contents, and persistence
  between the CLI process and the server.
- The commented-out role lookup, permission test, 403 reply and `next()` call
  (`src/authMiddleware.js:11-18`) are not live code and are not modelled.
- The string conversion of numbers, booleans and objects used as keys is an
  abstract `text` field of the `Other` value.
- Request headers that arrive as arrays of values are left out.
- Console output is not modelled: the CLI returns the message it would print.
  `process.argv` is reduced to its three positional arguments.
- Concurrency is left out: requests are served one after another.
