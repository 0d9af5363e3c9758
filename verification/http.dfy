/**
 Abstract HTTP exchange: the parts of a request the service reads and the
 responses it can produce. Express's `req`, `res` and `next` objects are not
 modelled beyond this.
 */
module Http {
  import opened Js

  /** The request as the handlers see it. `email` and `password` are the
      `x-user-email` and `x-user-password` headers; `body` is `req.body`,
      `None` when no body parser has filled it in (`undefined`). */
  datatype Request = Request(
    email: Option<string>,
    password: Option<string>,
    body: Option<map<string, Value>>)

  /** `req.body[name]`, `undefined` when the field is absent. */
  function Field(body: map<string, Value>, name: string): Value {
    if name in body then body[name] else Missing
  }

  /** One element of the `GET /users` listing, `{ email, role }`. */
  datatype UserEntry = UserEntry(email: string, role: Value)

  /** The JSON bodies the routes send. */
  datatype Payload =
    | ErrorMessage(error: string)
    | UserList(entries: seq<UserEntry>)
    | RoleDefined(role: Value, permissions: Value)
    | RoleAssigned(user: Value, role: Value)
    | RolesDump(roles: map<string, Value>)

  /** What the client receives: a JSON response with a status code, nothing
      at all (the request is left hanging), Express's 500 page for an
      exception thrown inside a handler, or its 404 page for a method and
      path no route is registered for. */
  datatype Response =
    | Json(status: int, payload: Payload)
    | NoResponse
    | ServerError
    | NotFound
}
