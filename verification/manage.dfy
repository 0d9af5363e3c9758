/**
 The command line `manage.js assign-role <email> <role>`: binds a user to a
 role directly in the store, with no check that the role is defined.
 */
module Manage {
  import opened Js
  import opened IdentityStore

  /** The three positional arguments after the interpreter and script;
      `None` when the argument was not given (`undefined`). */
  datatype Argv = Argv(command: Option<string>, email: Option<string>, role: Option<string>)

  /** What the command prints. */
  datatype Output = Assigned(role: string, email: string) | Usage

  const AssignedHead := "Assigned role '"
  const AssignedMiddle := "' to user '"
  const UsageText := "Usage: node manage.js assign-role <email> <role>"

  /** The line printed: on success it quotes the role and then the email
      verbatim, each at a fixed offset. */
  function Message(o: Output): (m: string)
    ensures o == Usage ==> m == UsageText
    ensures o.Assigned? ==>
      && |m| == |AssignedHead| + |o.role| + |AssignedMiddle| + |o.email| + 1
      && m[|AssignedHead|..|AssignedHead| + |o.role|] == o.role
      && m[|AssignedHead| + |o.role| + |AssignedMiddle|..|m| - 1] == o.email
  {
    match o
    case Assigned(role, email) =>
      var m := AssignedHead + role + AssignedMiddle + email + "'";
      assert m[..|AssignedHead| + |role|] == AssignedHead + role;
      m
    case Usage => UsageText
  }

  /** A present argument is truthy exactly when it is not the empty string. */
  predicate Given(a: Option<string>) {
    a.Some? && a.value != ""
  }

  /** One run of the command against store `s`. */
  function Run(argv: Argv, s: Store): (r: (Output, Store))
    ensures r.0.Assigned? <==> argv.command == Some("assign-role") && Given(argv.email) && Given(argv.role)
    ensures r.0.Assigned? ==>
      && r.0 == Assigned(argv.role.value, argv.email.value)
      && Lookup(r.1.users, argv.email.value) == Some(Str(argv.role.value))
      && (forall e :: e != argv.email.value ==> Lookup(r.1.users, e) == Lookup(s.users, e))
      && r.1.roles == s.roles
    ensures r.0 == Usage ==> r.1 == s
    ensures Valid(s) ==> Valid(r.1)
  {
    if argv.command == Some("assign-role") && Given(argv.email) && Given(argv.role) then
      var email, role := argv.email.value, argv.role.value;
      PutThenLookup(s.users, email, Str(role));
      assert forall e :: e != email ==> Lookup(Put(s.users, email, Str(role)), e) == Lookup(s.users, e) by {
        forall e | e != email ensures Lookup(Put(s.users, email, Str(role)), e) == Lookup(s.users, e) {
          PutFrame(s.users, email, Str(role), e);
        }
      }
      PutKeepsDistinct(s.users, email, Str(role));
      (Assigned(role, email), s.(users := Put(s.users, email, Str(role))))
    else
      (Usage, s)
  }

  /** The success message quotes exactly the role and the email that were
      written into the store. */
  lemma MessageNamesTheBinding(argv: Argv, s: Store)
    requires Run(argv, s).0.Assigned?
    ensures var m, role, email := Message(Run(argv, s).0), argv.role.value, argv.email.value;
      && Lookup(Run(argv, s).1.users, email) == Some(Str(role))
      && m[|AssignedHead|..|AssignedHead| + |role|] == role
      && m[|AssignedHead| + |role| + |AssignedMiddle|..|m| - 1] == email
  {
  }

  /** A second assignment to the same email replaces the first. */
  lemma ReassignOverwrites(a1: Argv, a2: Argv, s: Store)
    requires Run(a1, s).0.Assigned? && Run(a2, s).0.Assigned?
    requires a1.email == a2.email
    ensures Run(a2, Run(a1, s).1).1 == Run(a2, s).1
  {
    OverwriteWins(s.users, a1.email.value, Str(a1.role.value), Str(a2.role.value));
  }

  /** The command succeeds whatever `roles` holds: the role need not exist. */
  lemma AssignIgnoresRoles(argv: Argv, s: Store, roles: map<string, Value>)
    ensures Run(argv, s.(roles := roles)).0 == Run(argv, s).0
    ensures Run(argv, s.(roles := roles)).1.users == Run(argv, s).1.users
  {
  }
}
