/**
 The in-memory store shared by the server and the command line: `users`, a
 plain object from email to role, and `roles`, a plain object from role name
 to permission list. An object's own string keys enumerate in insertion order
 and an assignment to an existing key keeps its place, so `users` is an
 association list; `roles` is only ever read whole or written by key, so a map
 suffices.
 */
module IdentityStore {
  import opened Js

  datatype Binding = Binding(email: string, role: Value)

  type Users = seq<Binding>

  datatype Store = Store(users: Users, roles: map<string, Value>)

  /** The keys of `users`, in enumeration order. */
  function Emails(u: Users): seq<string> {
    seq(|u|, i requires 0 <= i < |u| => u[i].email)
  }

  /** A JavaScript object never holds the same key twice. */
  predicate DistinctEmails(u: Users) {
    forall i, j :: 0 <= i < j < |u| ==> u[i].email != u[j].email
  }

  predicate Valid(s: Store) {
    DistinctEmails(s.users)
  }

  /** `users[email]`: the bound role, or `None` when the key is absent
      (JavaScript yields `undefined`). */
  function Lookup(u: Users, email: string): (r: Option<Value>)
    ensures r.None? <==> email !in Emails(u)
    ensures r.Some? ==> Binding(email, r.value) in u
  {
    if u == [] then None
    else
      assert Emails(u) == [u[0].email] + Emails(u[1..]);
      if u[0].email == email then Some(u[0].role)
      else Lookup(u[1..], email)
  }

  /** `Lookup` finds the first binding of the key. */
  lemma {:induction false} LookupFirst(u: Users, email: string)
    ensures Lookup(u, email).Some? ==>
      exists i :: 0 <= i < |u| && u[i] == Binding(email, Lookup(u, email).value)
        && forall j :: 0 <= j < i ==> u[j].email != email
  {
    if u != [] && u[0].email != email {
      LookupFirst(u[1..], email);
      if Lookup(u, email).Some? {
        var i :| 0 <= i < |u[1..]| && u[1..][i] == Binding(email, Lookup(u, email).value)
          && forall j :: 0 <= j < i ==> u[1..][j].email != email;
        assert u[i + 1] == u[1..][i];
        forall j | 0 <= j < i + 1 ensures u[j].email != email {
          if j > 0 { assert u[j] == u[1..][j - 1]; }
        }
      }
    }
  }

  /** Two lists that agree on every binding of `email`, and where the longer
      one has no further binding of it, give the same `Lookup`. */
  lemma {:induction false} LookupMatchesOn(u: Users, r: Users, email: string)
    requires |u| <= |r|
    requires forall i :: 0 <= i < |u| && (u[i].email == email || r[i].email == email) ==> u[i] == r[i]
    requires forall i :: |u| <= i < |r| ==> r[i].email != email
    ensures Lookup(u, email) == Lookup(r, email)
  {
    if u == [] {
      assert email !in Emails(r) by {
        forall i | 0 <= i < |r| ensures Emails(r)[i] != email { }
      }
    } else if u[0].email != email && r[0].email != email {
      LookupMatchesOn(u[1..], r[1..], email);
    }
  }

  /** `users[email] = role`: overwrites the value of an existing key in its
      place, or appends a new key at the end. */
  function Put(u: Users, email: string, role: Value): (r: Users)
    ensures Emails(r) == if email in Emails(u) then Emails(u) else Emails(u) + [email]
    ensures forall i :: 0 <= i < |u| && u[i].email != email ==> r[i] == u[i]
    ensures forall i :: 0 <= i < |r| && r[i].email == email ==> r[i].role == role
  {
    if email in Emails(u) then
      seq(|u|, i requires 0 <= i < |u| => if u[i].email == email then Binding(email, role) else u[i])
    else
      assert forall i :: 0 <= i < |u| ==> Emails(u)[i] == u[i].email;
      u + [Binding(email, role)]
  }

  /** Whatever `users` held, the assigned key now reads back as the new role. */
  lemma {:induction false} PutThenLookup(u: Users, email: string, role: Value)
    ensures Lookup(Put(u, email, role), email) == Some(role)
  {
    var r := Put(u, email, role);
    LookupFirst(r, email);
  }

  /** Assigning one key leaves every other key's value as it was. */
  lemma {:induction false} PutFrame(u: Users, email: string, role: Value, e: string)
    requires e != email
    ensures Lookup(Put(u, email, role), e) == Lookup(u, e)
  {
    var r := Put(u, email, role);
    LookupMatchesOn(u, r, e);
  }

  /** Assignment never creates a duplicate key. */
  lemma PutKeepsDistinct(u: Users, email: string, role: Value)
    ensures DistinctEmails(u) ==> DistinctEmails(Put(u, email, role))
  {
    var r := Put(u, email, role);
    if !DistinctEmails(u) { return; }
    forall i, j | 0 <= i < j < |r|
      ensures r[i].email != r[j].email
    {
      assert Emails(r)[i] == r[i].email && Emails(r)[j] == r[j].email;
    }
  }

  /** The object `users` denotes, as a finite map. */
  function AsMap(u: Users): (m: map<string, Value>)
    ensures m.Keys == set e | e in Emails(u)
    ensures forall e :: e in m ==> Lookup(u, e) == Some(m[e])
  {
    map e | e in Emails(u) :: Lookup(u, e).value
  }

  /** Assignment into the association list is assignment into the object. */
  lemma {:induction false} PutIsMapUpdate(u: Users, email: string, role: Value)
    ensures AsMap(Put(u, email, role)) == AsMap(u)[email := role]
  {
    var l, r := AsMap(Put(u, email, role)), AsMap(u)[email := role];
    assert l.Keys == r.Keys;
    forall e | e in l
      ensures l[e] == r[e]
    {
      if e == email {
        PutThenLookup(u, email, role);
      } else {
        PutFrame(u, email, role, e);
      }
    }
  }

  /** A later assignment to a key hides every earlier one. */
  lemma OverwriteWins(u: Users, email: string, r1: Value, r2: Value)
    ensures Put(Put(u, email, r1), email, r2) == Put(u, email, r2)
  {
    var a, b := Put(Put(u, email, r1), email, r2), Put(u, email, r2);
    assert Emails(a) == Emails(b);
    assert |a| == |b|;
    forall i | 0 <= i < |a| ensures a[i] == b[i] {
      assert Emails(a)[i] == Emails(b)[i];
      assert i < |u| && u[i].email != email ==> a[i] == u[i] == b[i];
    }
  }

  /** With distinct keys, the first matching binding is the only one. */
  lemma {:induction false} LookupOfBinding(u: Users, i: nat)
    requires DistinctEmails(u)
    requires i < |u|
    ensures Lookup(u, u[i].email) == Some(u[i].role)
  {
    if i > 0 {
      assert u[0].email != u[i].email;
      assert u[1..][i - 1] == u[i];
      LookupOfBinding(u[1..], i - 1);
    }
  }

  /** Every binding holds a truthy role. */
  predicate AllRolesTruthy(u: Users) {
    forall i :: 0 <= i < |u| ==> Truthy(u[i].role)
  }

  lemma PutKeepsRolesTruthy(u: Users, email: string, role: Value)
    requires AllRolesTruthy(u)
    requires Truthy(role)
    ensures AllRolesTruthy(Put(u, email, role))
  {
    var r := Put(u, email, role);
    forall i | 0 <= i < |r| ensures Truthy(r[i].role) {
      assert Emails(r)[i] == r[i].email;
    }
  }
}
