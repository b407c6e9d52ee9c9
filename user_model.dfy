/** The User document: the password-required rule, the role enum, the
    unique indexes, and the hash-on-modify save hook. */
module UserModel {
  import opened Common

  const Roles: set<string> := {"student", "instructor", "admin"}

  /** A stored user. `password` holds the stored (hashed) value. */
  datatype User = User(
    id: Id,
    name: string,
    email: string,
    password: Option<string>,
    role: string,
    googleId: Option<string>,
    githubId: Option<string>)

  /** The `required` function of the password path. */
  predicate PasswordRequired(u: User) {
    !Truthy(u.googleId) && !Truthy(u.githubId)
  }

  predicate ValidUser(u: User) {
    && u.name != ""
    && u.email != ""
    && (PasswordRequired(u) ==> Truthy(u.password))
    && u.role in Roles
  }

  /** A password is required exactly when neither provider id is set. */
  lemma PasswordRuleIff(u: User)
    requires u.name != "" && u.email != "" && u.role in Roles
    ensures ValidUser(u) <==> Truthy(u.password) || Truthy(u.googleId) || Truthy(u.githubId)
  {
  }

  /** The rule does not forbid a password beside a provider id: a local
      account that was later linked keeps both. */
  lemma PasswordAndProviderMayCoexist()
    ensures ValidUser(User("u1", "Ann", "a@x.com", Some("hash"), "student", Some("g-1"), None))
  {
  }

  /** The unique indexes: `_id` and `email` on every user; the sparse
      `googleId` and `githubId` indexes on the users that have one. */
  predicate UniqueUsers(users: seq<User>) {
    forall i, j :: 0 <= i < j < |users| ==>
      && users[i].id != users[j].id
      && users[i].email != users[j].email
      && (users[i].googleId.Some? ==> users[i].googleId != users[j].googleId)
      && (users[i].githubId.Some? ==> users[i].githubId != users[j].githubId)
  }

  /** The invariant of the user collection. */
  predicate UsersInvariant(users: seq<User>) {
    UniqueUsers(users) && forall i :: 0 <= i < |users| ==> ValidUser(users[i])
  }

  /** Nothing in `users` clashes with `u` on an index. */
  predicate ClashesWithNone(users: seq<User>, u: User) {
    forall i :: 0 <= i < |users| ==>
      users[i].id != u.id && users[i].email != u.email &&
      (u.googleId.Some? ==> users[i].googleId != u.googleId) &&
      (u.githubId.Some? ==> users[i].githubId != u.githubId)
  }

  /** Appending a user keeps the indexes unique iff it clashes with nobody. */
  lemma AppendUnique(users: seq<User>, u: User)
    requires UniqueUsers(users)
    ensures UniqueUsers(users + [u]) <==> ClashesWithNone(users, u)
  {
    var t := users + [u];
    assert forall i :: 0 <= i < |users| ==> t[i] == users[i];
    assert t[|users|] == u;
    if UniqueUsers(t) {
      forall i | 0 <= i < |users|
        ensures users[i].id != u.id && users[i].email != u.email
        ensures u.googleId.Some? ==> users[i].googleId != u.googleId
        ensures u.githubId.Some? ==> users[i].githubId != u.githubId
      {
        assert t[i] == users[i];
      }
    }
  }

  /** The pre-save hook: the password is rehashed only when it was modified
      in this save; otherwise the stored value is kept as it is. `hash`
      stands for bcrypt with cost 10. A password marked modified but absent
      makes bcrypt reject, and the save fails (None). */
  function HashOnSave(u: User, passwordModified: bool, hash: string -> string): (r: Option<User>)
    ensures !passwordModified ==> r == Some(u)
    ensures passwordModified && u.password.Some? ==>
      r.Some? && r.value.password == Some(hash(u.password.value)) && r.value.(password := u.password) == u
    ensures passwordModified && u.password.None? ==> r.None?
  {
    if !passwordModified then Some(u)
    else if u.password.Some? then Some(u.(password := Some(hash(u.password.value))))
    else None
  }
}
