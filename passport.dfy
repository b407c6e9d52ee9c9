/** The Google and GitHub verify callbacks: find the account by provider id,
    else link the account with the same email, else create a student. */
module Passport {
  import opened Common
  import opened UserModel
  import opened Db

  /** The fields of a Google profile the callback reads. An email value of
      "" stands for a missing one. */
  datatype GoogleProfile = GoogleProfile(id: string, displayName: string, emails: Option<seq<string>>)

  datatype GithubEmail = GithubEmail(value: string, verified: bool)

  datatype GithubProfile = GithubProfile(id: string, username: Option<string>, emails: Option<seq<GithubEmail>>)

  /** What the callback hands to `done`: the user, or an error. */
  datatype Outcome = Done(user: User) | Failed(reason: string)

  /** The outcome together with the user collection afterwards. */
  datatype Login = Login(outcome: Outcome, users: seq<User>)

  /** Reading `profile.emails?.[0].value`: an empty list makes `[0]`
      undefined and reading `.value` of it throws. */
  datatype EmailRead = Email(address: string) | NoEmail | Throws

  function GoogleEmail(p: GoogleProfile): (r: EmailRead)
    ensures r.Email? <==> p.emails.Some? && |p.emails.value| > 0 && p.emails.value[0] != ""
    ensures r.Email? ==> r.address == p.emails.value[0]
    ensures r == Throws <==> p.emails == Some([])
  {
    if p.emails.None? then NoEmail
    else if |p.emails.value| == 0 then Throws
    else if p.emails.value[0] == "" then NoEmail
    else Email(p.emails.value[0])
  }

  predicate HasGoogleId(u: User, id: string) { u.googleId == Some(id) }
  predicate HasGithubId(u: User, id: string) { u.githubId == Some(id) }
  predicate HasEmail(u: User, email: string) { u.email == email }

  /** The `findOne` filters `{ googleId }`, `{ githubId }` and `{ email }`. */
  function ByGoogleId(id: string): User -> bool { (u: User) => HasGoogleId(u, id) }
  function ByGithubId(id: string): User -> bool { (u: User) => HasGithubId(u, id) }
  function ByEmail(email: string): User -> bool { (u: User) => HasEmail(u, email) }

  /** The Google callback as a transition of the user collection. */
  function GoogleLogin(users: seq<User>, p: GoogleProfile, freshId: Id): (r: Login)
    ensures r.outcome.Failed? ==> r.users == users
    ensures r.outcome.Done? ==> r.outcome.user in r.users && r.outcome.user.googleId == Some(p.id)
    ensures |users| <= |r.users| <= |users| + 1
  {
    match GoogleEmail(p)
    case Throws => Login(Failed("TypeError"), users)
    case NoEmail => Login(Failed("No email returned from Google"), users)
    case Email(email) =>
      match FirstIndex(users, ByGoogleId(p.id))
      case Some(i) => Login(Done(users[i]), users)
      case None =>
        match FirstIndex(users, ByEmail(email))
        case Some(i) =>
          var linked := users[i].(googleId := Some(p.id));
          assert users[i := linked][i] == linked;
          if ValidUser(linked) then Login(Done(linked), users[i := linked])
          else Login(Failed("ValidationError"), users)
        case None =>
          var created := User(freshId, p.displayName, email, None, "student", Some(p.id), None);
          if ValidUser(created) then Login(Done(created), users + [created])
          else Login(Failed("ValidationError"), users)
  }

  /** No usable email: the callback fails before any lookup, even for a
      linked Google id, and the users are untouched. */
  lemma GoogleNeedsEmail(users: seq<User>, p: GoogleProfile, freshId: Id)
    requires !GoogleEmail(p).Email?
    ensures GoogleLogin(users, p, freshId).outcome.Failed?
    ensures GoogleLogin(users, p, freshId).users == users
  {
  }

  /** A linked Google id wins: its first holder is returned unchanged. */
  lemma GoogleFindsLinked(users: seq<User>, p: GoogleProfile, freshId: Id, i: nat)
    requires GoogleEmail(p).Email?
    requires i < |users| && HasGoogleId(users[i], p.id)
    requires forall j :: 0 <= j < i ==> !HasGoogleId(users[j], p.id)
    ensures GoogleLogin(users, p, freshId) == Login(Done(users[i]), users)
  {
  }

  /** Otherwise an account with the same email is linked: only its googleId
      changes, and no user is created. */
  lemma GoogleLinksByEmail(users: seq<User>, p: GoogleProfile, freshId: Id, i: nat)
    requires GoogleEmail(p).Email? && p.id != ""
    requires forall j :: 0 <= j < |users| ==> !HasGoogleId(users[j], p.id)
    requires i < |users| && users[i].email == GoogleEmail(p).address && ValidUser(users[i])
    requires forall j :: 0 <= j < i ==> users[j].email != GoogleEmail(p).address
    ensures GoogleLogin(users, p, freshId) ==
      Login(Done(users[i].(googleId := Some(p.id))), users[i := users[i].(googleId := Some(p.id))])
  {
    assert FirstIndex(users, ByGoogleId(p.id)).None?;
    assert ByEmail(GoogleEmail(p).address)(users[i]);
    assert FirstIndex(users, ByEmail(GoogleEmail(p).address)) == Some(i);
    assert ValidUser(users[i].(googleId := Some(p.id)));
  }

  /** Otherwise exactly one student is created with the profile's name,
      email and Google id. */
  lemma GoogleCreatesStudent(users: seq<User>, p: GoogleProfile, freshId: Id)
    requires GoogleEmail(p).Email? && p.displayName != "" && p.id != ""
    requires forall j :: 0 <= j < |users| ==> !HasGoogleId(users[j], p.id) && users[j].email != GoogleEmail(p).address
    ensures var r := GoogleLogin(users, p, freshId);
      r.outcome.Done? && r.users == users + [r.outcome.user] &&
      r.outcome.user == User(freshId, p.displayName, GoogleEmail(p).address, None, "student", Some(p.id), None)
  {
  }

  /** The user returned by a successful login is the first holder of the
      provider id in the collection afterwards. */
  lemma {:induction false} GoogleLoginLinks(users: seq<User>, p: GoogleProfile, freshId: Id)
    requires GoogleLogin(users, p, freshId).outcome.Done?
    ensures var r := GoogleLogin(users, p, freshId);
      FirstIndex(r.users, ByGoogleId(p.id)).Some? &&
      r.users[FirstIndex(r.users, ByGoogleId(p.id)).value] == r.outcome.user
  {
    var r := GoogleLogin(users, p, freshId);
    var email := GoogleEmail(p).address;
    var k := FirstIndex(r.users, ByGoogleId(p.id));
    match FirstIndex(users, ByGoogleId(p.id))
    case Some(i) =>
      assert r.users == users;
    case None =>
      match FirstIndex(users, ByEmail(email))
      case Some(i) =>
        assert HasGoogleId(r.users[i], p.id);
        assert forall j :: 0 <= j < i ==> r.users[j] == users[j];
      case None =>
        assert HasGoogleId(r.users[|users|], p.id);
        assert forall j :: 0 <= j < |users| ==> r.users[j] == users[j];
  }

  /** Logging in again with the same Google profile returns the same user
      and changes nothing. */
  lemma GoogleRepeatIsStable(users: seq<User>, p: GoogleProfile, freshId: Id, freshId2: Id)
    requires GoogleLogin(users, p, freshId).outcome.Done?
    ensures var first := GoogleLogin(users, p, freshId);
      GoogleLogin(first.users, p, freshId2) == first
  {
    GoogleLoginLinks(users, p, freshId);
  }

  /** A login keeps the user collection's schema rules and unique indexes. */
  lemma GoogleKeepsInvariant(users: seq<User>, p: GoogleProfile, freshId: Id)
    requires UsersInvariant(users)
    requires forall j :: 0 <= j < |users| ==> users[j].id != freshId
    ensures UsersInvariant(GoogleLogin(users, p, freshId).users)
  {
    var email := if GoogleEmail(p).Email? then GoogleEmail(p).address else "";
    if GoogleEmail(p).Email? && FirstIndex(users, ByGoogleId(p.id)).None? {
      match FirstIndex(users, ByEmail(email))
      case Some(i) =>
      case None =>
        AppendUnique(users, User(freshId, p.displayName, email, None, "student", Some(p.id), None));
    }
  }

  /** The Google verify callback against the store. */
  method GoogleVerify(db: Store, p: GoogleProfile, freshId: Id) returns (outcome: Outcome)
    requires db.Valid()
    requires forall j :: 0 <= j < |db.users| ==> db.users[j].id != freshId
    modifies db
    ensures db.Valid() && db.courses == old(db.courses) && db.lessons == old(db.lessons)
    ensures Login(outcome, db.users) == GoogleLogin(old(db.users), p, freshId)
  {
    GoogleKeepsInvariant(db.users, p, freshId);
    var email := GoogleEmail(p);
    if email.Throws? {
      return Failed("TypeError");
    } else if email.NoEmail? {
      return Failed("No email returned from Google");
    }
    var byId := FirstIndex(db.users, ByGoogleId(p.id));
    if byId.Some? {
      return Done(db.users[byId.value]);
    }
    var byEmail := FirstIndex(db.users, ByEmail(email.address));
    if byEmail.Some? {
      var linked := db.users[byEmail.value].(googleId := Some(p.id));
      if !ValidUser(linked) {
        return Failed("ValidationError");
      }
      db.users := db.users[byEmail.value := linked];
      return Done(linked);
    }
    var created := User(freshId, p.displayName, email.address, None, "student", Some(p.id), None);
    if !ValidUser(created) {
      return Failed("ValidationError");
    }
    db.users := db.users + [created];
    outcome := Done(created);
  }

  // ---------------------------------------------------------------------------
  // GitHub

  predicate IsVerified(e: GithubEmail) { e.verified }

  /** `emails.find(e => e.verified)?.value || emails[0]?.value`, kept only
      when truthy (both later uses test it). */
  function GithubEmailOf(p: GithubProfile): (r: Option<string>)
    ensures r.Some? ==> r.value != ""
    ensures p.emails.None? ==> r.None?
    ensures (p.emails.Some? && FirstIndex(p.emails.value, IsVerified).Some? &&
      p.emails.value[FirstIndex(p.emails.value, IsVerified).value].value != "") ==>
      r == Some(p.emails.value[FirstIndex(p.emails.value, IsVerified).value].value)
    ensures (p.emails.Some? && (FirstIndex(p.emails.value, IsVerified).None? ||
      p.emails.value[FirstIndex(p.emails.value, IsVerified).value].value == "")) ==>
      r == (if |p.emails.value| > 0 && p.emails.value[0].value != "" then Some(p.emails.value[0].value) else None)
    ensures r.Some? ==> exists k :: 0 <= k < |p.emails.value| && p.emails.value[k].value == r.value
  {
    if p.emails.None? then None
    else
      var es := p.emails.value;
      var verified := FirstIndex(es, IsVerified);
      if verified.Some? && es[verified.value].value != "" then Some(es[verified.value].value)
      else if |es| > 0 && es[0].value != "" then Some(es[0].value)
      else None
  }

  /** A verified address beats an earlier unverified one. */
  lemma VerifiedEmailPreferred()
    ensures GithubEmailOf(GithubProfile("7", Some("octo"),
      Some([GithubEmail("old@x.com", false), GithubEmail("new@x.com", true)]))) == Some("new@x.com")
  {
    var es := [GithubEmail("old@x.com", false), GithubEmail("new@x.com", true)];
    assert !IsVerified(es[0]) && IsVerified(es[1]);
    assert FirstIndex(es, IsVerified) == Some(1);
  }

  /** `${profile.username}` of an absent username reads "undefined". */
  function UsernameText(username: Option<string>): string {
    if username.Some? then username.value else "undefined"
  }

  /** The user the GitHub callback creates. */
  function GithubNewUser(p: GithubProfile, freshId: Id): (r: User)
    ensures r.role == "student" && r.githubId == Some(p.id) && r.googleId.None? && r.password.None?
    ensures r.name == (if Truthy(p.username) then p.username.value else "GitHub User")
    ensures r.email == (if GithubEmailOf(p).Some? then GithubEmailOf(p).value else UsernameText(p.username) + "@github.temp")
  {
    User(freshId,
      if Truthy(p.username) then p.username.value else "GitHub User",
      if GithubEmailOf(p).Some? then GithubEmailOf(p).value else UsernameText(p.username) + "@github.temp",
      None, "student", None, Some(p.id))
  }

  /** The GitHub callback as a transition of the user collection. Creating a
      user whose email is taken fails on the unique email index. */
  function GithubLogin(users: seq<User>, p: GithubProfile, freshId: Id): (r: Login)
    ensures r.outcome.Failed? ==> r.users == users
    ensures r.outcome.Done? ==> r.outcome.user in r.users && r.outcome.user.githubId == Some(p.id)
    ensures |users| <= |r.users| <= |users| + 1
  {
    match FirstIndex(users, ByGithubId(p.id))
    case Some(i) => Login(Done(users[i]), users)
    case None =>
      var email := GithubEmailOf(p);
      var byEmail := if email.Some? then FirstIndex(users, ByEmail(email.value)) else None;
      if byEmail.Some? then
        var linked := users[byEmail.value].(githubId := Some(p.id));
        assert users[byEmail.value := linked][byEmail.value] == linked;
        if ValidUser(linked) then Login(Done(linked), users[byEmail.value := linked])
        else Login(Failed("ValidationError"), users)
      else
        var created := GithubNewUser(p, freshId);
        if !ValidUser(created) then Login(Failed("ValidationError"), users)
        else if exists j :: 0 <= j < |users| && users[j].email == created.email then
          Login(Failed("E11000 duplicate key"), users)
        else Login(Done(created), users + [created])
  }

  /** A linked GitHub id wins, whatever the profile's emails. */
  lemma GithubFindsLinked(users: seq<User>, p: GithubProfile, freshId: Id, i: nat)
    requires i < |users| && HasGithubId(users[i], p.id)
    requires forall j :: 0 <= j < i ==> !HasGithubId(users[j], p.id)
    ensures GithubLogin(users, p, freshId) == Login(Done(users[i]), users)
  {
  }

  /** Email linking changes only the matched user's githubId. */
  lemma GithubLinksByEmail(users: seq<User>, p: GithubProfile, freshId: Id, i: nat)
    requires p.id != "" && forall j :: 0 <= j < |users| ==> !HasGithubId(users[j], p.id)
    requires GithubEmailOf(p).Some? && i < |users| && users[i].email == GithubEmailOf(p).value && ValidUser(users[i])
    requires forall j :: 0 <= j < i ==> users[j].email != GithubEmailOf(p).value
    ensures GithubLogin(users, p, freshId) ==
      Login(Done(users[i].(githubId := Some(p.id))), users[i := users[i].(githubId := Some(p.id))])
  {
    assert FirstIndex(users, ByGithubId(p.id)).None?;
    assert ByEmail(GithubEmailOf(p).value)(users[i]);
    assert FirstIndex(users, ByEmail(GithubEmailOf(p).value)) == Some(i);
    assert ValidUser(users[i].(githubId := Some(p.id)));
  }

  /** Without an email no account is linked: a new student is created. */
  lemma GithubWithoutEmailCreates(users: seq<User>, p: GithubProfile, freshId: Id)
    requires GithubEmailOf(p).None? && p.id != ""
    requires forall j :: 0 <= j < |users| ==> !HasGithubId(users[j], p.id)
    requires forall j :: 0 <= j < |users| ==> users[j].email != UsernameText(p.username) + "@github.temp"
    ensures GithubLogin(users, p, freshId) == Login(Done(GithubNewUser(p, freshId)), users + [GithubNewUser(p, freshId)])
    ensures GithubNewUser(p, freshId).email == UsernameText(p.username) + "@github.temp"
  {
  }

  /** Two different GitHub accounts without a username or an email both get
      "undefined@github.temp": the second cannot be created. */
  lemma GithubPlaceholderEmailCollides(users: seq<User>, p: GithubProfile, q: GithubProfile, f1: Id, f2: Id)
    requires p.emails.None? && q.emails.None? && p.username.None? && q.username.None?
    requires p.id != "" && q.id != "" && p.id != q.id
    requires forall j :: 0 <= j < |users| ==> !HasGithubId(users[j], p.id) && !HasGithubId(users[j], q.id)
    requires forall j :: 0 <= j < |users| ==> users[j].email != "undefined@github.temp"
    ensures GithubLogin(users, p, f1).outcome.Done?
    ensures GithubLogin(GithubLogin(users, p, f1).users, q, f2) ==
      Login(Failed("E11000 duplicate key"), GithubLogin(users, p, f1).users)
  {
    GithubWithoutEmailCreates(users, p, f1);
    var created := GithubNewUser(p, f1);
    var after := users + [created];
    assert after[|users|] == created;
    assert forall j :: 0 <= j < |after| ==> !HasGithubId(after[j], q.id);
    assert FirstIndex(after, ByGithubId(q.id)).None?;
    var second := GithubNewUser(q, f2);
    assert GithubEmailOf(q).None? && second.email == "undefined@github.temp";
    assert ValidUser(second);
    assert after[|users|].email == second.email;
  }

  /** Logging in again with the same GitHub profile returns the same user
      and changes nothing. */
  lemma {:induction false} GithubRepeatIsStable(users: seq<User>, p: GithubProfile, freshId: Id, freshId2: Id)
    requires GithubLogin(users, p, freshId).outcome.Done?
    ensures var first := GithubLogin(users, p, freshId);
      GithubLogin(first.users, p, freshId2) == first
  {
    var first := GithubLogin(users, p, freshId);
    match FirstIndex(users, ByGithubId(p.id))
    case Some(i) =>
    case None =>
      var email := GithubEmailOf(p);
      var byEmail := if email.Some? then FirstIndex(users, ByEmail(email.value)) else None;
      if byEmail.Some? {
        var i := byEmail.value;
        assert HasGithubId(first.users[i], p.id);
        assert forall j :: 0 <= j < i ==> first.users[j] == users[j];
      } else {
        assert HasGithubId(first.users[|users|], p.id);
        assert forall j :: 0 <= j < |users| ==> first.users[j] == users[j];
      }
  }

  /** A GitHub login keeps the user collection's rules and unique indexes. */
  lemma GithubKeepsInvariant(users: seq<User>, p: GithubProfile, freshId: Id)
    requires UsersInvariant(users)
    requires forall j :: 0 <= j < |users| ==> users[j].id != freshId
    ensures UsersInvariant(GithubLogin(users, p, freshId).users)
  {
    if FirstIndex(users, ByGithubId(p.id)).None? {
      var email := GithubEmailOf(p);
      var byEmail := if email.Some? then FirstIndex(users, ByEmail(email.value)) else None;
      if byEmail.None? {
        var created := GithubNewUser(p, freshId);
        if ValidUser(created) && forall j :: 0 <= j < |users| ==> users[j].email != created.email {
          AppendUnique(users, created);
        }
      }
    }
  }

  /** The GitHub verify callback against the store. */
  method GithubVerify(db: Store, p: GithubProfile, freshId: Id) returns (outcome: Outcome)
    requires db.Valid()
    requires forall j :: 0 <= j < |db.users| ==> db.users[j].id != freshId
    modifies db
    ensures db.Valid() && db.courses == old(db.courses) && db.lessons == old(db.lessons)
    ensures Login(outcome, db.users) == GithubLogin(old(db.users), p, freshId)
  {
    GithubKeepsInvariant(db.users, p, freshId);
    var byId := FirstIndex(db.users, ByGithubId(p.id));
    if byId.Some? {
      return Done(db.users[byId.value]);
    }
    var email := GithubEmailOf(p);
    var byEmail := if email.Some? then FirstIndex(db.users, ByEmail(email.value)) else None;
    if byEmail.Some? {
      var linked := db.users[byEmail.value].(githubId := Some(p.id));
      if !ValidUser(linked) {
        return Failed("ValidationError");
      }
      db.users := db.users[byEmail.value := linked];
      return Done(linked);
    }
    var created := GithubNewUser(p, freshId);
    if !ValidUser(created) {
      return Failed("ValidationError");
    }
    if exists j :: 0 <= j < |db.users| && db.users[j].email == created.email {
      return Failed("E11000 duplicate key");
    }
    db.users := db.users + [created];
    outcome := Done(created);
  }
}
