/** The request guards: `authenticate` takes a bearer token from the
    Authorization header or, failing that, the refresh-token cookie, and
    `authorize` admits the listed roles. */
module Auth {
  import opened Common

  /** The decoded token: the user's id and role. */
  datatype Payload = Payload(id: Id, role: string)

  /** What a guard does with a request: pass it on, or answer it. */
  datatype Verdict = Next | Reject(response: Response)

  predicate IsBlank(c: char) { c == ' ' }

  /** The text before the first space (all of it when there is none). */
  function UpToSpace(s: string): (r: string)
    ensures StartsWith(s, r) && ' ' !in r
    ensures |r| < |s| ==> s[|r|] == ' '
  {
    match FirstIndex(s, IsBlank)
    case None => s
    case Some(i) => s[..i]
  }

  /** `s.split(" ")`: the fields between single spaces. */
  function Split(s: string): (r: seq<string>)
    ensures |r| >= 1 && r[0] == UpToSpace(s)
    decreases |s|
  {
    match FirstIndex(s, IsBlank)
    case None => [s]
    case Some(i) => [s[..i]] + Split(s[i + 1..])
  }

  /** The second field of "Bearer <rest>" is `<rest>` up to its first space. */
  lemma BearerSecondField(rest: string)
    ensures |Split("Bearer " + rest)| >= 2
    ensures Split("Bearer " + rest)[1] == UpToSpace(rest)
  {
    var s := "Bearer " + rest;
    assert forall j :: 0 <= j < 6 ==> !IsBlank(s[j]);
    assert IsBlank(s[6]);
    assert FirstIndex(s, IsBlank) == Some(6);
    assert s[7..] == rest;
  }

  /** `tokenFromHeader`: only an Authorization value that starts with
      "Bearer " yields one. */
  function HeaderToken(header: Option<string>): (r: Option<string>)
    ensures r.Some? <==> header.Some? && StartsWith(header.value, "Bearer ")
    ensures r.Some? ==> r.value == UpToSpace(header.value[7..])
  {
    if header.Some? && StartsWith(header.value, "Bearer ") then
      var h := header.value;
      assert h == "Bearer " + h[7..];
      BearerSecondField(h[7..]);
      Some(Split(h)[1])
    else None
  }

  /** `tokenFromHeader || req.cookies?.refreshToken`, kept only when truthy. */
  function SelectToken(header: Option<string>, cookie: Option<string>): (r: Option<string>)
    ensures r.Some? ==> r.value != ""
    ensures Truthy(HeaderToken(header)) ==> r == HeaderToken(header)
    ensures !Truthy(HeaderToken(header)) ==> r == (if Truthy(cookie) then cookie else None)
  {
    var fromHeader := HeaderToken(header);
    if Truthy(fromHeader) then fromHeader
    else if Truthy(cookie) then cookie
    else None
  }

  /** An empty bearer token falls back to the cookie. */
  lemma EmptyBearerUsesCookie(cookie: string)
    requires cookie != ""
    ensures SelectToken(Some("Bearer "), Some(cookie)) == Some(cookie)
  {
    assert HeaderToken(Some("Bearer ")) == Some(UpToSpace(""));
  }

  /** The request object the guards share. */
  class Request {
    var user: Option<Payload>

    constructor ()
      ensures user.None?
    {
      user := None;
    }
  }

  /** authenticate. `verify` stands for checking the signature and expiry
      of the token; None is a rejected token. */
  method Authenticate(req: Request, header: Option<string>, cookie: Option<string>, verify: string -> Option<Payload>)
    returns (v: Verdict)
    modifies req
    ensures SelectToken(header, cookie).None? ==>
      v == Reject(Response(401, "No token provided")) && req.user == old(req.user)
    ensures SelectToken(header, cookie).Some? && verify(SelectToken(header, cookie).value).None? ==>
      v == Reject(Response(403, "Invalid or expired token")) && req.user == old(req.user)
    ensures SelectToken(header, cookie).Some? && verify(SelectToken(header, cookie).value).Some? ==>
      v == Next && req.user == verify(SelectToken(header, cookie).value)
  {
    var token := SelectToken(header, cookie);
    if token.None? {
      return Reject(Response(401, "No token provided"));
    }
    var decoded := verify(token.value);
    if decoded.None? {
      return Reject(Response(403, "Invalid or expired token"));
    }
    req.user := decoded;
    v := Next;
  }

  /** authorize(...roles): the request goes on iff it has a user whose role
      is listed. */
  function Authorize(roles: seq<string>, user: Option<Payload>): (v: Verdict)
    ensures v == Next <==> user.Some? && user.value.role in roles
    ensures v != Next ==> v == Reject(Response(403, "Access denied"))
  {
    if user.None? || user.value.role !in roles then Reject(Response(403, "Access denied")) else Next
  }

  /** The course mutation routes run authorize("instructor", "admin"): a
      student never reaches the handler. */
  lemma StudentsCannotMutateCourses(user: Payload)
    requires user.role == "student"
    ensures Authorize(["instructor", "admin"], Some(user)).Reject?
  {
  }
}
