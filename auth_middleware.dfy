/**
 * The `protect` middleware: it reads a bearer token from the
 * Authorization header, verifies it, and either rejects the request or
 * attaches a normalised `req.user` and hands on to the next handler.
 */
module AuthMiddleware {
  import opened Wrappers
  import opened Strings
  import opened Js

  /** The fields of a verified token payload that the middleware reads. */
  datatype Claims = Claims(
    id: Option<string>, mongoId: Option<string>, userId: Option<string>,
    email: Option<string>, role: Option<string>, userName: Option<string>, name: Option<string>)

  /** `req.user` as the handlers see it. */
  datatype ReqUser = ReqUser(id: string, email: string, role: string, userName: string)

  /** Either a response is sent, or `next()` runs with `req.user` set. */
  datatype Outcome = Reject(status: int, message: string) | Next(user: ReqUser)

  const Bearer := "Bearer "
  const NoToken := "No token provided. Please log in."
  const SecretMissing := "Server misconfiguration: JWT_SECRET missing."
  const IdMissing := "Invalid token: User ID missing."
  const BadToken := "Invalid or expired token. Please log in again."

  /** `authHeader.split(" ")[1]`: the text after "Bearer " up to the next space. */
  function BearerToken(header: string): (token: string)
    requires StartsWith(header, Bearer)
    ensures token == Before(header[|Bearer|..], ' ')
    ensures ' ' !in token && Bearer + token <= header
  {
    var rest := header[|Bearer|..];
    assert header == "Bearer" + [' '] + rest;
    SplitAfter("Bearer", ' ', rest);
    SplitFirst(rest, ' ');
    SplitOn(header, ' ')[1]
  }

  /** The payload names a user under one of `id`, `_id` or `userId`. */
  predicate HasId(c: Claims) {
    Truthy(c.id) || Truthy(c.mongoId) || Truthy(c.userId)
  }

  /** The `req.user` object built from a payload that names a user. */
  function Normalize(c: Claims): (u: ReqUser)
    requires HasId(c)
    ensures u.id != ""
    ensures u.id == if Truthy(c.id) then c.id.value
                    else if Truthy(c.mongoId) then c.mongoId.value else c.userId.value
    ensures u.email == (if Truthy(c.email) then c.email.value else "")
    ensures u.role == (if Truthy(c.role) then c.role.value else "user") && u.role != ""
    ensures u.userName == if Truthy(c.userName) then c.userName.value
                          else if Truthy(c.name) then c.name.value else ""
  {
    ReqUser(OrElse(Or(Or(c.id, c.mongoId), c.userId), ""),
            OrElse(c.email, ""),
            OrElse(c.role, "user"),
            OrElse(Or(c.userName, c.name), ""))
  }

  /**
   * `protect`.  `secret` is `process.env.JWT_SECRET`; `verify(token, secret)`
   * is `jwt.verify`, `None` when it throws.
   */
  function Protect(header: Option<string>, secret: Option<string>,
                   verify: (string, string) -> Option<Claims>): (o: Outcome)
    ensures o.Next? <==>
      && header.Some? && StartsWith(header.value, Bearer) && Truthy(secret)
      && var c := verify(BearerToken(header.value), secret.value); c.Some? && HasId(c.value)
    ensures o.Next? ==> o.user == Normalize(verify(BearerToken(header.value), secret.value).value)
    ensures o.Reject? ==> o.status in {401, 500}
    ensures o.Reject? && o.status == 500 <==>
      header.Some? && StartsWith(header.value, Bearer) && !Truthy(secret)
    ensures o.Reject? && o.status == 500 ==> o.message == SecretMissing
    ensures header.None? || !StartsWith(header.value, Bearer) ==> o == Reject(401, NoToken)
  {
    if header.None? || !StartsWith(header.value, Bearer) then Reject(401, NoToken)
    else
      var token := BearerToken(header.value);
      if !Truthy(secret) then Reject(500, SecretMissing)
      else
        match verify(token, secret.value)
        case None => Reject(401, BadToken)
        case Some(c) => if !HasId(c) then Reject(401, IdMissing) else Next(Normalize(c))
  }

  /** A missing header, or one not starting exactly with "Bearer ", is a 401 and
      nothing else is consulted: neither the secret nor the verifier matters. */
  lemma NoBearerIs401(header: Option<string>, secret: Option<string>, secret': Option<string>,
                      verify: (string, string) -> Option<Claims>, verify': (string, string) -> Option<Claims>)
    requires header.None? || !StartsWith(header.value, Bearer)
    ensures Protect(header, secret, verify) == Protect(header, secret', verify') == Reject(401, NoToken)
  {
  }

  /** "bearer abc" (lower-case scheme) and "Bearer" with no space are rejected. */
  lemma SchemeIsCaseSensitive(secret: Option<string>, verify: (string, string) -> Option<Claims>)
    ensures Protect(Some("bearer abc"), secret, verify) == Reject(401, NoToken)
    ensures Protect(Some("Bearer"), secret, verify) == Reject(401, NoToken)
  {
    assert "bearer abc"[0] != Bearer[0];
    assert |"Bearer"| < |Bearer|;
  }

  /** Only the second space-separated field is verified: verifiers that agree on it
      give the same outcome. */
  lemma OnlyTokenIsVerified(header: string, secret: Option<string>,
                            verify: (string, string) -> Option<Claims>, verify': (string, string) -> Option<Claims>)
    requires StartsWith(header, Bearer) && Truthy(secret)
    requires verify(Before(header[7..], ' '), secret.value) == verify'(Before(header[7..], ' '), secret.value)
    ensures Protect(Some(header), secret, verify) == Protect(Some(header), secret, verify')
  {
  }

  /** "Bearer abc def" verifies "abc". */
  lemma TokenExample()
    ensures BearerToken("Bearer abc def") == "abc"
  {
    var h := "Bearer abc def";
    assert h[7..] == "abc" + [' '] + "def";
    SplitAfter("abc", ' ', "def");
    SplitFirst(h[7..], ' ');
  }

  /** A token that fails verification, and one that names no user, are both 401s. */
  lemma BadTokensAre401(header: string, secret: Option<string>, verify: (string, string) -> Option<Claims>)
    requires StartsWith(header, Bearer) && Truthy(secret)
    requires var c := verify(BearerToken(header), secret.value); c.None? || !HasId(c.value)
    ensures Protect(Some(header), secret, verify).Reject?
    ensures Protect(Some(header), secret, verify).status == 401
    ensures Protect(Some(header), secret, verify).message ==
      if verify(BearerToken(header), secret.value).None? then BadToken else IdMissing
  {
  }
}
