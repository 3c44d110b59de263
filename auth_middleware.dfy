/** The session gate in front of the protected routes: it takes the
    session credential from a bearer header or from the `token` cookie,
    verifies it, and resolves the user it names.

    Verification of the signed credential (a JSON Web Token, RFC 7519) is
    abstract: a partial function from the credential to its claims, `None`
    when the signature or the expiry check fails. */
module AuthMiddleware {
  import opened Documents
  import opened Text
  import opened UserModel

  /** The decoded payload; only its `userId` claim is consulted. */
  datatype Claims = Claims(userId: IdParam)

  /** What the gate reads from a request: the `Authorization` header and
      the parsed cookies (absent when no cookie parser ran). */
  datatype Request = Request(authorization: Option<string>, cookies: Option<map<string, string>>)

  /** Either a response that ends the request, or `next()` with
      `req.userId` and `req.user` set. */
  datatype Outcome = Reject(status: nat, message: string) | Next(userId: UserId, user: User)

  const NoToken := "Access denied. No token provided."
  const BadToken := "Invalid or expired token."
  const BadPayload := "Invalid token payload."
  const NoUser := "User not found."
  const ServerError := "Internal server error."

  /** `authHeader.startsWith("Bearer ")`. */
  predicate IsBearer(h: string)
  {
    |h| >= 7 && h[..7] == "Bearer "
  }

  /** `authHeader.split(" ")[1]`: the run of non-space characters right
      after the prefix, possibly empty. */
  function BearerToken(h: string): (r: string)
    requires IsBearer(h)
    ensures ' ' !in r && 7 + |r| <= |h| && r == h[7..7 + |r|]
    ensures 7 + |r| == |h| || h[7 + |r|] == ' '
  {
    assert ' ' !in h[..6];
    SplitHead(h, ' ', 6);
    assert Split(h, ' ')[1] == Split(h[7..], ' ')[0];
    Split(h, ' ')[1]
  }

  /** `req.cookies.token` when cookies were parsed and the value is truthy,
      the empty string otherwise. */
  function CookieToken(cookies: Option<map<string, string>>): string
  {
    if cookies.Some? && "token" in cookies.value then cookies.value["token"] else ""
  }

  /** The credential the gate goes on with; the empty string stands for
      none. A bearer header wins and the cookie is then never read. */
  function Credential(req: Request): string
  {
    if req.authorization.Some? && IsBearer(req.authorization.value) then
      BearerToken(req.authorization.value)
    else
      CookieToken(req.cookies)
  }

  /** The decision chain of the middleware. */
  function Authenticate(req: Request, verify: string -> Option<Claims>, users: seq<User>): (r: Outcome)
    ensures Credential(req) == "" ==> r == Reject(401, NoToken)
    ensures Credential(req) != "" && verify(Credential(req)).None? ==> r == Reject(401, BadToken)
    ensures Credential(req) != "" && verify(Credential(req)).Some? ==>
      var claim := verify(Credential(req)).value.userId;
      && (claim.Missing? ==> r == Reject(401, BadPayload))
      && (claim.Unparseable? ==> r == Reject(500, ServerError))
      && (claim.Id? && (forall k :: 0 <= k < |users| ==> users[k].id != claim.id) ==> r == Reject(401, NoUser))
    ensures r.Next? ==>
      && Credential(req) != ""
      && verify(Credential(req)) == Some(Claims(Id(r.userId)))
      && r.user.id == r.userId && r.user.password.None?
      && exists k :: 0 <= k < |users| && users[k] == r.user.(password := users[k].password)
  {
    var token := Credential(req);
    if token == "" then Reject(401, NoToken)
    else match verify(token)
      case None => Reject(401, BadToken)
      case Some(decoded) =>
        match decoded.userId
        case Missing => Reject(401, BadPayload)
        case Unparseable => Reject(500, ServerError)
        case Id(id) =>
          match FindById(users, id)
          case None => Reject(401, NoUser)
          case Some(k) => Next(users[k].id, users[k].(password := None))
  }

  /** With a bearer header present, the cookies play no part. */
  lemma HeaderTakesPrecedence(h: string, c1: Option<map<string, string>>, c2: Option<map<string, string>>,
                              verify: string -> Option<Claims>, users: seq<User>)
    requires IsBearer(h)
    ensures Authenticate(Request(Some(h), c1), verify, users) == Authenticate(Request(Some(h), c2), verify, users)
  {
  }

  /** A bearer header with nothing after the prefix (or a second space
      right after it) is refused even when a valid cookie is present. */
  lemma EmptyBearerRejected(h: string, cookies: Option<map<string, string>>,
                            verify: string -> Option<Claims>, users: seq<User>)
    requires IsBearer(h) && (|h| == 7 || h[7] == ' ')
    ensures Authenticate(Request(Some(h), cookies), verify, users) == Reject(401, NoToken)
  {
    assert BearerToken(h) == [];
  }

  /** Without a bearer header, a truthy `token` cookie is the credential. */
  lemma CookieUsedWithoutBearer(auth: Option<string>, cookies: map<string, string>)
    requires auth.None? || !IsBearer(auth.value)
    requires "token" in cookies
    ensures Credential(Request(auth, Some(cookies))) == cookies["token"]
  {
  }

  /** A request passes exactly when its credential verifies to an id of a
      stored user; the user attached is that record without its password. */
  lemma {:induction false} AcceptsExactly(req: Request, verify: string -> Option<Claims>, users: seq<User>, k: nat)
    requires k < |users| && forall j :: 0 <= j < |users| && j != k ==> users[j].id != users[k].id
    requires Credential(req) != "" && verify(Credential(req)) == Some(Claims(Id(users[k].id)))
    ensures Authenticate(req, verify, users) == Next(users[k].id, users[k].(password := None))
  {
    FindFirstUnique(users, (u: User) => u.id == users[k].id, k);
  }
}
