/** The account handlers `SignUp`, `verifyEmail` and `resendVerification`
    over an in-memory store holding the user collection and the token
    ledger.

    Each handler is a method of `AuthStore` that runs one request to its
    end: `now` is the request time in milliseconds, the random raw token
    and the bcrypt salt are inputs, `mailSent` is the outcome of the
    verification e-mail, and SHA-256 (FIPS 180-4) is the store's abstract
    `sha256`. Filters given to the store go through the schema's setters,
    as the store does with query filters. */
module AuthController {
  import opened Documents
  import opened Text
  import opened UserModel
  import opened TokenModel

  /** Lifetime of an e-mail verification token. */
  const DayMillis := 24 * 60 * 60 * 1000
  /** Minimum time between two verification tokens for one user. */
  const CooldownMillis := 3 * 60 * 1000

  /** The `data` member of a response. */
  datatype Data = NoData | UserIdData(userId: UserId)

  /** `{ success, message, data }` with its HTTP status. The message is
      kept as the constructor naming it. */
  datatype Response = Response(status: nat, success: bool, message: Message, data: Data)

  function Fail(status: nat, message: Message): Response
  {
    Response(status, false, message, NoData)
  }

  /** The messages the handlers answer with. */
  datatype Message =
    | MissingFields
    | EmailTaken
    | UsernameTaken
    | SignUpMailFailed
    | SignUpOk
    | InternalError
    | MissingTokenOrId
    | InvalidLink
    | LinkUsed
    | LinkExpired
    | UserNotFound
    | EmailVerified
    | EmailRequired
    | AlreadyVerified
    | TooSoon
    | ResendMailFailed
    | ResendOk

  /** The text the handlers send for each message, for reference; the
      contracts compare messages by constructor. */
  function Wording(m: Message): string
  {
    match m
    case MissingFields => "All required fields are not provided"
    case EmailTaken => "User already exists with this email"
    case UsernameTaken => "Username already taken"
    case SignUpMailFailed => "Registration succeeded but failed to send verification email. Please contact support."
    case SignUpOk => "User registered successfully. Please verify your email."
    case InternalError => "Internal server error"
    case MissingTokenOrId => "Invalid request. Token and user id are required."
    case InvalidLink => "Invalid or expired verification link."
    case LinkUsed => "Verification link has already been used."
    case LinkExpired => "Verification link has expired. Please request a new one."
    case UserNotFound => "User not found."
    case EmailVerified => "Email verified successfully."
    case EmailRequired => "Email required."
    case AlreadyVerified => "User already verified."
    case TooSoon => "Verification email was sent recently. Try again in 3 minutes."
    case ResendMailFailed => "Verification email failed to send. Please contact support."
    case ResendOk => "Verification email sent."
  }

  // ---- queries ----

  /** `User.findOne({ email })`, the filter cast like the field. */
  function FindByEmail(users: seq<User>, email: string): (r: Option<nat>)
    ensures r.Some? ==> r.value < |users| && users[r.value].email == CastEmail(email)
    ensures r.None? ==> forall k :: 0 <= k < |users| ==> users[k].email != CastEmail(email)
  {
    FindFirst(users, (u: User) => u.email == CastEmail(email))
  }

  /** `User.findOne({ username })`, the filter trimmed like the field. */
  function FindByUsername(users: seq<User>, username: string): (r: Option<nat>)
    ensures r.Some? ==> r.value < |users| && users[r.value].username == Trim(username)
    ensures r.None? ==> forall k :: 0 <= k < |users| ==> users[k].username != Trim(username)
  {
    FindFirst(users, (u: User) => u.username == Trim(username))
  }

  predicate TokenMatches(t: Token, userId: UserId, tokenHash: string, tokenType: TokenType)
  {
    t.userId == userId && t.tokenHash == tokenHash && t.tokenType == tokenType
  }

  /** `Token.findOne({ userId, tokenHash, type })`. */
  function FindToken(ts: seq<Token>, userId: UserId, tokenHash: string, tokenType: TokenType): (r: Option<nat>)
    ensures r.Some? ==> r.value < |ts| && TokenMatches(ts[r.value], userId, tokenHash, tokenType)
    ensures r.Some? ==> forall k :: 0 <= k < r.value ==> !TokenMatches(ts[k], userId, tokenHash, tokenType)
    ensures r.None? ==> forall k :: 0 <= k < |ts| ==> !TokenMatches(ts[k], userId, tokenHash, tokenType)
  {
    FindFirst(ts, (t: Token) => TokenMatches(t, userId, tokenHash, tokenType))
  }

  /** A verification token of this user created strictly less than three
      minutes before `now`. */
  predicate IsRecent(t: Token, userId: UserId, now: nat)
  {
    t.userId == userId && t.tokenType == EmailVerify && t.createdAt > now - CooldownMillis
  }

  /** `Token.findOne({ userId, type: "email_verify", createdAt: { $gt: now - 3 min } })`
      finds something. */
  function RecentVerifyToken(ts: seq<Token>, userId: UserId, now: nat): (r: bool)
    ensures r <==> exists k :: 0 <= k < |ts| && IsRecent(ts[k], userId, now)
  {
    FindFirst(ts, (t: Token) => IsRecent(t, userId, now)).Some?
  }

  /** The user record after a successful verification: written (and its
      `updatedAt` stamped) only if it was not verified yet. */
  function MarkVerified(u: User, now: nat): (r: User)
    ensures r.isVerified
    ensures u.isVerified ==> r == u
    ensures r.(isVerified := u.isVerified, updatedAt := u.updatedAt) == u
  {
    if u.isVerified then u else u.(isVerified := true, updatedAt := now)
  }

  /** The document steps of the verification handler, on a loaded user:
      `isVerified` is set and the document saved only when it was false.
      The record the store ends up with is `MarkVerified` of the old one. */
  method VerifyLoaded(u: User, b: Bcrypt, salt: string, now: nat)
    returns (stored: User)
    ensures stored == MarkVerified(u, now)
  {
    var doc := new UserDocument.Loaded(u);
    if !doc.data.isVerified {
      doc.SetVerified();
      doc.Save(b, salt, now);
    }
    stored := doc.data;
  }

  // ---- properties of the ledger lookups ----

  /** Consuming the token a lookup found leaves that lookup finding it, so
      the same link presented again meets a used token. */
  lemma ConsumeKeepsLookup(ts: seq<Token>, userId: UserId, tokenHash: string, tokenType: TokenType, i: nat, now: nat)
    requires FindToken(ts, userId, tokenHash, tokenType) == Some(i)
    ensures FindToken(ts[i := Consume(ts[i], now)], userId, tokenHash, tokenType) == Some(i)
    ensures ts[i := Consume(ts[i], now)][i].used
  {
    FindFirstAfterUpdate(ts, (t: Token) => TokenMatches(t, userId, tokenHash, tokenType), i, Consume(ts[i], now));
  }

  /** The token issued to a fresh user id is the one a lookup with that id
      and hash finds, since no earlier token can name the new id. */
  lemma FreshTokenFound(ts: seq<Token>, userId: UserId, tokenHash: string, expiresAt: nat, now: nat)
    requires forall k :: 0 <= k < |ts| ==> ts[k].userId < userId
    ensures FindToken(ts + [NewToken(userId, tokenHash, EmailVerify, expiresAt, now)], userId, tokenHash, EmailVerify) == Some(|ts|)
  {
    FindFirstAfterAppend(ts, (t: Token) => TokenMatches(t, userId, tokenHash, EmailVerify),
                         NewToken(userId, tokenHash, EmailVerify, expiresAt, now));
  }

  /** Issuing a token starts the cooldown: until three minutes have passed
      since its creation, the user has a recent token. */
  lemma CooldownAfterIssue(ts: seq<Token>, userId: UserId, tokenHash: string, expiresAt: nat, created: nat, now: nat)
    requires now < created + CooldownMillis
    ensures RecentVerifyToken(ts + [NewToken(userId, tokenHash, EmailVerify, expiresAt, created)], userId, now)
  {
    var ts' := ts + [NewToken(userId, tokenHash, EmailVerify, expiresAt, created)];
    assert IsRecent(ts'[|ts|], userId, now);
  }

  /** Once three minutes have passed, a token no longer counts towards the
      cooldown: the check answers as it would without it. */
  lemma CooldownElapses(ts: seq<Token>, t: Token, userId: UserId, now: nat)
    requires t.createdAt + CooldownMillis <= now
    ensures RecentVerifyToken(ts + [t], userId, now) == RecentVerifyToken(ts, userId, now)
  {
    var ts' := ts + [t];
    assert forall k :: 0 <= k < |ts| ==> ts'[k] == ts[k];
    assert !IsRecent(ts'[|ts|], userId, now);
  }

  // ---- the store invariant and its preservation ----

  /** Every user in the collection was stored through the schema. Stated
      record by record from the end, so that a proof unfolds it only as
      far as it needs. */
  ghost predicate AllStored(users: seq<User>)
  {
    users == [] || (AllStored(users[..|users| - 1]) && Stored(users[|users| - 1]))
  }

  /** Ids were handed out below `nextId`, every user was stored through
      the schema, and ids, emails and usernames are unique (the unique
      indexes). */
  ghost predicate UsersValid(users: seq<User>, nextId: UserId)
  {
    && AllStored(users)
    && (forall k :: 0 <= k < |users| ==> users[k].id < nextId)
    && (forall k, l :: 0 <= k < l < |users| ==>
          users[k].id != users[l].id && users[k].email != users[l].email && users[k].username != users[l].username)
  }

  /** Each record of a valid collection satisfies the schema. */
  lemma {:induction false} AllStoredAt(users: seq<User>, k: nat)
    requires AllStored(users) && k < |users|
    ensures Stored(users[k])
    decreases |users|
  {
    if k < |users| - 1 {
      AllStoredAt(users[..|users| - 1], k);
    }
  }

  /** Rewriting one record with another stored record keeps the collection
      stored. */
  lemma {:induction false} AllStoredUpdate(users: seq<User>, k: nat, u: User)
    requires AllStored(users) && k < |users| && Stored(u)
    ensures AllStored(users[k := u])
    decreases |users|
  {
    var n := |users| - 1;
    if k < n {
      AllStoredUpdate(users[..n], k, u);
      assert users[k := u][..n] == users[..n][k := u];
    } else {
      assert users[k := u][..n] == users[..n];
    }
  }

  /** Every token names an id that was handed out, and `used` and
      `consumedAt` go together. */
  ghost predicate TokensValid(tokens: seq<Token>, nextId: UserId)
  {
    forall k :: 0 <= k < |tokens| ==> tokens[k].userId < nextId && ConsumedConsistently(tokens[k])
  }

  /** Adding a stored user with the next id and an email and username no
      one has keeps the collection valid. */
  lemma UsersValidAppend(users: seq<User>, nextId: UserId, u: User)
    requires UsersValid(users, nextId)
    requires u.id == nextId && Stored(u)
    requires forall k :: 0 <= k < |users| ==> users[k].email != u.email && users[k].username != u.username
    ensures UsersValid(users + [u], nextId + 1)
  {
    var s := users + [u];
    assert s[..|s| - 1] == users;
    forall k, l | 0 <= k < l < |s|
      ensures s[k].id != s[l].id && s[k].email != s[l].email && s[k].username != s[l].username
    {
      if l == |users| {
        assert s[k] == users[k];
      }
    }
  }

  /** Marking a user verified keeps the collection valid. */
  lemma UsersValidMarkVerified(users: seq<User>, nextId: UserId, k: nat, now: nat)
    requires UsersValid(users, nextId) && k < |users|
    ensures UsersValid(users[k := MarkVerified(users[k], now)], nextId)
  {
    var s := users[k := MarkVerified(users[k], now)];
    AllStoredAt(users, k);
    AllStoredUpdate(users, k, MarkVerified(users[k], now));
    assert forall j :: 0 <= j < |s| ==>
      s[j].id == users[j].id && s[j].email == users[j].email && s[j].username == users[j].username;
  }

  /** Adding a fresh token for a handed-out id keeps the ledger valid. */
  lemma TokensValidAppend(tokens: seq<Token>, nextId: UserId, nextId': UserId, t: Token)
    requires TokensValid(tokens, nextId) && nextId <= nextId'
    requires t.userId < nextId' && ConsumedConsistently(t)
    ensures TokensValid(tokens + [t], nextId')
  {
    var s := tokens + [t];
    assert forall k :: 0 <= k < |tokens| ==> s[k] == tokens[k];
  }

  /** Consuming a token keeps the ledger valid. */
  lemma TokensValidConsume(tokens: seq<Token>, nextId: UserId, i: nat, now: nat)
    requires TokensValid(tokens, nextId) && i < |tokens|
    ensures TokensValid(tokens[i := Consume(tokens[i], now)], nextId)
  {
  }

  /** The TTL sweep keeps the ledger valid. */
  lemma TokensValidSweep(tokens: seq<Token>, nextId: UserId, now: nat)
    requires TokensValid(tokens, nextId)
    ensures TokensValid(Sweep(tokens, now), nextId)
  {
    var s := Sweep(tokens, now);
    assert forall k :: 0 <= k < |s| ==> s[k] in tokens;
  }

  /** The user collection and the token ledger. */
  class AuthStore {
    var users: seq<User>
    var tokens: seq<Token>
    /** The id the next created user receives. */
    var nextId: UserId
    const sha256: string -> string
    const bcrypt: Bcrypt

    /** Every stored user passed the schema and the unique indexes; every
        token names an id that was handed out and is consistently
        consumed. */
    ghost predicate Valid()
      reads this
    {
      UsersValid(users, nextId) && TokensValid(tokens, nextId)
    }

    constructor (sha256: string -> string, bcrypt: Bcrypt)
      ensures Valid()
      ensures users == [] && tokens == [] && nextId == 0
      ensures this.sha256 == sha256 && this.bcrypt == bcrypt
    {
      users, tokens, nextId := [], [], 0;
      this.sha256, this.bcrypt := sha256, bcrypt;
    }

    /** The document `SignUp` stores: the cast input with defaults and the
        password replaced by its hash. */
    ghost function SignedUp(id: UserId, username: string, email: string, password: string,
                            phone: Option<string>, name: string, salt: string, now: nat): User
      reads this
    {
      NewUser(id, username, email, password, phone, name, now).(password := Some(bcrypt.hash(password, salt)))
    }

    /** `User.create(...)` for a document that passes validation and whose
        email and username are free: the document is saved, so its password
        is hashed by the hook, and inserted under the next id. */
    method Create(username: string, email: string, password: string, phone: Option<string>, name: string,
                  salt: string, now: nat) returns (id: UserId)
      requires Valid()
      requires FindByEmail(users, email).None? && FindByUsername(users, username).None?
      requires Validates(NewUser(nextId, username, email, password, phone, name, now))
      requires password != ""
      modifies this
      ensures Valid()
      ensures id == old(nextId) && nextId == id + 1
      ensures users == old(users) + [SignedUp(id, username, email, password, phone, name, salt, now)]
      ensures tokens == old(tokens)
    {
      id := nextId;
      var doc := new UserDocument(NewUser(id, username, email, password, phone, name, now));
      doc.Save(bcrypt, salt, now);
      NewUserStored(id, username, email, password, phone, name, now, bcrypt.hash(password, salt));
      Insert(doc.data);
    }

    /** Inserts a stored document under the next id; the unique indexes
        admit it since no record has its email or username. */
    method Insert(u: User)
      requires Valid()
      requires u.id == nextId && Stored(u)
      requires forall k :: 0 <= k < |users| ==> users[k].email != u.email && users[k].username != u.username
      modifies this
      ensures Valid()
      ensures users == old(users) + [u] && nextId == old(nextId) + 1 && tokens == old(tokens)
    {
      UsersValidAppend(users, nextId, u);
      users := users + [u];
      nextId := nextId + 1;
    }

    /** `Token.create` of an e-mail verification token for `userId`: only
        the SHA-256 of the raw token is kept, and it expires 24 hours
        after `now`. */
    method IssueToken(userId: UserId, rawToken: string, now: nat)
      requires Valid() && userId < nextId
      modifies this
      ensures Valid()
      ensures tokens == old(tokens) + [NewToken(userId, sha256(rawToken), EmailVerify, now + DayMillis, now)]
      ensures users == old(users) && nextId == old(nextId)
    {
      var t := NewToken(userId, sha256(rawToken), EmailVerify, now + DayMillis, now);
      TokensValidAppend(tokens, nextId, nextId, t);
      tokens := tokens + [t];
    }

    /** `SignUp`. Required fields are checked first, then the email, then
        the username; a document the schema rejects makes the store throw
        (500). A failed e-mail does not undo the user or the token. */
    method SignUp(username: string, email: string, password: string, phone: Option<string>, name: string,
                  rawToken: string, salt: string, now: nat, mailSent: bool) returns (r: Response)
      requires Valid()
      modifies this
      ensures Valid()
      ensures username == "" || email == "" || password == "" || name == "" ==>
        r == Fail(400, MissingFields) && unchanged(this)
      ensures username != "" && email != "" && password != "" && name != "" ==>
        && (FindByEmail(old(users), email).Some? ==>
              r == Fail(400, EmailTaken) && unchanged(this))
        && (FindByEmail(old(users), email).None? && FindByUsername(old(users), username).Some? ==>
              r == Fail(400, UsernameTaken) && unchanged(this))
        && (FindByEmail(old(users), email).None? && FindByUsername(old(users), username).None? ==>
              var id := old(nextId);
              && (!Validates(NewUser(id, username, email, password, phone, name, now)) ==>
                    r == Fail(500, InternalError) && unchanged(this))
              && (Validates(NewUser(id, username, email, password, phone, name, now)) ==>
                    && users == old(users) + [SignedUp(id, username, email, password, phone, name, salt, now)]
                    && tokens == old(tokens) + [NewToken(id, sha256(rawToken), EmailVerify, now + DayMillis, now)]
                    && nextId == id + 1
                    && r == if mailSent then Response(201, true, SignUpOk, UserIdData(id))
                            else Fail(500, SignUpMailFailed)))
    {
      if username == "" || email == "" || password == "" || name == "" {
        return Fail(400, MissingFields);
      }
      if FindByEmail(users, email).Some? {
        return Fail(400, EmailTaken);
      }
      if FindByUsername(users, username).Some? {
        return Fail(400, UsernameTaken);
      }
      if !Validates(NewUser(nextId, username, email, password, phone, name, now)) {
        return Fail(500, InternalError);
      }
      var id := Create(username, email, password, phone, name, salt, now);

      IssueToken(id, rawToken, now);

      if !mailSent {
        return Fail(500, SignUpMailFailed);
      }
      return Response(201, true, SignUpOk, UserIdData(id));
    }

    /** `verifyEmail`. The token is looked up by user id, hash and type;
        a used token is refused before an expired one; a live token is
        consumed before the user is looked up, so a missing user leaves it
        consumed. Only the one token and the one user change. */
    method VerifyEmail(token: string, id: IdParam, now: nat) returns (r: Response)
      requires Valid()
      modifies this
      ensures Valid()
      ensures nextId == old(nextId)
      ensures token == "" || id.Missing? ==> r == Fail(400, MissingTokenOrId) && unchanged(this)
      ensures token != "" && id.Unparseable? ==> r == Fail(500, InternalError) && unchanged(this)
      ensures token != "" && id.Id? ==>
        var m := FindToken(old(tokens), id.id, sha256(token), EmailVerify);
        && (m.None? ==> r == Fail(400, InvalidLink) && unchanged(this))
        && (m.Some? && old(tokens)[m.value].used ==> r == Fail(400, LinkUsed) && unchanged(this))
        && (m.Some? && !old(tokens)[m.value].used && Expired(old(tokens)[m.value], now) ==>
              r == Fail(400, LinkExpired) && unchanged(this))
        && (m.Some? && !old(tokens)[m.value].used && !Expired(old(tokens)[m.value], now) ==>
              && tokens == old(tokens)[m.value := Consume(old(tokens)[m.value], now)]
              && (FindById(old(users), id.id).None? ==>
                    r == Fail(404, UserNotFound) && users == old(users))
              && (FindById(old(users), id.id).Some? ==>
                    var k := FindById(old(users), id.id).value;
                    && r == Response(200, true, EmailVerified, NoData)
                    && users == old(users)[k := MarkVerified(old(users)[k], now)]))
    {
      if token == "" || id.Missing? {
        return Fail(400, MissingTokenOrId);
      }
      var tokenHash := sha256(token);
      if id.Unparseable? {
        return Fail(500, InternalError);
      }
      var m := FindToken(tokens, id.id, tokenHash, EmailVerify);
      if m.None? {
        return Fail(400, InvalidLink);
      }
      var i := m.value;
      var tokenDoc := tokens[i];
      if tokenDoc.used {
        return Fail(400, LinkUsed);
      }
      if tokenDoc.expiresAt < now {
        return Fail(400, LinkExpired);
      }
      TokensValidConsume(tokens, nextId, i, now);
      tokens := tokens[i := Consume(tokenDoc, now)];

      var found := FindById(users, id.id);
      if found.None? {
        return Fail(404, UserNotFound);
      }
      SetVerified(found.value, now);
      return Response(200, true, EmailVerified, NoData);
    }

    /** `if (!user.isVerified) { user.isVerified = true; await user.save(); }`
        on the record at position `k`. */
    method SetVerified(k: nat, now: nat)
      requires Valid() && k < |users|
      modifies this
      ensures Valid()
      ensures users == old(users)[k := MarkVerified(old(users)[k], now)]
      ensures tokens == old(tokens) && nextId == old(nextId)
    {
      // The hook returns before drawing a salt: the password is not modified.
      var stored := VerifyLoaded(users[k], bcrypt, "", now);
      UsersValidMarkVerified(users, nextId, k, now);
      users := users[k := stored];
    }

    /** `resendVerification`. The user is looked up by the lower-cased
        address; an unknown user is 404, a verified one 400; a verification
        token created in the last three minutes refuses with 429. Otherwise
        one fresh token is added and the existing ones are left alone. */
    method ResendVerification(email: string, rawToken: string, now: nat, mailSent: bool) returns (r: Response)
      requires Valid()
      modifies this
      ensures Valid()
      ensures users == old(users) && nextId == old(nextId)
      ensures email == "" ==> r == Fail(400, EmailRequired) && unchanged(this)
      ensures email != "" ==>
        var found := FindByEmail(old(users), ToLower(email));
        && (found.None? ==> r == Fail(404, UserNotFound) && unchanged(this))
        && (found.Some? ==>
              var u := old(users)[found.value];
              && (u.isVerified ==> r == Fail(400, AlreadyVerified) && unchanged(this))
              && (!u.isVerified && RecentVerifyToken(old(tokens), u.id, now) ==>
                    r == Fail(429, TooSoon) && unchanged(this))
              && (!u.isVerified && !RecentVerifyToken(old(tokens), u.id, now) ==>
                    && tokens == old(tokens) + [NewToken(u.id, sha256(rawToken), EmailVerify, now + DayMillis, now)]
                    && r == if mailSent then Response(200, true, ResendOk, UserIdData(u.id))
                            else Fail(500, ResendMailFailed)))
    {
      if email == "" {
        return Fail(400, EmailRequired);
      }
      var found := FindByEmail(users, ToLower(email));
      if found.None? {
        return Fail(404, UserNotFound);
      }
      var user := users[found.value];
      if user.isVerified {
        return Fail(400, AlreadyVerified);
      }
      if RecentVerifyToken(tokens, user.id, now) {
        return Fail(429, TooSoon);
      }
      assert user.id < nextId;
      IssueToken(user.id, rawToken, now);

      if !mailSent {
        return Fail(500, ResendMailFailed);
      }
      return Response(200, true, ResendOk, UserIdData(user.id));
    }

    /** One pass of the TTL deleter over the ledger. */
    method ExpireTokens(now: nat)
      requires Valid()
      modifies this
      ensures Valid()
      ensures tokens == Sweep(old(tokens), now)
      ensures users == old(users) && nextId == old(nextId)
    {
      TokensValidSweep(tokens, nextId, now);
      tokens := Sweep(tokens, now);
    }
  }

  /** A successful sign-up followed by opening the link within 24 hours
      verifies the account; opening the same link again is refused as
      used, and nothing changes the second time. */
  method SignUpVerifyReplay(store: AuthStore, username: string, email: string, password: string,
                            phone: Option<string>, name: string, rawToken: string, salt: string,
                            now: nat, later: nat)
    returns (signedUp: Response, verified: Response, replayed: Response)
    requires store.Valid()
    requires username != "" && email != "" && password != "" && name != "" && rawToken != ""
    requires FindByEmail(store.users, email).None? && FindByUsername(store.users, username).None?
    requires Validates(NewUser(store.nextId, username, email, password, phone, name, now))
    requires later <= now + DayMillis
    modifies store
    ensures store.Valid()
    ensures signedUp == Response(201, true, SignUpOk, UserIdData(old(store.nextId)))
    ensures verified == Response(200, true, EmailVerified, NoData)
    ensures replayed == Fail(400, LinkUsed)
    ensures |store.users| == |old(store.users)| + 1 && store.users[|old(store.users)|].isVerified
  {
    var id := store.nextId;
    signedUp := store.SignUp(username, email, password, phone, name, rawToken, salt, now, true);
    FreshTokenFound(old(store.tokens), id, store.sha256(rawToken), now + DayMillis, now);
    assert FindById(store.users, id) == Some(|old(store.users)|) by {
      FindFirstAfterAppend(old(store.users), (u: User) => u.id == id, store.users[|old(store.users)|]);
    }
    verified := store.VerifyEmail(rawToken, Id(id), later);
    ConsumeKeepsLookup(old(store.tokens) + [NewToken(id, store.sha256(rawToken), EmailVerify, now + DayMillis, now)],
                       id, store.sha256(rawToken), EmailVerify, |old(store.tokens)|, later);
    replayed := store.VerifyEmail(rawToken, Id(id), later);
  }

  /** Two resend requests for one unverified user less than three minutes
      apart: the first issues a token, the second is refused with 429. */
  method ResendTwice(store: AuthStore, email: string, raw1: string, raw2: string, now: nat, later: nat)
    returns (first: Response, second: Response)
    requires store.Valid()
    requires email != ""
    requires FindByEmail(store.users, ToLower(email)).Some?
    requires !store.users[FindByEmail(store.users, ToLower(email)).value].isVerified
    requires !RecentVerifyToken(store.tokens, store.users[FindByEmail(store.users, ToLower(email)).value].id, now)
    requires later < now + CooldownMillis
    modifies store
    ensures store.Valid()
    ensures first.status == 200 && second == Fail(429, TooSoon)
    ensures |store.tokens| == |old(store.tokens)| + 1
  {
    var u := store.users[FindByEmail(store.users, ToLower(email)).value];
    first := store.ResendVerification(email, raw1, now, true);
    CooldownAfterIssue(old(store.tokens), u.id, store.sha256(raw1), now + DayMillis, now, later);
    second := store.ResendVerification(email, raw2, later, true);
  }
}
