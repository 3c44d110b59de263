/** The user schema: field casts (setters), validators, defaults, the
    password hook that runs on save, and the document methods
    `comparePassword`, `isRole` and the `toJSON` transform.

    bcrypt is abstract: a hash function of (password, salt) and a compare
    function of (candidate, hash). `Sound` states the one property of the
    pair the model relies on. */
module UserModel {
  import opened Documents
  import opened Text

  type UserId = ObjectId

  datatype Role = RoleUser | RoleAdmin | RoleManager

  /** The enum values as the schema spells them. */
  function RoleName(r: Role): string
  {
    match r
    case RoleUser => "user"
    case RoleAdmin => "admin"
    case RoleManager => "manager"
  }

  /** A stored user document. `password` holds the bcrypt hash once saved;
      `version` is the store's `__v` key. */
  datatype User = User(
    id: UserId,
    username: string,
    name: string,
    googleId: Option<string>,
    email: string,
    password: Option<string>,
    phone: Option<string>,
    role: Role,
    isVerified: bool,
    createdAt: nat,
    updatedAt: nat,
    version: nat)

  /** The serialized form `toJSON` produces. */
  datatype PublicUser = PublicUser(
    id: UserId,
    username: string,
    name: string,
    googleId: Option<string>,
    email: string,
    phone: Option<string>,
    role: Role,
    isVerified: bool,
    createdAt: nat,
    updatedAt: nat)

  datatype Bcrypt = Bcrypt(hash: (string, string) -> string, compare: (string, string) -> bool)

  /** bcrypt's promise: a hash is never empty and the password it was made
      from compares equal to it. */
  ghost predicate Sound(b: Bcrypt)
  {
    forall pw: string, salt: string :: b.hash(pw, salt) != "" && b.compare(pw, b.hash(pw, salt))
  }

  const UsernameMinLength := 3
  const UsernameMaxLength := 30
  const NameMaxLength := 100
  const PasswordMinLength := 8
  const PhoneMinDigits := 6
  const PhoneMaxDigits := 15

  // ---- setters applied when a value is assigned (and to query filters) ----

  /** `lowercase: true, trim: true`, in that order. */
  function CastEmail(e: string): string
  {
    Trim(ToLower(e))
  }

  /** The cast produces a trimmed, lower-cased address, and an address of
      that kind is its own cast: a stored address is found again when it
      is used as a filter. */
  lemma CastEmailNormal(e: string)
    ensures Trimmed(CastEmail(e)) && LowerCased(CastEmail(e))
    ensures Trimmed(e) && LowerCased(e) ==> CastEmail(e) == e
  {
    TrimmedIsFixedPoint(ToLower(e));
    TrimKeepsLowerCased(ToLower(e));
    if Trimmed(e) && LowerCased(e) {
      LowerCasedIsFixedPoint(e);
      TrimmedIsFixedPoint(e);
    }
  }

  /** Casting twice is casting once. */
  lemma CastEmailIdempotent(e: string)
    ensures CastEmail(CastEmail(e)) == CastEmail(e)
  {
    CastEmailNormal(e);
    CastEmailNormal(CastEmail(e));
  }

  /** Lower-casing before the cast changes nothing. */
  lemma CastEmailToLower(e: string)
    ensures CastEmail(ToLower(e)) == CastEmail(e)
  {
    ToLowerIdempotent(e);
  }

  // ---- validators ----

  /** `required`, `minlength: 3`, `maxlength: 30`, on the trimmed value. */
  predicate UsernameValid(u: string)
  {
    UsernameMinLength <= |u| <= UsernameMaxLength
  }

  /** `required`, `maxlength: 100`. */
  predicate NameValid(n: string)
  {
    0 < |n| <= NameMaxLength
  }

  /** `^\S+@\S+\.\S+$`: no white space anywhere, and an `@` and a later `.`
      each with at least one character on both sides. */
  predicate EmailPattern(e: string)
  {
    && NoSpace(e)
    && exists i, j :: 0 < i && i + 1 < j < |e| - 1 && e[i] == '@' && e[j] == '.'
  }

  /** `^\+?\d{6,15}$`. */
  predicate PhonePattern(p: string)
  {
    var digits := if |p| > 0 && p[0] == '+' then p[1..] else p;
    && PhoneMinDigits <= |digits| <= PhoneMaxDigits
    && forall k :: 0 <= k < |digits| ==> IsDigit(digits[k])
  }

  /** An unset phone skips validation; an empty one is let through by the
      `match` validator. */
  predicate PhoneValid(p: Option<string>)
  {
    p.None? || p.value == "" || PhonePattern(p.value)
  }

  /** A truthy `googleId`. */
  predicate HasGoogleId(u: User)
  {
    u.googleId.Some? && u.googleId.value != ""
  }

  /** `required` unless a `googleId` is set, and `minlength: 8` on any
      value given (the empty string fails it). */
  predicate PasswordValid(u: User)
  {
    match u.password
    case None => HasGoogleId(u)
    case Some(p) => |p| >= PasswordMinLength
  }

  /** All validators of the schema, as they run on a document before the
      save hooks. */
  predicate Validates(u: User)
  {
    && UsernameValid(u.username)
    && NameValid(u.name)
    && EmailPattern(u.email)
    && PasswordValid(u)
    && PhoneValid(u.phone)
  }

  /** What holds of every stored document: the validators passed on the
      way in, the setters' results are fixed points of the setters, and a
      password (by then a hash) is present unless a `googleId` is. */
  predicate Stored(u: User)
  {
    && UsernameValid(u.username) && Trimmed(u.username)
    && NameValid(u.name)
    && EmailPattern(u.email) && Trimmed(u.email) && LowerCased(u.email)
    && PhoneValid(u.phone) && (u.phone.Some? ==> Trimmed(u.phone.value))
    && (u.password.Some? || HasGoogleId(u))
  }

  /** `new User({username, email, password, phone, name})` at time `now`:
      the setters applied and the defaults filled in. */
  function NewUser(id: UserId, username: string, email: string, password: string,
                   phone: Option<string>, name: string, now: nat): (u: User)
    ensures u.role == RoleUser && !u.isVerified
    ensures u.googleId.None? && u.version == 0
    ensures u.createdAt == now && u.updatedAt == now
  {
    User(id, Trim(username), name, None, CastEmail(email), Some(password),
         match phone case None => None case Some(p) => Some(Trim(p)),
         RoleUser, false, now, now, 0)
  }

  /** A new document that passes validation and has its password replaced
      by a non-empty hash is fit to be stored. */
  lemma {:induction false} NewUserStored(id: UserId, username: string, email: string, password: string,
                                         phone: Option<string>, name: string, now: nat, hash: string)
    requires Validates(NewUser(id, username, email, password, phone, name, now))
    ensures Stored(NewUser(id, username, email, password, phone, name, now).(password := Some(hash)))
  {
    TrimmedIsFixedPoint(username);
    CastEmailNormal(email);
    if phone.Some? { TrimmedIsFixedPoint(phone.value); }
  }

  // ---- the save hook ----

  /** The password field after the `pre("save")` hook: rehashed only when
      it was modified and is non-empty. */
  function Rehashed(u: User, passwordModified: bool, b: Bcrypt, salt: string): (r: User)
    ensures r.password != u.password ==> passwordModified && u.password.Some? && u.password.value != ""
    ensures r == u.(password := r.password)
  {
    if passwordModified && u.password.Some? && u.password.value != "" then
      u.(password := Some(b.hash(u.password.value, salt)))
    else
      u
  }

  // ---- document methods ----

  /** `User.findById(id)`. */
  function FindById(users: seq<User>, id: UserId): (r: Option<nat>)
    ensures r.Some? ==> r.value < |users| && users[r.value].id == id
    ensures r.None? ==> forall k :: 0 <= k < |users| ==> users[k].id != id
  {
    FindFirst(users, (u: User) => u.id == id)
  }

  /** `comparePassword`: false when no password is stored, otherwise the
      bcrypt comparison against the stored hash. */
  function ComparePassword(u: User, candidate: string, b: Bcrypt): (r: bool)
    ensures u.password.None? || u.password == Some("") ==> !r
    ensures u.password.Some? && u.password.value != "" ==> r == b.compare(candidate, u.password.value)
  {
    if u.password.None? || u.password.value == "" then false
    else b.compare(candidate, u.password.value)
  }

  /** A password hashed by the save hook is accepted by `comparePassword`;
      hashing it a second time would break this. */
  lemma ComparePasswordAfterHash(u: User, pw: string, b: Bcrypt, salt: string)
    requires Sound(b)
    requires u.password == Some(pw) && pw != ""
    ensures ComparePassword(Rehashed(u, true, b, salt), pw, b)
  {
  }

  /** `isRole`: strict equality of the stored role with the argument. */
  function IsRole(u: User, role: string): (r: bool)
    ensures r ==> role == "user" || role == "admin" || role == "manager"
  {
    RoleName(u.role) == role
  }

  /** Distinct roles have distinct names, so `isRole` names exactly one
      role. */
  lemma IsRoleExact(u: User, r: Role)
    ensures IsRole(u, RoleName(r)) <==> u.role == r
  {
  }

  /** The `toJSON` transform: every field except `password` and `__v`. */
  function ToJson(u: User): PublicUser
  {
    PublicUser(u.id, u.username, u.name, u.googleId, u.email, u.phone,
               u.role, u.isVerified, u.createdAt, u.updatedAt)
  }

  /** The serialized form does not depend on the password or the version
      key, so neither can leak through it. */
  lemma ToJsonHidesPasswordAndVersion(u: User, pw: Option<string>, v: nat)
    ensures ToJson(u.(password := pw, version := v)) == ToJson(u)
    ensures ToJson(u).id == u.id && ToJson(u).email == u.email && ToJson(u).username == u.username
  {
  }

  /** A user document held in memory between a query (or `new`) and
      `save()`. The store's change tracking is reduced to what the hooks
      ask about: whether the document was ever saved, whether the password
      path was modified, and whether any other path was. */
  class UserDocument {
    var data: User
    var isNew: bool
    var passwordModified: bool
    var othersModified: bool

    /** `new User(...)`: nothing saved yet, so a password given is a
        modified path. */
    constructor (u: User)
      ensures data == u && isNew
      ensures passwordModified == u.password.Some? && !othersModified
    {
      data := u;
      isNew := true;
      passwordModified := u.password.Some?;
      othersModified := false;
    }

    /** A document as a query returns it: saved before, no modified paths. */
    constructor Loaded(u: User)
      ensures data == u && !isNew && !passwordModified && !othersModified
    {
      data := u;
      isNew := false;
      passwordModified := false;
      othersModified := false;
    }

    /** `user.isVerified = true`; assigning the value a path already holds
        does not mark it modified. */
    method SetVerified()
      modifies this
      ensures data == old(data).(isVerified := true)
      ensures othersModified == (old(othersModified) || !old(data).isVerified)
      ensures isNew == old(isNew) && passwordModified == old(passwordModified)
    {
      if !data.isVerified {
        othersModified := true;
      }
      data := data.(isVerified := true);
    }

    /** The `pre("save")` hook: returns early unless the password was
        modified and is non-empty, otherwise overwrites it with its hash. */
    method PreSaveHook(b: Bcrypt, salt: string)
      modifies this
      ensures data == Rehashed(old(data), old(passwordModified), b, salt)
      ensures isNew == old(isNew) && passwordModified == old(passwordModified)
      ensures othersModified == old(othersModified)
    {
      if !passwordModified {
        return;
      }
      if data.password.None? || data.password.value == "" {
        return;
      }
      data := data.(password := Some(b.hash(data.password.value, salt)));
    }

    /** `save()`: the hook, then the `timestamps` stamp, which moves
        `updatedAt` only for a new document or one with a modified path;
        afterwards the document is no longer new and nothing counts as
        modified. Validation is the caller's. */
    method Save(b: Bcrypt, salt: string, now: nat)
      modifies this
      ensures old(isNew || passwordModified || othersModified) ==>
        data == Rehashed(old(data), old(passwordModified), b, salt).(updatedAt := now)
      ensures !old(isNew || passwordModified || othersModified) ==> data == old(data)
      ensures !isNew && !passwordModified && !othersModified
    {
      var stamp := isNew || passwordModified || othersModified;
      PreSaveHook(b, salt);
      if stamp {
        data := data.(updatedAt := now);
      }
      isNew := false;
      passwordModified := false;
      othersModified := false;
    }
  }

  /** A new document saved twice keeps the hash and the timestamp of the
      first save, and the original password still compares equal to the
      hash. */
  method SaveTwice(u: User, b: Bcrypt, salt1: string, salt2: string, now1: nat, now2: nat)
    returns (stored: User)
    requires Sound(b)
    requires u.password.Some? && u.password.value != ""
    ensures stored.password == Some(b.hash(u.password.value, salt1))
    ensures stored.updatedAt == now1
    ensures ComparePassword(stored, u.password.value, b)
  {
    var doc := new UserDocument(u);
    doc.Save(b, salt1, now1);
    doc.Save(b, salt2, now2);
    stored := doc.data;
  }
}
