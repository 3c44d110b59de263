/** The client's auth slice: five fields, four synchronous reducers and the
    pending / fulfilled / rejected cases of the fourteen request thunks.

    `Reduce` is the state-to-state specification of one dispatch; the class
    `AuthSliceStore` holds the fields and its `Dispatch` assigns them as the
    case reducers assign the draft. The requests themselves are not part
    of the slice: their outcomes arrive only as actions. */
module AuthSlice {
  import opened Documents

  /** The user object the server returns. `username` and `name` are the
      members the reducer writes one at a time (either may be absent);
      `rest` is every other member. */
  datatype Profile = Profile(username: Option<string>, name: Option<string>, rest: map<string, string>)

  /** `{ message, userId }` as the sign-up and resend thunks return it. */
  datatype SignupInfo = SignupInfo(message: Option<string>, userId: Option<string>)

  /** The slice state; `None` is `null` (or `undefined`). */
  datatype AuthState = AuthState(
    user: Option<Profile>,
    loading: bool,
    error: Option<string>,
    signupInfo: Option<SignupInfo>,
    lastMessage: Option<string>)

  /** The request thunks. */
  datatype Thunk =
    | FetchMe | Login | Signup | Logout | GoogleAuth | VerifyEmail | ResendVerification
    | ForgotPassword | ResetPassword | UpdateUsername | UpdateName | UpdatePhone
    | ChangePassword | DeleteAccount

  /** Every action that can reach the slice. A fulfilled action carries
      what its thunk returns; a rejected one the value given to
      `rejectWithValue`. `Unrelated` is any action the slice has no case
      for, including the pending and rejected actions it does not handle. */
  datatype Action =
    | ClearError
    | ClearMessage
    | SetUser(user: Option<Profile>)
    | ClearUser
    | Pending(thunk: Thunk)
    | Rejected(thunk: Thunk, error: Option<string>)
    | FetchMeFulfilled(user: Option<Profile>)
    | LoginFulfilled(user: Option<Profile>)
    | SignupFulfilled(info: SignupInfo)
    | LogoutFulfilled
    | GoogleAuthFulfilled(user: Option<Profile>)
    | VerifyEmailFulfilled(message: Option<string>)
    | ResendVerificationFulfilled(info: SignupInfo)
    | ForgotPasswordFulfilled(message: Option<string>)
    | ResetPasswordFulfilled(message: Option<string>)
    | UpdateUsernameFulfilled(profile: Profile)
    | UpdateNameFulfilled(name: Option<string>)
    | UpdatePhoneFulfilled(user: Option<Profile>)
    | ChangePasswordFulfilled(message: Option<string>)
    | DeleteAccountFulfilled
    | Unrelated

  /** The thunks whose requests drive the shared `loading` flag. */
  predicate Tracked(t: Thunk)
  {
    t == FetchMe || t == Login || t == Signup
  }

  /** `initialState`. */
  function Initial(): (s: AuthState)
    ensures s.user.None? && !s.loading && s.error.None? && s.signupInfo.None? && s.lastMessage.None?
  {
    AuthState(None, false, None, None, None)
  }

  /** The slice's reducer: the state after one action. */
  function Reduce(s: AuthState, a: Action): AuthState
  {
    match a
    case ClearError => s.(error := None)
    case ClearMessage => s.(lastMessage := None)
    case SetUser(u) => s.(user := u)
    case ClearUser => s.(user := None)
    case Pending(t) =>
      if t == FetchMe then s.(loading := true)
      else if t == Login || t == Signup then s.(loading := true, error := None)
      else s
    case Rejected(t, e) =>
      if t == FetchMe then s.(loading := false, user := None)
      else if t == Login || t == Signup then s.(loading := false, error := e)
      else if t == Logout then s
      else s.(error := e)
    case FetchMeFulfilled(u) => s.(loading := false, user := u)
    case LoginFulfilled(u) => s.(loading := false, user := u)
    case SignupFulfilled(info) => s.(loading := false, signupInfo := Some(info))
    case LogoutFulfilled => s.(user := None)
    case GoogleAuthFulfilled(u) => s.(user := u)
    case VerifyEmailFulfilled(m) => s.(lastMessage := m)
    case ResendVerificationFulfilled(info) => s.(signupInfo := Some(info))
    case ForgotPasswordFulfilled(m) => s.(lastMessage := m)
    case ResetPasswordFulfilled(m) => s.(lastMessage := m)
    case UpdateUsernameFulfilled(p) =>
      if s.user.Some? then s.(user := Some(s.user.value.(username := p.username))) else s
    case UpdateNameFulfilled(n) =>
      if s.user.Some? then s.(user := Some(s.user.value.(name := n))) else s
    case UpdatePhoneFulfilled(u) => s.(user := u)
    case ChangePasswordFulfilled(m) => s.(lastMessage := m)
    case DeleteAccountFulfilled => s.(user := None)
    case Unrelated => s
  }

  // ---- which fields each action writes ----

  datatype Field = UserField | LoadingField | ErrorField | SignupInfoField | LastMessageField

  /** The fields each case reducer assigns, read off the cases one by one. */
  function Writes(a: Action): set<Field>
  {
    match a
    case ClearError => {ErrorField}
    case ClearMessage => {LastMessageField}
    case SetUser(_) => {UserField}
    case ClearUser => {UserField}
    case Pending(t) =>
      if t == FetchMe then {LoadingField}
      else if t == Login || t == Signup then {LoadingField, ErrorField}
      else {}
    case Rejected(t, _) =>
      if t == FetchMe then {LoadingField, UserField}
      else if t == Login || t == Signup then {LoadingField, ErrorField}
      else if t == Logout then {}
      else {ErrorField}
    case FetchMeFulfilled(_) => {LoadingField, UserField}
    case LoginFulfilled(_) => {LoadingField, UserField}
    case SignupFulfilled(_) => {LoadingField, SignupInfoField}
    case LogoutFulfilled => {UserField}
    case GoogleAuthFulfilled(_) => {UserField}
    case VerifyEmailFulfilled(_) => {LastMessageField}
    case ResendVerificationFulfilled(_) => {SignupInfoField}
    case ForgotPasswordFulfilled(_) => {LastMessageField}
    case ResetPasswordFulfilled(_) => {LastMessageField}
    case UpdateUsernameFulfilled(_) => {UserField}
    case UpdateNameFulfilled(_) => {UserField}
    case UpdatePhoneFulfilled(_) => {UserField}
    case ChangePasswordFulfilled(_) => {LastMessageField}
    case DeleteAccountFulfilled => {UserField}
    case Unrelated => {}
  }

  /** `s` and `t` agree on every field outside `fields`. */
  predicate AgreeOutside(s: AuthState, t: AuthState, fields: set<Field>)
  {
    && (UserField !in fields ==> s.user == t.user)
    && (LoadingField !in fields ==> s.loading == t.loading)
    && (ErrorField !in fields ==> s.error == t.error)
    && (SignupInfoField !in fields ==> s.signupInfo == t.signupInfo)
    && (LastMessageField !in fields ==> s.lastMessage == t.lastMessage)
  }

  /** No action changes a field outside the ones its case writes. */
  lemma ReduceWritesOnly(s: AuthState, a: Action)
    ensures AgreeOutside(s, Reduce(s, a), Writes(a))
  {
  }

  // ---- properties of individual cases ----

  /** `login.pending` and `signup.pending` raise `loading` and clear
      `error`; `fetchMe.pending` raises `loading` and keeps `error`; no
      other pending action changes anything. */
  lemma PendingCases(s: AuthState, t: Thunk)
    ensures Reduce(s, Pending(t)).loading == (Tracked(t) || s.loading)
    ensures Reduce(s, Pending(t)).error == if t == Login || t == Signup then None else s.error
    ensures !Tracked(t) ==> Reduce(s, Pending(t)) == s
    ensures AgreeOutside(s, Reduce(s, Pending(t)), {LoadingField, ErrorField})
  {
  }

  /** `login.fulfilled` lowers `loading` and sets the user;
      `login.rejected` lowers `loading` and records the error, keeping the
      user. */
  lemma LoginOutcomes(s: AuthState, u: Option<Profile>, e: Option<string>)
    ensures Reduce(s, LoginFulfilled(u)) == s.(loading := false, user := u)
    ensures Reduce(s, Rejected(Login, e)).user == s.user
    ensures Reduce(s, Rejected(Login, e)) == s.(loading := false, error := e)
  {
  }

  /** A failed session check signs the user out without reporting an
      error. */
  lemma FetchMeRejectedSignsOut(s: AuthState, e: Option<string>)
    ensures Reduce(s, Rejected(FetchMe, e)).user.None?
    ensures !Reduce(s, Rejected(FetchMe, e)).loading
    ensures Reduce(s, Rejected(FetchMe, e)).error == s.error
  {
  }

  /** No action of the sign-up request touches the user: registration does
      not sign anyone in. */
  lemma SignupNeverSetsUser(s: AuthState, a: Action)
    requires a == Pending(Signup) || a.SignupFulfilled? || (a.Rejected? && a.thunk == Signup)
    ensures Reduce(s, a).user == s.user
    ensures a.SignupFulfilled? ==> Reduce(s, a).signupInfo == Some(a.info) && !Reduce(s, a).loading
  {
  }

  /** Logging out, deleting the account and `clearUser` each set the user
      to null and nothing else. */
  lemma SignOutActions(s: AuthState, a: Action)
    requires a == LogoutFulfilled || a == DeleteAccountFulfilled || a == ClearUser
    ensures Reduce(s, a) == s.(user := None)
  {
  }

  /** `clearError` and `clearMessage` each clear exactly one field. */
  lemma ClearOneField(s: AuthState)
    ensures Reduce(s, ClearError).error.None? && AgreeOutside(s, Reduce(s, ClearError), {ErrorField})
    ensures Reduce(s, ClearMessage).lastMessage.None? && AgreeOutside(s, Reduce(s, ClearMessage), {LastMessageField})
  {
  }

  /** A username or name update edits that one member of the signed-in
      user and does nothing when no one is signed in; a phone update
      replaces the user object as a whole. */
  lemma ProfileEdits(s: AuthState, p: Profile, n: Option<string>, u: Option<Profile>)
    ensures s.user.None? ==> Reduce(s, UpdateUsernameFulfilled(p)) == s && Reduce(s, UpdateNameFulfilled(n)) == s
    ensures s.user.Some? ==>
      var r := Reduce(s, UpdateUsernameFulfilled(p));
      && r.user.Some? && r.user.value.username == p.username
      && r.user.value.name == s.user.value.name && r.user.value.rest == s.user.value.rest
      && r == s.(user := r.user)
    ensures s.user.Some? ==>
      var r := Reduce(s, UpdateNameFulfilled(n));
      && r.user.Some? && r.user.value.name == n
      && r.user.value.username == s.user.value.username && r.user.value.rest == s.user.value.rest
      && r == s.(user := r.user)
    ensures Reduce(s, UpdatePhoneFulfilled(u)) == s.(user := u)
  {
  }

  /** Outside fetch-me, login and sign-up no action changes `loading`, and
      a rejection does nothing but record the error (logout's rejection
      not even that). */
  lemma UntrackedKeepLoading(s: AuthState, a: Action)
    requires a.Pending? || a.Rejected? ==> !Tracked(a.thunk)
    requires !(a.FetchMeFulfilled? || a.LoginFulfilled? || a.SignupFulfilled?)
    ensures Reduce(s, a).loading == s.loading
    ensures a.Rejected? && a.thunk != Logout ==> Reduce(s, a) == s.(error := a.error)
  {
  }

  /** Every request thunk's pending action followed by its rejection leaves
      `loading` false when the thunk drives it, and as it was otherwise. */
  lemma RejectionSettlesLoading(s: AuthState, t: Thunk, e: Option<string>)
    ensures Reduce(Reduce(s, Pending(t)), Rejected(t, e)).loading == (s.loading && !Tracked(t))
  {
  }

  /** A login attempt that succeeds ends signed in with no error and not
      loading, whatever came before. */
  lemma LoginRoundTrip(s: AuthState, u: Profile)
    ensures Reduce(Reduce(s, Pending(Login)), LoginFulfilled(Some(u))) ==
      s.(loading := false, error := None, user := Some(u))
  {
  }

  /** The store: the five fields of the slice, updated in place. */
  class AuthSliceStore {
    var user: Option<Profile>
    var loading: bool
    var error: Option<string>
    var signupInfo: Option<SignupInfo>
    var lastMessage: Option<string>

    function State(): AuthState
      reads this
    {
      AuthState(user, loading, error, signupInfo, lastMessage)
    }

    /** The store created with `initialState`. */
    constructor ()
      ensures State() == Initial()
    {
      user, loading, error, signupInfo, lastMessage := None, false, None, None, None;
    }

    /** `dispatch(action)`: the matching case reducer assigns the fields. */
    method Dispatch(a: Action)
      modifies this
      ensures State() == Reduce(old(State()), a)
    {
      match a
      case ClearError =>
        error := None;
      case ClearMessage =>
        lastMessage := None;
      case SetUser(u) =>
        user := u;
      case ClearUser =>
        user := None;
      case Pending(t) =>
        if t == FetchMe {
          loading := true;
        } else if t == Login || t == Signup {
          loading := true;
          error := None;
        }
      case Rejected(t, e) =>
        if t == FetchMe {
          loading := false;
          user := None;
        } else if t == Login || t == Signup {
          loading := false;
          error := e;
        } else if t != Logout {
          error := e;
        }
      case FetchMeFulfilled(u) =>
        loading := false;
        user := u;
      case LoginFulfilled(u) =>
        loading := false;
        user := u;
      case SignupFulfilled(info) =>
        loading := false;
        signupInfo := Some(info);
      case LogoutFulfilled =>
        user := None;
      case GoogleAuthFulfilled(u) =>
        user := u;
      case VerifyEmailFulfilled(m) =>
        lastMessage := m;
      case ResendVerificationFulfilled(info) =>
        signupInfo := Some(info);
      case ForgotPasswordFulfilled(m) =>
        lastMessage := m;
      case ResetPasswordFulfilled(m) =>
        lastMessage := m;
      case UpdateUsernameFulfilled(p) =>
        if user.Some? {
          user := Some(user.value.(username := p.username));
        }
      case UpdateNameFulfilled(n) =>
        if user.Some? {
          user := Some(user.value.(name := n));
        }
      case UpdatePhoneFulfilled(u) =>
        user := u;
      case ChangePasswordFulfilled(m) =>
        lastMessage := m;
      case DeleteAccountFulfilled =>
        user := None;
      case Unrelated =>
    }
  }
}
