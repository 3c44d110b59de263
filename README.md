# Account core of raghav-poshaak, in Dafny

This project models the account core of the raghav-poshaak shop in Dafny. On the server side that is:

- the user and token schemas;
- the password policy;
- the session gate in front of the protected routes;
- the three account handlers that exist: `SignUp`, `verifyEmail` and `resendVerification`.

On the client it is the auth slice of the store. Properties of each piece are proved about the model.

| file | module | models |
|---|---|---|
| `documents.dfy` | `Documents` | the document store: collections in insertion order; `findOne` is the first match; ids as they arrive from requests |
| `text.dfy` | `Text` | the JavaScript string operations used: the `\s` class, `trim`, `toLowerCase` on ASCII, `split` on one character |
| `user_model.dfy` | `UserModel` | the user schema: setters, validators, defaults, the `pre("save")` hook, `comparePassword`, `isRole`, `toJSON`; the class `UserDocument` is a loaded document that is saved in place |
| `token_model.dfy` | `TokenModel` | the token ledger entry: creation, consumption and the TTL index |
| `validators.dfy` | `Validators` | `validatePassword` |
| `auth_middleware.dfy` | `AuthMiddleware` | the session gate: picks the credential, verifies it and resolves the user |
| `auth_controller.dfy` | `AuthController` | the class `AuthStore` (users, tokens) and its handler methods |
| `auth_slice.dfy` | `AuthSlice` | the client reducer as a state-to-state function `Reduce`, and the class `AuthSliceStore` whose `Dispatch` assigns the fields |

## Conventions

- **Time.** Each request reads the clock once, as `now` in milliseconds.
- **Missing values.** A missing body field is the empty string, which JavaScript treats as falsy. A missing query id is `Missing`. An id the store cannot cast to an ObjectId is `Unparseable`; the store then throws, and the handler's catch answers 500.
- **Abstract functions.** SHA-256 (FIPS 180-4) is an abstract function of the store. bcrypt is a pair of abstract functions, `hash` and `compare`; `Sound` states what the model relies on:
  - a hash is never empty;
  - a password compares equal to its own hash.

  Verification of a JSON Web Token (RFC 7519) is a partial function from the credential to its claims.
- **Query setters.** The store applies the schema's setters (`trim`, `lowercase`) to query filters. So `findOne({ email })` looks up the cast address, and `findOne({ username })` the trimmed name.
- **Store invariant.** `AuthStore.Valid` holds before and after every handler:
  - every stored user satisfies the schema (`Stored`);
  - user ids, emails and usernames are unique (the unique indexes);
  - every token names an id the store has handed out (a token whose user no longer exists is possible, and `verifyEmail` answers 404 for it);
  - a token's `used` flag is set exactly when its `consumedAt` is.

## Two behaviours worth knowing

The model follows the code in both places:

- **Unknown address on resend.** A uniform answer for known and unknown addresses would be the usual intent, so that the endpoint does not reveal which addresses have accounts. `resendVerification` instead answers 404 "User not found." (`Backend/controllers/AuthController.js:155-156`).
- **Short password on sign-up.** `SignUp` does not call `validatePassword`. A password shorter than 8 characters fails the schema's `minlength` inside `User.create`, which the handler's catch turns into 500 "Internal server error".

## Model

| member | source | states |
|---|---|---|
| Documents.FindFirst | Backend/controllers/AuthController.js:96-100 | `findOne` returns the first record matching the filter; none exactly when no record matches |
| Documents.FindFirstUnique | Backend/controllers/AuthController.js:96-100 | the first match is determined by which records match |
| Documents.FindFirstAfterUpdate | Backend/controllers/AuthController.js:126-129 | saving a record in place does not move a first match as long as the record still matches |
| Documents.FindFirstAfterAppend | Backend/controllers/AuthController.js:41-46 | inserting a record keeps every existing first match; a filter nothing matched finds the new record exactly when it matches |
| Text.LeadingSpaces | Backend/models/UserModel.js:10 | the number of leading white-space characters: all before it are white space, the one at it is not |
| Text.TrailingCut | Backend/models/UserModel.js:10 | the length without trailing white space: all after it are white space, the one before it is not |
| Text.IsSpace | Backend/models/UserModel.js:10 | membership in the white-space class of JavaScript's `trim` and `\s` (tab, line breaks, the space characters of Unicode, the byte-order mark); `LowerCharKeepsSpace` and `TrimIsSlice` are stated with it |
| Text.Trim | Backend/models/UserModel.js:10 | `trim` is the slice between `LeadingSpaces` and `TrailingCut`; what this means is proved by `TrimIsSlice`, `TrimIdempotent` and `TrimmedIsFixedPoint` |
| Text.TrimIsSlice | Backend/models/UserModel.js:10 | `trim` returns a slice of the input with only white space cut from either end, and it neither starts nor ends with white space |
| Text.TrimIdempotent | Backend/models/UserModel.js:10 | trimming twice is trimming once |
| Text.TrimmedIsFixedPoint | Backend/models/UserModel.js:24-31 | a string is left alone by `trim` exactly when it neither starts nor ends with white space; every result of `trim` is such a string |
| Text.ToLower | Backend/controllers/AuthController.js:155 | `toLowerCase` keeps the length, lower-cases each character, and leaves no ASCII capital |
| Text.LowerCasedIsFixedPoint | Backend/models/UserModel.js:28 | a string is left alone by `toLowerCase` exactly when it has no ASCII capital |
| Text.TrimKeepsLowerCased | Backend/models/UserModel.js:28-29 | trimming a lower-cased string keeps it lower-cased |
| Text.ToLowerIdempotent | Backend/controllers/AuthController.js:155 | lower-casing twice is lower-casing once |
| Text.LowerCharKeepsSpace | Backend/models/UserModel.js:28-29 | lower-casing a character neither creates nor removes white space |
| Text.TrimStartToLower | Backend/models/UserModel.js:28-29 | lower-casing commutes with removing leading white space |
| Text.TrimEndToLower | Backend/models/UserModel.js:28-29 | lower-casing commutes with removing trailing white space |
| Text.TrimToLower | Backend/models/UserModel.js:28-29 | lower-casing commutes with `trim`, so the order of the two email setters does not matter |
| Text.Split | Backend/middlewares/AuthMiddleware.js:11 | `split` gives at least one field; no field holds the separator; the first field is the prefix up to the first separator |
| Text.JoinSplit | Backend/middlewares/AuthMiddleware.js:11 | joining the fields of a split with the separator gives the input back |
| Text.Join | Backend/middlewares/AuthMiddleware.js:11 | the inverse reference for `split`: the fields concatenated with the separator between them; `JoinSplit` proves the round trip |
| Text.SplitHead | Backend/middlewares/AuthMiddleware.js:11 | with the first separator at `i`, the first field is `s[..i]` and the rest is the split of what follows it |
| UserModel.CastEmail | Backend/models/UserModel.js:24-31 | the email setters, `lowercase` then `trim`; its meaning is proved by `CastEmailNormal`, `CastEmailIdempotent` and `TrimToLower` |
| UserModel.CastEmailNormal | Backend/models/UserModel.js:24-31 | the email setters produce a trimmed, lower-cased address, and such an address is its own cast, so a stored address is found again by the cast filter |
| UserModel.CastEmailIdempotent | Backend/models/UserModel.js:24-31 | casting an address twice is casting it once |
| UserModel.CastEmailToLower | Backend/controllers/AuthController.js:155 | lower-casing before the cast changes nothing: the resend lookup finds the same record as the cast filter |
| UserModel.UsernameValid | Backend/models/UserModel.js:6-13 | `required`, `minlength: 3` and `maxlength: 30` on the trimmed username |
| UserModel.NameValid | Backend/models/UserModel.js:14-18 | `required` (non-empty) and `maxlength: 100` |
| UserModel.EmailPattern | Backend/models/UserModel.js:30 | `^\S+@\S+\.\S+$`: no white space, an `@` and a later `.`, each with a character on both sides |
| UserModel.PasswordValid | Backend/models/UserModel.js:32-39 | a password is required unless a truthy `googleId` is set, and any password given has at least 8 characters; `PolicyMatchesSchema` relates it to `validatePassword` |
| UserModel.PhonePattern | Backend/models/UserModel.js:43 | `^\+?\d{6,15}$`: an optional `+` followed by 6 to 15 digits |
| UserModel.PhoneValid | Backend/models/UserModel.js:40-45 | an unset or empty phone passes; any other must match the phone pattern |
| UserModel.Validates | Backend/models/UserModel.js:6-45 | the conjunction of every field validator, as run before the save hooks; `NewUserStored` proves what it buys |
| UserModel.Stored | Backend/models/UserModel.js:6-45 | what holds of every stored document: the validators, the setters' results as fixed points of the setters, and a password unless a Google id is set; kept by every `AuthStore` handler through `Valid` |
| UserModel.NewUser | Backend/models/UserModel.js:46-54 | a new document has role `user`, is unverified, has no Google id and version 0, and is stamped with the creation time |
| UserModel.NewUserStored | Backend/models/UserModel.js:6-45 | a new document that passes validation, with its password replaced by a non-empty hash, satisfies every constraint of a stored document |
| UserModel.Rehashed | Backend/models/UserModel.js:70-80 | the hook changes only the password, and only when it was modified and is non-empty |
| UserModel.ComparePassword | Backend/models/UserModel.js:83-86 | false when no password is stored; otherwise the bcrypt comparison with the stored hash |
| UserModel.ComparePasswordAfterHash | Backend/models/UserModel.js:70-86 | a password hashed once by the hook is accepted by `comparePassword` |
| UserModel.IsRole | Backend/models/UserModel.js:88-90 | `isRole` holds only for one of the three enum names |
| UserModel.IsRoleExact | Backend/models/UserModel.js:46-50 | `isRole(name)` holds exactly when the stored role is the role of that name |
| UserModel.ToJson | Backend/models/UserModel.js:59-65 | every field except `password` and `__v`; `ToJsonHidesPasswordAndVersion` proves that neither leaks |
| UserModel.ToJsonHidesPasswordAndVersion | Backend/models/UserModel.js:59-65 | the serialized form does not depend on the password or `__v`, and it keeps the id, email and username |
| UserModel.FindById | Backend/controllers/AuthController.js:132 | `findById` finds a record with that id, or none when no record has it |
| UserModel.UserDocument.constructor | Backend/controllers/AuthController.js:26-32 | a new document holds the input, is new, and counts its password as modified |
| UserModel.UserDocument.Loaded | Backend/controllers/AuthController.js:132 | a document loaded by a query is not new and has no modified paths |
| UserModel.UserDocument.SetVerified | Backend/controllers/AuthController.js:137-139 | only `isVerified` is set, to true; the path counts as modified only when the value changed |
| UserModel.UserDocument.PreSaveHook | Backend/models/UserModel.js:70-80 | the document after the hook is `Rehashed` of the document before it |
| UserModel.UserDocument.Save | Backend/models/UserModel.js:56-80 | save runs the hook and stamps `updatedAt` when the document is new or has a modified path; an unmodified loaded document is left unchanged; afterwards the document is not new and has no modified path |
| UserModel.SaveTwice | Backend/models/UserModel.js:56-80 | saving a new document twice stores the hash and the `updatedAt` of the first save (the first save clears the modified flags, so the second hashes and stamps nothing), and the original password still compares equal to the hash |
| TokenModel.NewToken | Backend/models/TokenModel.js:23-40 | a new token is unused, has no `consumedAt` and is stamped with the creation time |
| TokenModel.Expired | Backend/models/TokenModel.js:47-48 | with `expireAfterSeconds: 0` an entry is due for deletion once `expiresAt` lies strictly before the current time |
| TokenModel.Consume | Backend/controllers/AuthController.js:126-129 | consuming sets `used`, sets `consumedAt` to the request time, and changes nothing else |
| TokenModel.Sweep | Backend/models/TokenModel.js:47-48 | the TTL deleter keeps every entry whose `expiresAt` has not passed, each as often as before, drops every other one, and keeps the order of what remains |
| TokenModel.SweepIdempotent | Backend/models/TokenModel.js:47-48 | a second pass at the same time deletes nothing more |
| TokenModel.SweepKeepsLiveMatch | Backend/models/TokenModel.js:47-48 | an unexpired entry that a lookup finds first is still found first after the sweep |
| Validators.ValidatePassword | Backend/utils/validators.js:1-10 | `ok` holds exactly for a string of at least 8 characters; otherwise the reason names the type test when the input is not a string, and the length test when it is |
| Validators.PolicyMatchesSchema | Backend/models/UserModel.js:32-39 | for any account, with or without a Google id, the policy accepts exactly the given passwords that the schema's password check accepts |
| AuthMiddleware.IsBearer | Backend/middlewares/AuthMiddleware.js:10 | `startsWith("Bearer ")`: the header's first seven characters are `Bearer ` |
| AuthMiddleware.CookieToken | Backend/middlewares/AuthMiddleware.js:12-13 | the `token` cookie when cookies were parsed and hold one, the empty string otherwise |
| AuthMiddleware.Credential | Backend/middlewares/AuthMiddleware.js:7-14 | the bearer field when the header starts with `Bearer `, else the cookie; the empty string stands for no credential; `HeaderTakesPrecedence`, `CookieUsedWithoutBearer` and `EmptyBearerRejected` state its cases |
| AuthMiddleware.BearerToken | Backend/middlewares/AuthMiddleware.js:11 | the second space-separated field of a bearer header is the run of non-space characters right after `Bearer `, possibly empty |
| AuthMiddleware.Authenticate | Backend/middlewares/AuthMiddleware.js:5-47 | 401 without a credential, on a failed verification, on a payload without `userId`, and for an unknown user; 500 on an id that cannot be cast; otherwise `next` with that user's id and record, with the password removed |
| AuthMiddleware.HeaderTakesPrecedence | Backend/middlewares/AuthMiddleware.js:10-14 | with a bearer header the cookies play no part |
| AuthMiddleware.EmptyBearerRejected | Backend/middlewares/AuthMiddleware.js:10-18 | a bare `Bearer ` header, or one with a second space after the prefix, is refused with 401 even when a cookie is present |
| AuthMiddleware.CookieUsedWithoutBearer | Backend/middlewares/AuthMiddleware.js:12-13 | without a bearer header, the `token` cookie is the credential |
| AuthMiddleware.AcceptsExactly | Backend/middlewares/AuthMiddleware.js:33-42 | a credential that verifies to the id of a stored user passes, carrying that record without its password |
| AuthController.FindByEmail | Backend/controllers/AuthController.js:16 | the lookup finds a user whose stored email equals the cast address, or none when no user has it |
| AuthController.FindByUsername | Backend/controllers/AuthController.js:21 | the lookup finds a user whose stored username equals the trimmed name, or none when no user has it |
| AuthController.FindToken | Backend/controllers/AuthController.js:96-100 | the first token matching user id, hash and type, or none when no token matches |
| AuthController.RecentVerifyToken | Backend/controllers/AuthController.js:162-166 | true exactly when some verification token of the user was created less than three minutes before `now` |
| AuthController.MarkVerified | Backend/controllers/AuthController.js:137-140 | afterwards the user is verified; an already verified user is left as it was; otherwise only `isVerified` and `updatedAt` change |
| AuthController.VerifyLoaded | Backend/controllers/AuthController.js:132-140 | the document steps on a loaded user (set `isVerified` and save only when it was false) leave exactly `MarkVerified` of the old record |
| AuthController.ConsumeKeepsLookup | Backend/controllers/AuthController.js:106-129 | after consumption the same lookup finds the same token, now used, so a replayed link is refused as used |
| AuthController.FreshTokenFound | Backend/controllers/AuthController.js:41-46 | the token issued to a new user is the one a lookup with that id and hash finds |
| AuthController.CooldownAfterIssue | Backend/controllers/AuthController.js:161-174 | issuing a token starts a three-minute cooldown for that user |
| AuthController.CooldownElapses | Backend/controllers/AuthController.js:161-174 | a token at least three minutes old no longer counts towards the cooldown |
| AuthController.UsersValid | Backend/models/UserModel.js:6-45 | every id is below `nextId`, every record satisfies `Stored`, and ids, emails and usernames are pairwise distinct: the unique indexes on `username` (line 9) and `email` (line 27) |
| AuthController.TokensValid | Backend/models/TokenModel.js:3-45 | every token names an id the store has handed out (the `ref: "User"` at line 8 is not enforced by the store, so the user may be gone), and `used` holds exactly when `consumedAt` is set |
| AuthController.AllStoredAt | Backend/models/UserModel.js:4-67 | every record of a valid collection satisfies the schema |
| AuthController.UsersValidAppend | Backend/controllers/AuthController.js:16-32 | inserting a stored user with a fresh id, email and username keeps the unique indexes and the schema invariant |
| AuthController.UsersValidMarkVerified | Backend/controllers/AuthController.js:137-140 | verifying a user keeps the unique indexes and the schema invariant |
| AuthController.TokensValidAppend | Backend/controllers/AuthController.js:41-46 | adding a fresh token for an existing user keeps the ledger invariant |
| AuthController.TokensValidConsume | Backend/controllers/AuthController.js:126-129 | consuming a token keeps the ledger invariant |
| AuthController.TokensValidSweep | Backend/models/TokenModel.js:47-48 | the TTL sweep keeps the ledger invariant |
| AuthController.AuthStore.Valid | Backend/controllers/AuthController.js:8-212 | the store invariant `UsersValid` and `TokensValid` at the same `nextId`; every handler requires it and ensures it again |
| AuthController.AuthStore.Create | Backend/controllers/AuthController.js:26-32 | a validated document is saved with its password hashed, under the next id; the invariant is kept |
| AuthController.AuthStore.Insert | Backend/controllers/AuthController.js:26-32 | a stored document with a free email and username is added under the next id |
| AuthController.AuthStore.IssueToken | Backend/controllers/AuthController.js:34-46 | exactly one verification token is added; it holds the SHA-256 of the raw token and expires 24 hours after `now` |
| AuthController.AuthStore.SignUp | Backend/controllers/AuthController.js:8-77 | 400 with no change when a required field is missing; then the email check, then the username check; 500 with no change when the schema rejects the document; otherwise exactly one user and one token are added, and the answer is 201 with the new id, or 500 when the mail failed (the records stay) |
| AuthController.AuthStore.VerifyEmail | Backend/controllers/AuthController.js:80-147 | 400 with no change when the token or id is missing; 500 on an uncastable id; 400 with no change for no match, a used token, or one whose `expiresAt < now`; otherwise that one token is consumed, then 404 when the user is gone, or 200 with that one user verified |
| AuthController.AuthStore.SetVerified | Backend/controllers/AuthController.js:137-140 | the user at the position is marked verified, and nothing else changes |
| AuthController.AuthStore.ResendVerification | Backend/controllers/AuthController.js:150-212 | 400 without an email; 404 for an unknown address; 400 for a verified user; 429 with no change inside the cooldown; otherwise exactly one new 24-hour token, and 200 with the user id or 500 when the mail failed; users never change |
| AuthController.AuthStore.ExpireTokens | Backend/models/TokenModel.js:47-48 | the ledger becomes its sweep; users are untouched |
| AuthController.SignUpVerifyReplay | Backend/controllers/AuthController.js:80-147 | sign-up, then the link opened within 24 hours, verifies the account; the same link a second time is refused as used |
| AuthController.ResendTwice | Backend/controllers/AuthController.js:161-174 | two resends less than three minutes apart: the first issues a token, the second answers 429 |
| AuthSlice.Initial | Frontend/src/features/auth/authSlice.js:226-232 | the initial state has no user, error, sign-up info or message, and is not loading |
| AuthSlice.Reduce | Frontend/src/features/auth/authSlice.js:242-415 | the reducer as a function of state and action, case by case; the lemmas below state what each case does and `ReduceWritesOnly` what it leaves alone |
| AuthSlice.Writes | Frontend/src/features/auth/authSlice.js:242-415 | for each action, the set of state fields its case assigns, read off the reducer as an independent table against which `ReduceWritesOnly` checks `Reduce` |
| AuthSlice.ReduceWritesOnly | Frontend/src/features/auth/authSlice.js:243-414 | no action changes a field outside those its case assigns |
| AuthSlice.PendingCases | Frontend/src/features/auth/authSlice.js:262-296 | `login.pending` and `signup.pending` set `loading` and clear `error`; `fetchMe.pending` sets `loading` and keeps `error`; other pending actions change nothing |
| AuthSlice.LoginOutcomes | Frontend/src/features/auth/authSlice.js:281-288 | `login.fulfilled` clears `loading` and sets the user; `login.rejected` clears `loading` and sets the error, keeping the user |
| AuthSlice.FetchMeRejectedSignsOut | Frontend/src/features/auth/authSlice.js:269-272 | `fetchMe.rejected` clears `loading` and the user and keeps `error` |
| AuthSlice.SignupNeverSetsUser | Frontend/src/features/auth/authSlice.js:293-304 | no sign-up action touches the user; `signup.fulfilled` stores the sign-up info and clears `loading` |
| AuthSlice.SignOutActions | Frontend/src/features/auth/authSlice.js:243-414 | `logout.fulfilled`, `deleteAccount.fulfilled` and `clearUser` set the user to null and change nothing else |
| AuthSlice.ClearOneField | Frontend/src/features/auth/authSlice.js:243-248 | `clearError` and `clearMessage` each clear exactly their one field |
| AuthSlice.ProfileEdits | Frontend/src/features/auth/authSlice.js:365-394 | a username or name update changes only that member of the user and does nothing without a user; a phone update replaces the whole user |
| AuthSlice.UntrackedKeepLoading | Frontend/src/features/auth/authSlice.js:314-414 | outside fetch-me, login and sign-up no action changes `loading`, and a rejection only sets `error` (logout's does nothing) |
| AuthSlice.RejectionSettlesLoading | Frontend/src/features/auth/authSlice.js:262-304 | a pending action followed by its rejection leaves `loading` false for the three tracked requests, and unchanged for the others |
| AuthSlice.LoginRoundTrip | Frontend/src/features/auth/authSlice.js:277-284 | a successful login ends signed in, with no error and not loading |
| AuthSlice.AuthSliceStore.constructor | Frontend/src/features/auth/authSlice.js:226-239 | the store starts in the initial state |
| AuthSlice.AuthSliceStore.Dispatch | Frontend/src/features/auth/authSlice.js:242-415 | assigning the fields in place produces exactly the state `Reduce` specifies |

## Left out

- **Request decoding and the clock.** The HTTP layer, JSON bodies and cookie parsing are not modelled; neither is the real clock: a request sees one `now`.
- **Randomness.** The random raw token and the bcrypt salt are inputs.
- **Mail and link building.** The mailer is reduced to a success flag. Building the verification link (trailing-slash strip, `encodeURIComponent`) is not modelled.
- **Internals of SHA-256, bcrypt and JWT signing.** They are abstract functions. The `pre("save")` hook's error path (a failing `genSalt` or `hash`) is not modelled. Minting session tokens (`Backend/utils/secretToken.js`) is not part of this model.
- **Failing store reads and writes.** Queries (`findOne`, `findById`) and writes (`User.create`, `Token.create`, `save`) never fail in the model; the only store error modelled is an id that cannot be cast (`Unparseable`). In the source, any of them may throw, and the catch answers 500: in the handlers at `Backend/controllers/AuthController.js:73-76`, `143-146` and `208-211`, and in the session gate at `Backend/middlewares/AuthMiddleware.js:43-46`. Two such outcomes leave a partial write behind the 500, and `AuthStore` cannot represent either:
  - a `Token.create` that fails after a successful `User.create` leaves a stored user without a token;
  - a `User.findById` that fails after the token was saved as consumed (`verifyEmail`) leaves the token consumed and the user unverified.

  Likewise `Authenticate` answers 500 only for an id that cannot be cast, not for a failing lookup.
- **Message texts.** Responses carry a `Message` constructor; `Wording` lists the text the source sends for each, but no contract is stated over the texts themselves.
- **Concurrency.** Requests run one at a time. The race in which two sign-ups pass the lookups and one then fails on a unique index is not modelled; it would end in the generic 500.
- **Natural order.** The store's order for `findOne` without a sort is taken to be insertion order. Every id that cannot be cast is a single case (`Unparseable`), and body fields are strings (a non-string `email` makes `toLowerCase` throw, which is not modelled).
- **Unimplemented routes.** The routes for login, logout, forgot and reset password, the current user, the profile updates, password change and account deletion name handlers that the controller does not define. They are not modelled; their client-side actions are modelled as inputs to the reducer.
- **Async thunks.** The slice's HTTP calls are not modelled; their outcomes enter only as actions. A fulfilled `updateUsername` whose payload is missing would make the reducer throw; that case is not modelled (its payload is a `Profile`).
- Text.ToLower: models `toLowerCase` on ASCII letters only; letters outside ASCII are left as they are, and the length-changing cases of full Unicode lower-casing are not modelled.
- **String units.** Lengths (`UsernameValid`, `NameValid`, `PasswordValid`, `ValidatePassword`) count Unicode code points, not the UTF-16 units `length` counts; the two differ only outside the Basic Multilingual Plane.
- **Required token fields.** The token schema's `required` checks on `userId`, `tokenHash` and `expiresAt` are always met by the handlers, since a hex digest is never empty. They are not modelled as a failure path.
- **The TTL deleter.** Its background timing is not modelled; `ExpireTokens` is one pass at a given time.
- **Unique `googleId` and the `sparse` flags.** These schema options have no handler here that could violate them and are not modelled.
- **The store's empty starting state** (`AuthStore.constructor`) exists only to start the model; no source line corresponds to it.
