/** The password strength policy used by the account handlers. */
module Validators {
  import opened Documents
  import UserModel

  /** The argument as JavaScript sees it: a string, or any other value
      (undefined, null, a number, an object). */
  datatype JsValue = JsString(s: string) | NotAString

  /** `{ ok, reason }`; `reason` is absent when `ok` holds. */
  datatype Verdict = Verdict(ok: bool, reason: Option<string>)

  const MustBeString := "Password must be a string."
  const TooShort := "Password must be at least 8 characters long."

  /** `validatePassword`: the type test comes first, then the length. */
  function ValidatePassword(pw: JsValue): (r: Verdict)
    ensures r.ok <==> pw.JsString? && |pw.s| >= UserModel.PasswordMinLength
    ensures r.ok <==> r.reason.None?
    ensures !pw.JsString? ==> r.reason == Some(MustBeString)
    ensures pw.JsString? && !r.ok ==> r.reason == Some(TooShort)
  {
    if !pw.JsString? then Verdict(false, Some(MustBeString))
    else if |pw.s| < 8 then Verdict(false, Some(TooShort))
    else Verdict(true, None)
  }

  /** The policy accepts exactly the passwords the user schema's
      `minlength` accepts, whatever the account's Google id. */
  lemma PolicyMatchesSchema(u: UserModel.User, pw: string)
    ensures ValidatePassword(JsString(pw)).ok <==> UserModel.PasswordValid(u.(password := Some(pw)))
  {
  }
}
