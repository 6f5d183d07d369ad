/**
 * Local credential validation and the mapping from the identity provider's
 * error codes to the messages shown under the sign-in form.
 */
module AuthMessages {
  import opened Js

  const MinPasswordLength: nat := 6

  /** Shown for an error without a code, and when a field is left empty. */
  const FillInPrompt := "请填写邮箱和密码"
  /** Prefix of the message for a code the table does not know. */
  const SignInFailedPrefix := "登录失败："
  /** The weak-password message, with the minimum length 6 written into it. */
  const WeakPasswordMessage := "密码至少需要 6 位"

  /** The ten provider codes the page knows, with their messages. */
  const ErrorTable: map<string, string> := map[
    "auth/invalid-email" := "请输入有效的邮箱地址",
    "auth/user-disabled" := "该账号已被禁用",
    "auth/user-not-found" := "未找到该邮箱对应的账号，请先注册",
    "auth/wrong-password" := "密码错误",
    "auth/invalid-credential" := "邮箱或密码错误",
    "auth/email-already-in-use" := "该邮箱已被注册，请直接登录",
    "auth/weak-password" := WeakPasswordMessage,
    "auth/operation-not-allowed" := "当前未开放注册/登录，请联系管理员",
    "auth/too-many-requests" := "尝试次数过多，请稍后再试",
    "auth/network-request-failed" := "网络错误，请检查网络后重试"
  ]

  predicate StartsWith(s: string, prefix: string)
  {
    |prefix| <= |s| && s[..|prefix|] == prefix
  }

  /** No message of the table is empty, is the fill-in prompt or looks like a fallback message. */
  lemma TableMessagesAreDistinctive(code: string)
    requires code in ErrorTable
    ensures ErrorTable[code] != "" && ErrorTable[code] != FillInPrompt
    ensures !StartsWith(ErrorTable[code], SignInFailedPrefix)
  {
    var m := ErrorTable[code];
    assert m[0] != SignInFailedPrefix[0];
  }

  /**
   * The message for a provider error code: the table's message for a known
   * code, the sign-in-failed message carrying the code for any other code, and
   * the fill-in prompt when there is no code. The message is never empty, it
   * is the fill-in prompt exactly when there is no code, and it carries the
   * sign-in-failed prefix exactly when the code is unknown, with the code after it.
   */
  function AuthErrorMessage(code: string): (msg: string)
    ensures msg != ""
    ensures code in ErrorTable ==> msg == ErrorTable[code]
    ensures msg == FillInPrompt <==> code == ""
    ensures StartsWith(msg, SignInFailedPrefix) <==> code !in ErrorTable && code != ""
    ensures StartsWith(msg, SignInFailedPrefix) ==> msg[|SignInFailedPrefix|..] == code
  {
    if code in ErrorTable then
      TableMessagesAreDistinctive(code);
      ErrorTable[code]
    else if code != "" then
      var msg := SignInFailedPrefix + code;
      assert msg[0] != FillInPrompt[0];
      assert msg[..|SignInFailedPrefix|] == SignInFailedPrefix;
      msg
    else
      assert FillInPrompt[0] != SignInFailedPrefix[0];
      FillInPrompt
  }

  /** Recovers the code from the message shown for it; `None` for a text no code produces. */
  function CodeOf(msg: string): Option<string>
  {
    if msg == FillInPrompt then Some("")
    else if StartsWith(msg, SignInFailedPrefix) then Some(msg[|SignInFailedPrefix|..])
    else if msg == "请输入有效的邮箱地址" then Some("auth/invalid-email")
    else if msg == "该账号已被禁用" then Some("auth/user-disabled")
    else if msg == "未找到该邮箱对应的账号，请先注册" then Some("auth/user-not-found")
    else if msg == "密码错误" then Some("auth/wrong-password")
    else if msg == "邮箱或密码错误" then Some("auth/invalid-credential")
    else if msg == "该邮箱已被注册，请直接登录" then Some("auth/email-already-in-use")
    else if msg == WeakPasswordMessage then Some("auth/weak-password")
    else if msg == "当前未开放注册/登录，请联系管理员" then Some("auth/operation-not-allowed")
    else if msg == "尝试次数过多，请稍后再试" then Some("auth/too-many-requests")
    else if msg == "网络错误，请检查网络后重试" then Some("auth/network-request-failed")
    else None
  }

  /** Every code is recovered from its message, so different codes never show the same message. */
  lemma CodeOfAuthErrorMessage(code: string)
    ensures CodeOf(AuthErrorMessage(code)) == Some(code)
  {
  }

  /** Two codes that show the same message are the same code. */
  lemma AuthErrorMessageInjective(c1: string, c2: string)
    requires AuthErrorMessage(c1) == AuthErrorMessage(c2)
    ensures c1 == c2
  {
  }

  /** What the sign-in and sign-up handlers do with the two input values before calling the provider. */
  datatype Validation = Proceed(email: string, password: string) | Reject(message: string)

  /**
   * Both inputs are trimmed. An empty email or password is rejected with the
   * fill-in prompt; a password shorter than the minimum length (counted in
   * UTF-16 code units) with the weak-password message; otherwise the trimmed
   * values go on to the provider.
   */
  function Validate(emailInput: string, passwordInput: string): (v: Validation)
    ensures v.Reject? <==> Trim(emailInput) == "" || Utf16Length(Trim(passwordInput)) < MinPasswordLength
    ensures v.Proceed? ==> v.email == Trim(emailInput) && v.password == Trim(passwordInput)
    ensures v.Reject? && (Trim(emailInput) == "" || Trim(passwordInput) == "") ==>
              v.message == FillInPrompt == AuthErrorMessage("")
    ensures v.Reject? && Trim(emailInput) != "" && Trim(passwordInput) != "" ==>
              v.message == WeakPasswordMessage == AuthErrorMessage("auth/weak-password")
  {
    var email := Trim(emailInput);
    var password := Trim(passwordInput);
    if email == "" || password == "" then
      Reject(FillInPrompt)
    else if Utf16Length(password) < MinPasswordLength then
      Reject(AuthErrorMessage("auth/weak-password"))
    else
      Proceed(email, password)
  }

  /** The values passed on to the provider are already trimmed: trimming them again changes nothing. */
  lemma ProceedValuesAreTrimmed(emailInput: string, passwordInput: string)
    requires Validate(emailInput, passwordInput).Proceed?
    ensures var v := Validate(emailInput, passwordInput);
      Trim(v.email) == v.email && Trim(v.password) == v.password
  {
    TrimIdempotent(emailInput);
    TrimIdempotent(passwordInput);
  }
}
