/**
 * The sign-in form: two input fields, the sign-in and sign-up buttons and the
 * error line under them. A sign-in or sign-up attempt validates the inputs
 * locally, and only if they pass does it call the identity provider; while
 * that call is in flight both buttons are disabled and the pressed one shows a
 * busy label, and on every outcome both are re-enabled and the label restored.
 */
module AuthPanel {
  import opened Js
  import opened AuthMessages

  datatype AuthOp = SignIn | SignUp

  /** What the provider's call ends with: success, or a thrown error whose code may be missing (`""`). */
  datatype ProviderOutcome = Ok | Err(code: string)

  /** One call made to the provider, with the state both buttons were in while it was in flight. */
  datatype ProviderCall = ProviderCall(
    op: AuthOp, email: string, password: string,
    signinDisabled: bool, signupDisabled: bool, signinLabel: string, signupLabel: string)

  const SignInLabel := "登录"
  const SignUpLabel := "注册"

  function IdleLabel(op: AuthOp): string
  {
    match op
    case SignIn => SignInLabel
    case SignUp => SignUpLabel
  }

  function BusyLabel(op: AuthOp): string
  {
    match op
    case SignIn => "登录中..."
    case SignUp => "注册中..."
  }

  /** Shown when the page has no provider configured. */
  function NotConfiguredMessage(op: AuthOp): string
  {
    match op
    case SignIn => "登录服务未配置，请检查服务器环境变量或使用 ?guest=1 游客模式"
    case SignUp => "注册服务未配置，请检查服务器环境变量或使用 ?guest=1 游客模式"
  }

  class AuthForm {
    /** Whether the identity provider was initialised (`auth` is not null). */
    const configured: bool
    var emailValue: string
    var passwordValue: string
    var signinDisabled: bool
    var signupDisabled: bool
    var signinLabel: string
    var signupLabel: string
    /** Text of the error line; the line is visible exactly when it is not empty. */
    var authError: string
    /** The calls made to the provider, in order. */
    var calls: seq<ProviderCall>

    /** Both buttons enabled and showing their own labels. */
    predicate Idle()
      reads this
    {
      !signinDisabled && !signupDisabled && signinLabel == SignInLabel && signupLabel == SignUpLabel
    }

    function Label(op: AuthOp): string
      reads this
    {
      match op
      case SignIn => signinLabel
      case SignUp => signupLabel
    }

    constructor (configured: bool)
      ensures this.configured == configured && Idle()
      ensures emailValue == "" && passwordValue == "" && authError == "" && calls == []
    {
      this.configured := configured;
      emailValue, passwordValue := "", "";
      signinDisabled, signupDisabled := false, false;
      signinLabel, signupLabel := SignInLabel, SignUpLabel;
      authError := "";
      calls := [];
    }

    /**
     * The effect of one attempt `op` that the provider would answer with
     * `outcome`. Without a provider, or when validation rejects the inputs,
     * no call is made, the buttons are untouched and the error line says why.
     * Otherwise exactly one call is made with the trimmed inputs while both
     * buttons are disabled and the pressed one shows its busy label; afterwards
     * both are enabled again, the pressed one shows its idle label, the other
     * label is as it was, and the error line is empty on success or shows the
     * mapped message of the error's code.
     */
    twostate predicate AttemptDone(op: AuthOp, outcome: ProviderOutcome)
      reads this
    {
      var v := Validate(old(emailValue), old(passwordValue));
      && emailValue == old(emailValue) && passwordValue == old(passwordValue)
      && (!configured ==>
            && authError == NotConfiguredMessage(op) && calls == old(calls)
            && ButtonsUnchanged())
      && (configured && v.Reject? ==>
            && authError == v.message && calls == old(calls)
            && ButtonsUnchanged())
      && (configured && v.Proceed? ==>
            && calls == old(calls) + [ProviderCall(op, v.email, v.password, true, true,
                 if op == SignIn then BusyLabel(op) else old(signinLabel),
                 if op == SignUp then BusyLabel(op) else old(signupLabel))]
            && !signinDisabled && !signupDisabled
            && Label(op) == IdleLabel(op)
            && (op == SignIn ==> signupLabel == old(signupLabel))
            && (op == SignUp ==> signinLabel == old(signinLabel))
            && authError == (if outcome.Ok? then "" else AuthErrorMessage(outcome.code)))
    }

    twostate predicate ButtonsUnchanged()
      reads this
    {
      && signinDisabled == old(signinDisabled) && signupDisabled == old(signupDisabled)
      && signinLabel == old(signinLabel) && signupLabel == old(signupLabel)
    }

    method SetLabel(op: AuthOp, text: string)
      modifies this`signinLabel, this`signupLabel
      ensures Label(op) == text
      ensures op == SignIn ==> signupLabel == old(signupLabel)
      ensures op == SignUp ==> signinLabel == old(signinLabel)
    {
      match op
      case SignIn => signinLabel := text;
      case SignUp => signupLabel := text;
    }

    /** The body shared by the sign-in and sign-up handlers. */
    method Attempt(op: AuthOp, outcome: ProviderOutcome)
      modifies this`signinDisabled, this`signupDisabled, this`signinLabel, this`signupLabel
      modifies this`authError, this`calls
      ensures AttemptDone(op, outcome)
    {
      if !configured {
        authError := NotConfiguredMessage(op);
        return;
      }
      authError := "";
      var v := Validate(emailValue, passwordValue);
      if v.Reject? {
        authError := v.message;
        return;
      }
      CallProvider(op, v.email, v.password, outcome);
    }

    /** The part of a handler from disabling the buttons to the `finally` block. */
    method CallProvider(op: AuthOp, email: string, password: string, outcome: ProviderOutcome)
      modifies this`signinDisabled, this`signupDisabled, this`signinLabel, this`signupLabel
      modifies this`authError, this`calls
      ensures calls == old(calls) + [ProviderCall(op, email, password, true, true,
                 if op == SignIn then BusyLabel(op) else old(signinLabel),
                 if op == SignUp then BusyLabel(op) else old(signupLabel))]
      ensures !signinDisabled && !signupDisabled && Label(op) == IdleLabel(op)
      ensures op == SignIn ==> signupLabel == old(signupLabel)
      ensures op == SignUp ==> signinLabel == old(signinLabel)
      ensures authError == (if outcome.Ok? then "" else AuthErrorMessage(outcome.code))
    {
      signinDisabled := true;
      signupDisabled := true;
      SetLabel(op, BusyLabel(op));
      calls := calls + [ProviderCall(op, email, password,
                                     signinDisabled, signupDisabled, signinLabel, signupLabel)];
      match outcome {
        case Ok =>
          authError := "";
        case Err(code) =>
          authError := AuthErrorMessage(code);
      }
      signinDisabled := false;
      signupDisabled := false;
      SetLabel(op, IdleLabel(op));
    }

    /** The sign-in button's handler. */
    method DoSignIn(outcome: ProviderOutcome)
      modifies this`signinDisabled, this`signupDisabled, this`signinLabel, this`signupLabel
      modifies this`authError, this`calls
      ensures AttemptDone(SignIn, outcome)
      ensures old(Idle()) ==> Idle()
    {
      Attempt(SignIn, outcome);
    }

    /** The sign-up button's handler. */
    method DoSignUp(outcome: ProviderOutcome)
      modifies this`signinDisabled, this`signupDisabled, this`signinLabel, this`signupLabel
      modifies this`authError, this`calls
      ensures AttemptDone(SignUp, outcome)
      ensures old(Idle()) ==> Idle()
    {
      Attempt(SignUp, outcome);
    }
  }
}
