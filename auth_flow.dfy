/** The screen sequence of signing in: form, optional forgot-password, then the security question. */
module AuthFlow {
  import opened Wrappers

  datatype Step = Auth | Security | ForgotPassword

  datatype SecurityData = SecurityData(userId: string, securityQuestion: string, isForgotPassword: bool)

  /** What the sign-in form or the forgot-password form hands over. */
  datatype AuthData = AuthData(token: Option<string>, userId: string, securityQuestion: string)

  class Flow {
    var step: Step
    var securityData: Option<SecurityData>

    /** The security-question screen always has its data, and no other screen keeps any. */
    ghost predicate Valid()
      reads this
    {
      step == Security <==> securityData.Some?
    }

    constructor ()
      ensures Valid() && step == Auth && securityData.None?
    {
      step := Auth;
      securityData := None;
    }

    /** `handleAuthSuccess`, called by the sign-in form: a token needs nothing more; otherwise the security question follows. */
    method HandleAuthSuccess(data: AuthData)
      requires Valid() && step == Auth
      modifies this
      ensures Valid()
      ensures Truthy(data.token) ==> step == Auth && securityData.None?
      ensures !Truthy(data.token) ==>
        step == Security && securityData == Some(SecurityData(data.userId, data.securityQuestion, false))
    {
      if Truthy(data.token) {
        return;
      }
      securityData := Some(SecurityData(data.userId, data.securityQuestion, false));
      step := Security;
    }

    /** `handleForgotPassword`, the sign-in form's link. */
    method HandleForgotPassword()
      requires Valid() && step == Auth
      modifies this`step
      ensures Valid() && step == ForgotPassword
    {
      step := ForgotPassword;
    }

    /** `handleForgotPasswordSuccess`: the security question follows, marked as a password reset. */
    method HandleForgotPasswordSuccess(data: AuthData)
      requires Valid() && step == ForgotPassword
      modifies this
      ensures Valid() && step == Security
      ensures securityData == Some(SecurityData(data.userId, data.securityQuestion, true))
    {
      securityData := Some(SecurityData(data.userId, data.securityQuestion, true));
      step := Security;
    }

    /** `handleBackToAuth`: back to the form, forgetting the security data. */
    method HandleBackToAuth()
      requires Valid()
      modifies this
      ensures Valid() && step == Auth && securityData.None?
    {
      step := Auth;
      securityData := None;
    }
  }
}
