/** The sign-in / sign-up form: the three-step sign-up wizard, field updates, and what a submit sends. */
module AuthForm {
  import opened Wrappers
  import opened FormFields

  const SIGN_IN_ENDPOINT := "/api/auth/signin"
  const SIGN_UP_ENDPOINT := "/api/auth/signup"
  const GENERIC_ERROR := "An error occurred"
  const FIRST_STEP := 1
  const LAST_STEP := 3

  const TOP_FIELDS: seq<string> := ["email", "password", "firstName", "lastName", "dateOfBirth", "phoneNumber",
                                     "occupation", "company", "bio", "securityQuestion", "securityAnswer"]
  const ADDRESS_KEYS: seq<string> := ["street", "city", "state", "zipCode", "country"]

  /** The initial `formData`: every field empty. */
  function EmptyForm(): (f: Fields)
    ensures "email" in f.top && "password" in f.top
  {
    Fields(map k | k in TOP_FIELDS :: "", map k | k in ADDRESS_KEYS :: "")
  }

  /** The request body: only e-mail and password when signing in, the whole form when signing up. */
  datatype Payload = SignIn(email: string, password: string) | SignUp(form: Fields)

  /** The server's answer: its `ok` flag, message and token, or a thrown error. */
  datatype AuthReply = Answered(ok: bool, message: string, token: Option<string>) | Thrown(message: string)

  /** A token logs the user in at once; a sign-in without one moves on to the security question. */
  datatype Outcome = LoggedIn(token: string) | ChallengeNeeded | Failed

  class AuthFormState {
    var isLogin: bool
    var formData: Fields
    var error: string
    var currentStep: int

    ghost predicate Valid()
      reads this
    {
      FIRST_STEP <= currentStep <= LAST_STEP && "email" in formData.top && "password" in formData.top
    }

    constructor ()
      ensures Valid() && isLogin && formData == EmptyForm() && error == "" && currentStep == FIRST_STEP
    {
      isLogin := true;
      formData := EmptyForm();
      error := "";
      currentStep := FIRST_STEP;
    }

    /** `handleInputChange`. */
    method HandleInputChange(field: string, value: string)
      requires Valid() && field != "address"
      modifies this`formData
      ensures Valid()
      ensures Get(formData, PathOf(field)) == Some(value)
      ensures forall p: Path :: p != PathOf(field) ==> Get(formData, p) == Get(old(formData), p)
    {
      formData := SetField(formData, field, value);
      assert Get(formData, Top("email")).Some? && Get(formData, Top("password")).Some?;
    }

    /** `nextStep`: forward one step, never past the last. */
    method NextStep()
      requires Valid()
      modifies this`currentStep
      ensures Valid()
      ensures old(currentStep) < LAST_STEP ==> currentStep == old(currentStep) + 1
      ensures old(currentStep) == LAST_STEP ==> currentStep == LAST_STEP
    {
      if currentStep < LAST_STEP {
        currentStep := currentStep + 1;
      }
    }

    /** `prevStep`: back one step, never before the first. */
    method PrevStep()
      requires Valid()
      modifies this`currentStep
      ensures Valid()
      ensures old(currentStep) > FIRST_STEP ==> currentStep == old(currentStep) - 1
      ensures old(currentStep) == FIRST_STEP ==> currentStep == FIRST_STEP
    {
      if currentStep > FIRST_STEP {
        currentStep := currentStep - 1;
      }
    }

    /** The link under the form: switch between signing in and up, back at step one, error cleared. */
    method ToggleMode()
      requires Valid()
      modifies this`isLogin, this`currentStep, this`error
      ensures Valid()
      ensures isLogin == !old(isLogin) && currentStep == FIRST_STEP && error == ""
    {
      isLogin := !isLogin;
      currentStep := FIRST_STEP;
      error := "";
    }

    /**
     * `handleSubmit`: the endpoint and body follow the mode; an accepted reply either logs in
     * (a token came back) or asks for the security question; anything else sets the error.
     */
    method HandleSubmit(reply: AuthReply) returns (endpoint: string, payload: Payload, outcome: Outcome)
      requires Valid()
      modifies this`error
      ensures Valid()
      ensures isLogin ==> endpoint == SIGN_IN_ENDPOINT && payload == SignIn(formData.top["email"], formData.top["password"])
      ensures !isLogin ==> endpoint == SIGN_UP_ENDPOINT && payload == SignUp(formData)
      ensures reply.Answered? && reply.ok && Truthy(reply.token) ==> outcome == LoggedIn(reply.token.value) && error == ""
      ensures reply.Answered? && reply.ok && !Truthy(reply.token) ==> outcome == ChallengeNeeded && error == ""
      ensures !(reply.Answered? && reply.ok) ==>
        outcome == Failed && error == (if reply.message == "" then GENERIC_ERROR else reply.message)
    {
      error := "";
      endpoint := if isLogin then SIGN_IN_ENDPOINT else SIGN_UP_ENDPOINT;
      payload := if isLogin then SignIn(formData.top["email"], formData.top["password"]) else SignUp(formData);
      if reply.Answered? && reply.ok {
        outcome := if Truthy(reply.token) then LoggedIn(reply.token.value) else ChallengeNeeded;
      } else {
        outcome := Failed;
        error := if reply.message == "" then GENERIC_ERROR else reply.message;
      }
    }
  }
}
