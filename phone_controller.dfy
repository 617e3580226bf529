/** The phone sign-in endpoints: sending a verification code, and signing in with a code,
    which signs up a new user when the phone is unknown and the provider allows it. The
    SMS, user and provider services are given as functions. */
module PhoneController {
  import opened Wrappers
  import opened Js
  import Response

  /** `SmsVerifyCodeType`: the purpose a verification code is checked for; the endpoints
      here use only sign-in and binding. */
  datatype CodeType = Signin | Bind | OtherPurpose

  /** `AuthBindingType`: how a provider wants a username bound at signup. */
  datatype BindingType = Required | Optional | NoBinding

  /** An authentication provider's settings: `register` as stored (compared strictly with
      `false`) and `bind.username`, absent when the binding object has no such field. */
  datatype Provider = Provider(register: Value, bindUsername: Option<BindingType>)

  datatype User = User(id: string)

  /** `PhoneSigninDto`. */
  datatype SigninDto = SigninDto(phone: string, code: string, username: Option<string>, password: Option<string>)

  /** The collaborators `signin` calls: code validation (an error message or null), the user
      lookup by phone, the phone provider, signup and token issue. */
  datatype Env = Env(
    validCode: (string, string, CodeType) -> Option<string>,
    userByPhone: string -> Option<User>,
    provider: Provider,
    signup: (SigninDto, bool) -> User,
    signin: User -> Value)

  /** `if (err)` on an error message that may be null: an empty message is no error. */
  predicate IsError(err: Option<string>) { err.Some? && err.value != "" }

  /** `!s` on an optional string field: missing or empty. */
  predicate Blank(s: Option<string>) { s.None? || s.value == "" }

  /** `sendCode`: the error the phone service reports, or `ok('success')`. */
  function SendCode(err: Option<string>): (r: Response.ResponseUtil<string>)
    ensures IsError(err) ==> r == Response.Error(err.value)
    ensures !IsError(err) ==> r == Response.Ok("success")
  {
    if IsError(err) then Response.Error(err.value) else Response.Ok("success")
  }

  /** What `signin` returns, and the signup it performed (with its username flag), if any. */
  datatype SigninOutcome = SigninOutcome(reply: Response.ResponseUtil<Value>, signedUp: Option<bool>)

  /** `signin(dto)`. */
  function SignIn(env: Env, dto: SigninDto): (r: SigninOutcome)
    ensures IsError(env.validCode(dto.phone, dto.code, Signin)) ==>
      r == SigninOutcome(Response.Error(env.validCode(dto.phone, dto.code, Signin).value), None)
  {
    var err := env.validCode(dto.phone, dto.code, Signin);
    if IsError(err) then SigninOutcome(Response.Error(err.value), None)
    else
      match env.userByPhone(dto.phone)
      case Some(user) => SigninOutcome(Response.Ok(env.signin(user)), None)
      case None =>
        var provider := env.provider;
        if provider.register == Bool(false) then
          SigninOutcome(Response.Error("register is not allowed"), None)
        else
          var signupWithUsername := provider.bindUsername == Some(Required);
          if signupWithUsername && (Blank(dto.username) || Blank(dto.password)) then
            SigninOutcome(Response.Error("username and password is required"), None)
          else
            var newUser := env.signup(dto, signupWithUsername);
            SigninOutcome(Response.Ok(env.signin(newUser)), Some(signupWithUsername))
  }

  // ---------------------------------------------------------------------------
  // Properties

  /** A rejected code is reported before anything else: the outcome depends on nothing but
      the validation, so no lookup, provider or signup can change it. */
  lemma CodeErrorFirst(env: Env, other: Env, dto: SigninDto)
    requires IsError(env.validCode(dto.phone, dto.code, Signin))
    requires other.validCode == env.validCode
    ensures SignIn(env, dto) == SignIn(other, dto)
    ensures SignIn(env, dto).reply.error.Some? && SignIn(env, dto).signedUp.None?
  {
  }

  /** The code is validated for the sign-in purpose: only its verdict for (phone, code,
      Signin) matters. */
  lemma ValidatedForSignin(env: Env, dto: SigninDto, validCode: (string, string, CodeType) -> Option<string>)
    requires validCode(dto.phone, dto.code, Signin) == env.validCode(dto.phone, dto.code, Signin)
    ensures SignIn(env.(validCode := validCode), dto) == SignIn(env, dto)
  {
  }

  /** A known phone signs in its user without signup, whatever the provider says. */
  lemma ExistingUserSignsIn(env: Env, dto: SigninDto, provider: Provider)
    requires !IsError(env.validCode(dto.phone, dto.code, Signin))
    requires env.userByPhone(dto.phone).Some?
    ensures SignIn(env, dto) == SigninOutcome(Response.Ok(env.signin(env.userByPhone(dto.phone).value)), None)
    ensures SignIn(env.(provider := provider), dto) == SignIn(env, dto)
  {
  }

  /** For an unknown phone, registration is refused exactly when the provider's `register`
      is the boolean false; a missing, null or zero setting does not refuse it. */
  lemma RegisterRefusedIff(env: Env, dto: SigninDto)
    requires !IsError(env.validCode(dto.phone, dto.code, Signin)) && env.userByPhone(dto.phone).None?
    ensures SignIn(env, dto).reply == Response.Error("register is not allowed") <==> env.provider.register == Bool(false)
  {
  }

  /** When the provider requires a username, a missing or empty username or password is an
      error and nobody is signed up. */
  lemma UsernameRequired(env: Env, dto: SigninDto)
    requires !IsError(env.validCode(dto.phone, dto.code, Signin)) && env.userByPhone(dto.phone).None?
    requires env.provider.register != Bool(false) && env.provider.bindUsername == Some(Required)
    requires Blank(dto.username) || Blank(dto.password)
    ensures SignIn(env, dto) == SigninOutcome(Response.Error("username and password is required"), None)
  {
  }

  /** A signup happens exactly on the last path; it asks for a username exactly when the
      provider requires one, and the reply is the new user's sign-in. */
  lemma SignupRule(env: Env, dto: SigninDto)
    ensures SignIn(env, dto).signedUp.Some? <==>
      && !IsError(env.validCode(dto.phone, dto.code, Signin))
      && env.userByPhone(dto.phone).None?
      && env.provider.register != Bool(false)
      && !(env.provider.bindUsername == Some(Required) && (Blank(dto.username) || Blank(dto.password)))
    ensures SignIn(env, dto).signedUp.Some? ==>
      && (SignIn(env, dto).signedUp.value <==> env.provider.bindUsername == Some(Required))
      && SignIn(env, dto).reply == Response.Ok(env.signin(env.signup(dto, SignIn(env, dto).signedUp.value)))
  {
  }

  /** An empty error message from the SMS service counts as success. */
  lemma EmptyErrorIsSuccess()
    ensures SendCode(Some("")) == Response.Ok("success")
  {
  }
}
