/** The account-binding endpoints of the authenticated user (bind a phone, bind a
    username) and the exchange of a personal access token for a session token. The SMS
    and user services are given as functions; the one update they may cause is returned. */
module AuthenticationController {
  import opened Wrappers
  import opened Js
  import Response
  import opened PhoneController

  /** The single-field update `updateUser` is asked to apply to a user. */
  datatype UserUpdate = SetPhone(phone: string) | SetUsername(username: string)

  /** The collaborators: code validation (an error message or null) and the lookup of an
      account by username, phone or email. */
  datatype Env = Env(
    validateCode: (string, string, CodeType) -> Option<string>,
    findOneByUsernameOrPhoneOrEmail: string -> Option<User>)

  /** What a bind endpoint returns (None for a handler that returns nothing) and the update
      it performed on which user, if any. */
  datatype BindOutcome = BindOutcome(reply: Option<Response.ResponseUtil<Value>>, update: Option<(string, UserUpdate)>)

  /** `bindPhone(dto, req)` for the user `userId`. */
  function BindPhone(env: Env, userId: string, phone: string, code: string): (r: BindOutcome)
    ensures r.update.Some? <==>
      !IsError(env.validateCode(phone, code, Bind)) && env.findOneByUsernameOrPhoneOrEmail(phone).None?
    ensures r.update.Some? ==> r.update.value == (userId, SetPhone(phone)) && r.reply.None?
    ensures IsError(env.validateCode(phone, code, Bind)) ==>
      r.reply == Some(Response.Error(env.validateCode(phone, code, Bind).value))
    ensures !IsError(env.validateCode(phone, code, Bind)) && env.findOneByUsernameOrPhoneOrEmail(phone).Some? ==>
      r.reply == Some(Response.Error("phone already been bound"))
  {
    var err := env.validateCode(phone, code, Bind);
    if IsError(err) then BindOutcome(Some(Response.Error(err.value)), None)
    else if env.findOneByUsernameOrPhoneOrEmail(phone).Some? then
      BindOutcome(Some(Response.Error("phone already been bound")), None)
    else BindOutcome(None, Some((userId, SetPhone(phone))))
  }

  /** `bindUsername(dto, req)` for the user `userId`: the code is checked against the phone,
      the uniqueness against the username. */
  function BindUsername(env: Env, userId: string, username: string, phone: string, code: string): (r: BindOutcome)
    ensures r.update.Some? <==>
      !IsError(env.validateCode(phone, code, Bind)) && env.findOneByUsernameOrPhoneOrEmail(username).None?
    ensures r.update.Some? ==> r.update.value == (userId, SetUsername(username)) && r.reply.None?
    ensures IsError(env.validateCode(phone, code, Bind)) ==>
      r.reply == Some(Response.Error(env.validateCode(phone, code, Bind).value))
    ensures !IsError(env.validateCode(phone, code, Bind)) && env.findOneByUsernameOrPhoneOrEmail(username).Some? ==>
      r.reply == Some(Response.Error("username already been bound"))
  {
    var err := env.validateCode(phone, code, Bind);
    if IsError(err) then BindOutcome(Some(Response.Error(err.value)), None)
    else if env.findOneByUsernameOrPhoneOrEmail(username).Some? then
      BindOutcome(Some(Response.Error("username already been bound")), None)
    else BindOutcome(None, Some((userId, SetUsername(username))))
  }

  /** `pat2token(dto)`, given the token the service derived from the PAT (null or a string). */
  function Pat2Token(token: Option<string>): (r: Response.ResponseUtil<string>)
    ensures r.error.Some? <==> token.None? || token.value == ""
    ensures r.error.Some? ==> r == Response.Error("invalid pat")
    ensures r.error.None? ==> r == Response.Ok(token.value)
  {
    if token.None? || token.value == "" then Response.Error("invalid pat") else Response.Ok(token.value)
  }

  // ---------------------------------------------------------------------------
  // Properties

  /** A rejected code stops both bind endpoints before the lookup: their outcome does not
      depend on which accounts exist. */
  lemma CodeErrorStopsBinding(env: Env, lookup: string -> Option<User>, userId: string, username: string, phone: string, code: string)
    requires IsError(env.validateCode(phone, code, Bind))
    ensures BindPhone(env, userId, phone, code) == BindPhone(env.(findOneByUsernameOrPhoneOrEmail := lookup), userId, phone, code)
    ensures BindUsername(env, userId, username, phone, code)
      == BindUsername(env.(findOneByUsernameOrPhoneOrEmail := lookup), userId, username, phone, code)
    ensures BindPhone(env, userId, phone, code).update.None? && BindUsername(env, userId, username, phone, code).update.None?
  {
  }

  /** `bindUsername` looks up the username, never the phone: two services that agree on the
      username's account give the same outcome, whoever owns the phone. */
  lemma BindUsernameLooksUpUsername(env: Env, lookup: string -> Option<User>, userId: string, username: string, phone: string, code: string)
    requires lookup(username) == env.findOneByUsernameOrPhoneOrEmail(username)
    ensures BindUsername(env.(findOneByUsernameOrPhoneOrEmail := lookup), userId, username, phone, code)
      == BindUsername(env, userId, username, phone, code)
  {
  }

  /** Both bind endpoints validate the code for the Bind purpose against the phone number:
      only that verdict matters. */
  lemma BindValidatesPhoneCode(env: Env, validate: (string, string, CodeType) -> Option<string>, userId: string, username: string, phone: string, code: string)
    requires validate(phone, code, Bind) == env.validateCode(phone, code, Bind)
    ensures BindPhone(env.(validateCode := validate), userId, phone, code) == BindPhone(env, userId, phone, code)
    ensures BindUsername(env.(validateCode := validate), userId, username, phone, code)
      == BindUsername(env, userId, username, phone, code)
  {
  }
}
