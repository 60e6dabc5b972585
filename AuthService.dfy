/** The login decision of the auth server (service/auth_server.go). The user
    store lookup, the password check and token generation are given as their
    outcomes. */
module AuthService {
  import opened Base
  import opened Grpc
  import opened UserRecord

  datatype LoginRequest = LoginRequest(username: string, password: string)

  /** The answer to a login, and the user (if any) a token was asked for. */
  datatype LoginOutcome = LoginOutcome(response: Result<string, Status>, tokenRequestedFor: Option<User>)

  /** The one error for both an unknown user and a wrong password. */
  const IncorrectCredentials: Status := Status(NotFound, "incorrect username/password")

  /** Login. `found` is the outcome of userStore.Find(req.username) (none for an
      unknown user); `matches` is the bcrypt comparison; `generate(u)` is what
      jwtManager.Generate(u) returns. */
  function Login<FindErr, TokenErr>(req: LoginRequest, found: Result<Option<User>, FindErr>,
                                    matches: (string, string) -> bool,
                                    generate: User -> Result<string, TokenErr>): (out: LoginOutcome)
    ensures out.tokenRequestedFor.Some? ==>
      found == Success(out.tokenRequestedFor) && out.tokenRequestedFor.value.IsCorrectPassword(req.password, matches)
    ensures out.response.Success? ==>
      out.tokenRequestedFor.Some? && generate(out.tokenRequestedFor.value) == Success(out.response.value)
  {
    match found
    case Failure(_) => LoginOutcome(Failure(Status(Internal, "cannot find user")), None)
    case Success(user) =>
      if user.None? || !user.value.IsCorrectPassword(req.password, matches) then
        LoginOutcome(Failure(IncorrectCredentials), None)
      else
        match generate(user.value)
        case Failure(_) => LoginOutcome(Failure(Status(Internal, "unable to generate access token")), Some(user.value))
        case Success(token) => LoginOutcome(Success(token), Some(user.value))
  }

  /** A failed lookup is an Internal error and no token is asked for. */
  lemma LoginLookupFailure<FindErr, TokenErr>(req: LoginRequest, e: FindErr, matches: (string, string) -> bool,
                                              generate: User -> Result<string, TokenErr>)
    ensures Login(req, Failure(e), matches, generate) == LoginOutcome(Failure(Status(Internal, "cannot find user")), None)
  {
  }

  /** An unknown username and a wrong password give the very same outcome: the
      error does not tell whether the user exists. */
  lemma LoginNoExistenceLeak<FindErr, TokenErr>(req: LoginRequest, user: User, matches: (string, string) -> bool,
                                                generate: User -> Result<string, TokenErr>)
    requires !user.IsCorrectPassword(req.password, matches)
    ensures Login<FindErr, TokenErr>(req, Success(None), matches, generate)
         == Login<FindErr, TokenErr>(req, Success(Some(user)), matches, generate)
         == LoginOutcome(Failure(IncorrectCredentials), None)
  {
  }

  /** Login succeeds exactly for a found user with the right password whose token
      could be generated, and then returns that token; a generation failure is Internal. */
  lemma LoginSucceedsIff<FindErr, TokenErr>(req: LoginRequest, found: Result<Option<User>, FindErr>,
                                            matches: (string, string) -> bool,
                                            generate: User -> Result<string, TokenErr>)
    ensures var out := Login(req, found, matches, generate);
      out.response.Success? <==>
        (found.Success? && found.value.Some? && found.value.value.IsCorrectPassword(req.password, matches)
         && generate(found.value.value).Success?)
    ensures var out := Login(req, found, matches, generate);
      found.Success? && found.value.Some? && found.value.value.IsCorrectPassword(req.password, matches) ==>
        match generate(found.value.value)
        case Success(token) => out.response == Success(token)
        case Failure(_) => out.response == Failure(Status(Internal, "unable to generate access token"))
  {
  }
}
