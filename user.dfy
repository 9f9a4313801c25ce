/**
 * The user handlers of core/user.go: logging in for a token, and resolving a
 * token to the caller's role. As with the book handlers, the decoded body is
 * an input and each data-layer call is a function the handler is given.
 */
module Users {
  import opened Wrappers
  import opened Errors
  import opened Text
  import opened Values
  import Books

  datatype LoginRequest = LoginRequest(username: string, password: string)

  predicate CredentialsPresent(q: LoginRequest)
  {
    TrimSpace(q.username) != "" && TrimSpace(q.password) != ""
  }

  /**
   * `login`: both fields trimmed and required; a failed lookup and an
   * unknown user (no token) are both answered as invalid credentials.
   */
  function Login(decoded: Result<LoginRequest, Error>, loginUser: (string, string) -> Result<string, Error>)
    : (r: Result<string, Error>)
    ensures decoded.Failure? ==>
      r == Failure(NewError("Failed to decode JSON", ErrorCodeInvalidJSONBody, Books.BadRequestType, Some(decoded.error)))
    ensures decoded.Success? && !CredentialsPresent(decoded.value) ==>
      r == Failure(NewError("Username or password are empty", ErrorCodeValidation, Books.BadRequestType, None))
    ensures decoded.Success? && CredentialsPresent(decoded.value) ==>
      var res := loginUser(TrimSpace(decoded.value.username), TrimSpace(decoded.value.password));
      && (res.Failure? ==> r == Failure(NewError("Failed to login user", ErrorCodeInvalidCredentials,
                                                 Some(SentinelError(NotAuthenticated)), Some(res.error))))
      && (res == Success("") ==> r == Failure(NewError("Invalid username or password", ErrorCodeInvalidCredentials,
                                                       Some(SentinelError(NotAuthenticated)), None)))
      && (res.Success? && res.value != "" ==> r == res)
    ensures r.Success? ==> r.value != ""
  {
    match decoded
    case Failure(e) =>
      Failure(NewError("Failed to decode JSON", ErrorCodeInvalidJSONBody, Books.BadRequestType, Some(e)))
    case Success(q) =>
      var username := TrimSpace(q.username);
      var password := TrimSpace(q.password);
      if username == "" || password == "" then
        Failure(NewError("Username or password are empty", ErrorCodeValidation, Books.BadRequestType, None))
      else
        match loginUser(username, password)
        case Failure(e) =>
          Failure(NewError("Failed to login user", ErrorCodeInvalidCredentials, Some(SentinelError(NotAuthenticated)), Some(e)))
        case Success(token) =>
          if token == "" then
            Failure(NewError("Invalid username or password", ErrorCodeInvalidCredentials,
                             Some(SentinelError(NotAuthenticated)), None))
          else
            Success(token)
  }

  /** A login fails only as a bad request (400) or as not authenticated (401), never as an internal error. */
  lemma LoginStatus(decoded: Result<LoginRequest, Error>, loginUser: (string, string) -> Result<string, Error>)
    ensures var r := Login(decoded, loginUser);
      r.Failure? ==>
        && Books.StatusOf(r.error) in {StatusBadRequest, StatusUnauthorized}
        && (Books.StatusOf(r.error) == StatusUnauthorized <==> decoded.Success? && CredentialsPresent(decoded.value))
  {
  }

  /** Padding around the credentials does not matter: they are trimmed once before the lookup. */
  lemma LoginTrims(q: LoginRequest, loginUser: (string, string) -> Result<string, Error>)
    ensures Login(Success(q), loginUser)
            == Login(Success(LoginRequest(TrimSpace(q.username), TrimSpace(q.password))), loginUser)
  {
    TrimSpaceIdempotent(q.username);
    TrimSpaceIdempotent(q.password);
  }

  /** `authorizeUser`: the role of a token, which must be non-empty once trimmed and belong to a user. */
  function AuthorizeUser(token: string, authorize: string -> Result<int, Error>): (r: Result<int, Error>)
    ensures TrimSpace(token) == "" ==>
      r == Failure(NewError("Invalid value for token parameter", ErrorCodeValidation, Books.BadRequestType, None))
    ensures TrimSpace(token) != "" && authorize(TrimSpace(token)).Failure? ==>
      r == Failure(NewError("Failed to authorize user", ErrorCodeInternal, Books.InternalType,
                            Some(authorize(TrimSpace(token)).error)))
    ensures TrimSpace(token) != "" && authorize(TrimSpace(token)) == Success(UserRoleUnknown) ==>
      r == Failure(NewError("User not found", ErrorCodeEntityNotFound, Books.NotFoundType, None))
    ensures r.Success? <==> TrimSpace(token) != "" && authorize(TrimSpace(token)).Success?
                            && authorize(TrimSpace(token)).value != UserRoleUnknown
    ensures r.Success? ==> r == authorize(TrimSpace(token)) && r.value != UserRoleUnknown
  {
    var t := TrimSpace(token);
    if t == "" then
      Failure(NewError("Invalid value for token parameter", ErrorCodeValidation, Books.BadRequestType, None))
    else
      match authorize(t)
      case Failure(e) => Failure(NewError("Failed to authorize user", ErrorCodeInternal, Books.InternalType, Some(e)))
      case Success(userRole) =>
        if userRole == UserRoleUnknown then
          Failure(NewError("User not found", ErrorCodeEntityNotFound, Books.NotFoundType, None))
        else
          Success(userRole)
  }

  /** An unknown token is answered 404, a failed lookup 500 and a blank token 400. */
  lemma AuthorizeUserStatus(token: string, authorize: string -> Result<int, Error>)
    ensures var r := AuthorizeUser(token, authorize);
      r.Failure? ==>
        && (Books.StatusOf(r.error) == StatusBadRequest <==> TrimSpace(token) == "")
        && (Books.StatusOf(r.error) == StatusNotFound <==>
              TrimSpace(token) != "" && authorize(TrimSpace(token)) == Success(UserRoleUnknown))
        && (Books.StatusOf(r.error) == StatusInternalServerError <==>
              TrimSpace(token) != "" && authorize(TrimSpace(token)).Failure?)
  {
  }
}
