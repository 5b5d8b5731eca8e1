/** routes/authRouter.ts: the validation chains in front of each account
    handler, and `authenticate` in front of the two that act for the
    signed-in user. Every chain records its errors; `handleInputErrors`
    then answers 400 with all of them, and only a request without errors
    reaches the controller. `isEmail` is a predicate the model does not
    look into. */
module AuthRouter {
  import opened Common
  import opened Http
  import opened Validation
  import opened RequestContext
  import AuthController

  datatype Endpoint =
    | CreateAccount               // POST /create-account
    | ConfirmAccount              // POST /confirm-account
    | Login                       // POST /login
    | ForgotPassword              // POST /forgot-password
    | ValidateToken               // POST /validate-token
    | ResetPassword(token: string) // POST /reset-password/:token
    | UpdatePassword              // POST /update-password
    | CheckPassword               // POST /check-password
  {
    /** The routes that run `authenticate` first. */
    predicate NeedsCaller() {
      UpdatePassword? || CheckPassword?
    }
  }

  /** The body fields the account routes read. `confirmed` is passed on to
      `User.create` with the rest of the body. */
  datatype AuthBody = AuthBody(
    name: Option<string>,
    email: Option<string>,
    password: Option<string>,
    currentPassword: Option<string>,
    token: Option<string>,
    confirmed: Option<bool>)

  datatype AuthRequest = AuthRequest(caller: Option<int>, endpoint: Endpoint, body: AuthBody)

  /** `create-account`: three independent checks, one error each. */
  function CreateAccountErrors(b: AuthBody, isEmail: string -> bool): (r: seq<FieldError>)
    ensures |r| == (if NotEmpty(b.name) then 0 else 1)
                 + (if LengthAtLeast(b.password, 8) then 0 else 1)
                 + (if isEmail(Submitted(b.email)) then 0 else 1)
    ensures r == [] <==> NotEmpty(b.name) && LengthAtLeast(b.password, 8) && isEmail(Submitted(b.email))
  {
    Rule(NotEmpty(b.name), InBody, "name", "Name is required")
    + Rule(LengthAtLeast(b.password, 8), InBody, "password", "Password must be at least 8 characters long")
    + Rule(isEmail(Submitted(b.email)), InBody, "email", "Invalid email address")
  }

  /** `confirm-account`: a token of exactly six characters, or the single
      error "Invalid token format". */
  function ConfirmAccountErrors(b: AuthBody): (r: seq<FieldError>)
    ensures r == [] <==> |Submitted(b.token)| == 6
    ensures r != [] ==> r == [FieldError(InBody, "token", "Invalid token format")]
  {
    Rule(LengthWithin(b.token, 6, 6), InBody, "token", "Invalid token format")
  }

  /** `login`: a valid email and a non-empty password. */
  function LoginErrors(b: AuthBody, isEmail: string -> bool): (r: seq<FieldError>)
    ensures |r| == (if isEmail(Submitted(b.email)) then 0 else 1) + (if NotEmpty(b.password) then 0 else 1)
  {
    Rule(isEmail(Submitted(b.email)), InBody, "email", "Invalid email address")
    + Rule(NotEmpty(b.password), InBody, "password", "Password is required")
  }

  /** `forgot-password`: a valid email. */
  function ForgotPasswordErrors(b: AuthBody, isEmail: string -> bool): (r: seq<FieldError>)
    ensures r == [] <==> isEmail(Submitted(b.email))
  {
    Rule(isEmail(Submitted(b.email)), InBody, "email", "Invalid email address")
  }

  /** `notEmpty()` then `isLength({ min: 6, max: 6 })` on a token, without
      `bail`: an empty token fails both. */
  function TokenErrors(location: Location, token: string): (r: seq<FieldError>)
    ensures |r| == if |token| == 0 then 2 else if |token| == 6 then 0 else 1
    ensures forall e :: e in r ==> e.location == location && e.path == "token"
  {
    Rule(NotEmpty(Some(token)), location, "token", "Token is required")
    + Rule(LengthWithin(Some(token), 6, 6), location, "token", "Token must be 6 characters long")
  }

  /** `validate-token`: the token chain on the body's token. */
  function ValidateTokenErrors(b: AuthBody): (r: seq<FieldError>)
    ensures r == [] <==> |Submitted(b.token)| == 6
  {
    TokenErrors(InBody, Submitted(b.token))
  }

  /** `reset-password/:token`: the token chain on the path segment, and a
      new password of at least eight characters. */
  function ResetPasswordErrors(token: string, b: AuthBody): (r: seq<FieldError>)
    ensures r == [] <==> |token| == 6 && LengthAtLeast(b.password, 8)
    ensures |r| == |TokenErrors(InParams, token)| + (if LengthAtLeast(b.password, 8) then 0 else 1)
  {
    TokenErrors(InParams, token)
    + Rule(LengthAtLeast(b.password, 8), InBody, "password", "Password must be at least 8 characters long")
  }

  /** `update-password`: the current password and a new one of at least
      eight characters. */
  function UpdatePasswordErrors(b: AuthBody): (r: seq<FieldError>)
    ensures r == [] <==> NotEmpty(b.currentPassword) && LengthAtLeast(b.password, 8)
  {
    Rule(NotEmpty(b.currentPassword), InBody, "current_password", "Current password is required")
    + Rule(LengthAtLeast(b.password, 8), InBody, "password", "New password must be at least 8 characters long")
  }

  /** `check-password`: a non-empty password. */
  function CheckPasswordErrors(b: AuthBody): (r: seq<FieldError>)
    ensures r == [] <==> NotEmpty(b.password)
  {
    Rule(NotEmpty(b.password), InBody, "password", "Current password is required")
  }

  /** The errors the endpoint's chain records for this request. */
  function RouteErrors(endpoint: Endpoint, b: AuthBody, isEmail: string -> bool): seq<FieldError> {
    match endpoint
    case CreateAccount => CreateAccountErrors(b, isEmail)
    case ConfirmAccount => ConfirmAccountErrors(b)
    case Login => LoginErrors(b, isEmail)
    case ForgotPassword => ForgotPasswordErrors(b, isEmail)
    case ValidateToken => ValidateTokenErrors(b)
    case ResetPassword(token) => ResetPasswordErrors(token, b)
    case UpdatePassword => UpdatePasswordErrors(b)
    case CheckPassword => CheckPasswordErrors(b)
  }

  /** An empty body draws one error per field on `create-account` and on
      `login`, since `isEmail` rejects the empty text. */
  lemma EmptyBodyErrors(isEmail: string -> bool)
    requires !isEmail("")
    ensures |CreateAccountErrors(AuthBody(None, None, None, None, None, None), isEmail)| == 3
    ensures |LoginErrors(AuthBody(None, None, None, None, None, None), isEmail)| == 2
  {
  }

  /** One bad field on `create-account` yields exactly its own error. */
  lemma CreateAccountSingleError(b: AuthBody, isEmail: string -> bool)
    requires NotEmpty(b.name)
    ensures isEmail(Submitted(b.email)) && !LengthAtLeast(b.password, 8) ==>
              CreateAccountErrors(b, isEmail) == [FieldError(InBody, "password", "Password must be at least 8 characters long")]
    ensures !isEmail(Submitted(b.email)) && LengthAtLeast(b.password, 8) ==>
              CreateAccountErrors(b, isEmail) == [FieldError(InBody, "email", "Invalid email address")]
  {
  }

  /** How one request may change the users table: at most one row is
      added, by `create-account`, with the given `confirmed` flag; no
      existing account becomes confirmed except through `confirm-account`. */
  ghost predicate Evolves(before: seq<AuthController.User>, after: seq<AuthController.User>, endpoint: Endpoint, newConfirmed: bool) {
    && (|after| == |before| || |after| == |before| + 1)
    && (forall i :: 0 <= i < |before| && !before[i].confirmed && after[i].confirmed ==> endpoint.ConfirmAccount?)
    && (|after| == |before| + 1 ==>
          && endpoint.CreateAccount?
          && after[..|before|] == before
          && after[|before|].confirmed == newConfirmed)
  }

  lemma UnchangedEvolves(us: seq<AuthController.User>, endpoint: Endpoint, newConfirmed: bool)
    ensures Evolves(us, us, endpoint, newConfirmed)
  {
  }

  /** A handler that leaves every account as confirmed as it was. */
  lemma SameConfirmationEvolves(before: seq<AuthController.User>, after: seq<AuthController.User>, endpoint: Endpoint,
                                newConfirmed: bool)
    requires AuthController.SameConfirmation(before, after)
    ensures Evolves(before, after, endpoint, newConfirmed)
  {
  }

  /** `confirm-account` keeps the number of accounts. */
  lemma ConfirmEvolves(before: seq<AuthController.User>, after: seq<AuthController.User>, newConfirmed: bool)
    requires |after| == |before|
    ensures Evolves(before, after, ConfirmAccount, newConfirmed)
  {
  }

  /** `create-account` adds at most the one account. */
  lemma CreateEvolves(before: seq<AuthController.User>, after: seq<AuthController.User>, u: AuthController.User)
    requires after == before || after == before + [u]
    ensures Evolves(before, after, CreateAccount, u.confirmed)
  {
    assert (before + [u])[..|before|] == before;
  }

  /** A request that reached its handler had exactly that handler's
      outcome, on the fields the route validated: the signed-in caller for
      the two `authenticate` routes, the path token for `reset-password`,
      and `confirmed` as far as it is passed on to `User.create`. */
  ghost predicate Handled(crypto: AuthController.Crypto, before: seq<AuthController.User>, after: seq<AuthController.User>,
                          nextId: int, req: AuthRequest, newToken: string, failing: bool, confirmed: Option<bool>,
                          resp: Response) {
    var b := req.body;
    match req.endpoint
    case CreateAccount =>
      AuthController.CreateAccountOutcome(crypto, before, after, nextId, Submitted(b.name), Submitted(b.email),
                                          Submitted(b.password), confirmed, newToken, failing, resp)
    case ConfirmAccount =>
      AuthController.ConfirmAccountOutcome(before, after, Submitted(b.token), failing, resp)
    case Login =>
      after == before && AuthController.LoginOutcome(crypto, before, Submitted(b.email), Submitted(b.password), failing, resp)
    case ForgotPassword =>
      AuthController.ForgotPasswordOutcome(before, after, Submitted(b.email), newToken, failing, resp)
    case ValidateToken =>
      after == before && AuthController.ValidateTokenOutcome(before, Submitted(b.token), failing, resp)
    case ResetPassword(token) =>
      AuthController.ResetPasswordOutcome(crypto, before, after, token, Submitted(b.password), failing, resp)
    case UpdatePassword =>
      && req.caller.Some?
      && AuthController.UpdatePasswordOutcome(crypto, before, after, req.caller.value, Submitted(b.currentPassword),
                                              Submitted(b.password), failing, resp)
    case CheckPassword =>
      && req.caller.Some? && after == before
      && AuthController.CheckPasswordOutcome(crypto, before, req.caller.value, Submitted(b.password), failing, resp)
  }

  /** The router end to end: `authenticate` where registered, then the
      validation chain, then the handler with the validated fields. A
      request stopped before its handler leaves the table as it was, and the
      three read-only handlers never change it. Only `confirm-account`
      confirms an existing account. `createAccount` hands the whole body to
      `User.create`, so as written (`bodyMayConfirm`) a sign-up that sends
      `confirmed: true` starts confirmed; without it every new account
      starts unconfirmed. */
  method Serve(accounts: AuthController.Accounts, req: AuthRequest, isEmail: string -> bool, newToken: string,
               failing: bool, bodyMayConfirm: bool)
    returns (resp: Response)
    requires accounts.Valid()
    requires req.endpoint.CreateAccount? || req.endpoint.ForgotPassword? ==> AuthController.Unused(accounts.users, newToken)
    modifies accounts
    ensures accounts.Valid()
    ensures req.endpoint.NeedsCaller() && req.caller.None? ==>
              resp == NotAuthorized && accounts.users == old(accounts.users)
    ensures !(req.endpoint.NeedsCaller() && req.caller.None?) && RouteErrors(req.endpoint, req.body, isEmail) != [] ==>
              && resp == Response(400, ErrorList(RouteErrors(req.endpoint, req.body, isEmail)))
              && accounts.users == old(accounts.users)
    ensures req.endpoint.Login? || req.endpoint.ValidateToken? || req.endpoint.CheckPassword? ==>
              accounts.users == old(accounts.users)
    ensures Evolves(old(accounts.users), accounts.users, req.endpoint, bodyMayConfirm && req.body.confirmed == Some(true))
    ensures !(req.endpoint.NeedsCaller() && req.caller.None?) && RouteErrors(req.endpoint, req.body, isEmail) == [] ==>
              Handled(accounts.crypto, old(accounts.users), accounts.users, old(accounts.nextId), req, newToken, failing,
                      if bodyMayConfirm then req.body.confirmed else None, resp)
  {
    UnchangedEvolves(accounts.users, req.endpoint, bodyMayConfirm && req.body.confirmed == Some(true));
    if req.endpoint.NeedsCaller() && req.caller.None? {
      return NotAuthorized;
    }
    var rejected := InputErrorsResponse(RouteErrors(req.endpoint, req.body, isEmail));
    if rejected.Some? {
      return rejected.value;
    }
    var confirmed := if bodyMayConfirm then req.body.confirmed else None;
    resp := Dispatch(accounts, req, newToken, failing, confirmed);
  }

  /** The handler of a request that passed its checks. */
  method Dispatch(accounts: AuthController.Accounts, req: AuthRequest, newToken: string, failing: bool, confirmed: Option<bool>)
    returns (resp: Response)
    requires accounts.Valid()
    requires req.endpoint.CreateAccount? || req.endpoint.ForgotPassword? ==> AuthController.Unused(accounts.users, newToken)
    requires req.endpoint.NeedsCaller() ==> req.caller.Some?
    modifies accounts
    ensures accounts.Valid()
    ensures req.endpoint.Login? || req.endpoint.ValidateToken? || req.endpoint.CheckPassword? ==>
              accounts.users == old(accounts.users)
    ensures Evolves(old(accounts.users), accounts.users, req.endpoint, confirmed == Some(true))
    ensures Handled(accounts.crypto, old(accounts.users), accounts.users, old(accounts.nextId), req, newToken, failing,
                    confirmed, resp)
  {
    var b := req.body;
    ghost var before := accounts.users;
    UnchangedEvolves(before, req.endpoint, confirmed == Some(true));
    match req.endpoint
    case CreateAccount =>
      ghost var u := AuthController.User(accounts.nextId, Submitted(b.name), Submitted(b.email),
                                         accounts.crypto.hash(Submitted(b.password)), Some(newToken), confirmed.GetOr(false));
      resp := accounts.CreateAccount(Submitted(b.name), Submitted(b.email), Submitted(b.password), confirmed, newToken, failing);
      CreateEvolves(before, accounts.users, u);
    case ConfirmAccount =>
      resp := accounts.ConfirmAccount(Submitted(b.token), failing);
      ConfirmEvolves(before, accounts.users, confirmed == Some(true));
    case Login =>
      resp := accounts.Login(Submitted(b.email), Submitted(b.password), failing);
    case ForgotPassword =>
      resp := accounts.ForgotPassword(Submitted(b.email), newToken, failing);
      SameConfirmationEvolves(before, accounts.users, req.endpoint, confirmed == Some(true));
    case ValidateToken =>
      resp := accounts.ValidateToken(Submitted(b.token), failing);
    case ResetPassword(token) =>
      resp := accounts.ResetPasswordWithToken(token, Submitted(b.password), failing);
      SameConfirmationEvolves(before, accounts.users, req.endpoint, confirmed == Some(true));
    case UpdatePassword =>
      resp := accounts.UpdateCurrentUserPassword(req.caller.value, Submitted(b.currentPassword), Submitted(b.password), failing);
      SameConfirmationEvolves(before, accounts.users, req.endpoint, confirmed == Some(true));
    case CheckPassword =>
      resp := accounts.CheckPassword(req.caller.value, Submitted(b.password), failing);
  }

  /** With the body's `confirmed` kept away from `User.create`, a sign-up
      that sends `confirmed: true` still starts unconfirmed: its login
      answers 403 until confirm-account. */
  method SelfConfirmationIgnored(crypto: AuthController.Crypto, isEmail: string -> bool, name: string, email: string,
                                 password: string, token: string)
    returns (created: Response, login: Response)
    requires |name| > 0 && |password| >= 8 && isEmail(email)
    ensures created == Response(201, JsonText("User created successfully"))
    ensures login == AuthController.NotConfirmed
  {
    var accounts := new AuthController.Accounts(crypto);
    var body := AuthBody(Some(name), Some(email), Some(password), None, None, Some(true));
    var signUp := AuthRequest(None, CreateAccount, body);
    assert RouteErrors(CreateAccount, body, isEmail) == [];
    created := Serve(accounts, signUp, isEmail, token, false, false);
    assert Handled(crypto, [], accounts.users, 1, signUp, token, false, None, created);
    assert AuthController.CreateAccountOutcome(crypto, [], accounts.users, 1, name, email, password, None, token, false, created);
    ghost var u := AuthController.User(1, name, email, crypto.hash(password), Some(token), false);
    assert accounts.users == [u];
    assert AuthController.UserByEmail(accounts.users, email) == Some(0);
    var logIn := AuthRequest(None, Login, body);
    assert RouteErrors(Login, body, isEmail) == [];
    ghost var before := accounts.users;
    login := Serve(accounts, logIn, isEmail, token, false, false);
    assert Handled(crypto, before, accounts.users, 2, logIn, token, false, None, login);
    assert AuthController.LoginOutcome(crypto, before, email, password, false, login);
  }
}
