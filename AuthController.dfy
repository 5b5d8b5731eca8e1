/** controllers/AuthController.ts: the account lifecycle over the users
    table. Each handler looks a user up by email, token or id, checks a
    guard, and either answers with an error or assigns some of the user's
    fields and saves the row. Hashing, password verification and JWT
    signing are functions the model does not look into; the tokens the
    handlers generate are passed in. */
module AuthController {
  import opened Common
  import opened Http

  /** A row of the users table (models/User.ts). `token` is the pending
      confirmation or reset token, NULL once used. */
  datatype User = User(id: int, name: string, email: string, password: string, token: Option<string>, confirmed: bool)

  /** `hashPassword`, `verifyPassword(plain, hash)` and `generateJWT(id)`. */
  datatype Crypto = Crypto(hash: string -> string, verify: (string, string) -> bool, jwt: int -> string)

  const InternalError := Response(500, MessageObject("Internal server error"))
  const EmailTaken := Response(409, ErrorObject("A user with this email already exists"))
  const NoSuchUser := Response(404, ErrorObject("User does not exist"))
  const NotConfirmed := Response(403, ErrorObject("Account not confirmed"))
  const IncorrectPassword := Response(401, ErrorObject("Incorrect password"))
  const CurrentPasswordIncorrect := Response(401, MessageObject("Current password is incorrect"))

  /** `User.findOne({ where: { email } })`. */
  function UserByEmail(us: seq<User>, email: string): Option<nat> {
    FindFirst(us, (u: User) => u.email == email)
  }

  /** `User.findOne({ where: { token } })`. */
  function UserByToken(us: seq<User>, token: string): Option<nat> {
    FindFirst(us, (u: User) => u.token == Some(token))
  }

  /** `User.findByPk(id)`. */
  function UserById(us: seq<User>, id: int): Option<nat> {
    FindFirst(us, (u: User) => u.id == id)
  }

  /** No user holds `token`: what a freshly generated token is assumed to be. */
  ghost predicate Unused(us: seq<User>, token: string) {
    forall u :: u in us ==> u.token != Some(token)
  }

  /** The table's constraints: serial ids, the unique email column, and
      pending tokens held by one user each. */
  ghost predicate UsersValid(us: seq<User>, nextId: int) {
    && (forall i, j :: 0 <= i < j < |us| ==> us[i].id < us[j].id)
    && (forall i, j :: 0 <= i < j < |us| ==> us[i].email != us[j].email)
    && (forall i, j :: 0 <= i < j < |us| && us[i].token.Some? ==> us[i].token != us[j].token)
    && (forall u :: u in us ==> 0 < u.id < nextId)
  }

  /** Changing one row keeps the constraints when its id and email stay and
      its new token, if any, is held by nobody else. */
  lemma ReplaceKeepsValid(us: seq<User>, nextId: int, i: int, u: User)
    requires UsersValid(us, nextId) && 0 <= i < |us|
    requires u.id == us[i].id && u.email == us[i].email
    requires u.token.Some? ==> forall k :: 0 <= k < |us| && k != i ==> us[k].token != u.token
    ensures UsersValid(us[i := u], nextId)
  {
    var vs := us[i := u];
    forall k | 0 <= k < |vs| ensures vs[k].id == us[k].id && vs[k].email == us[k].email {
    }
    forall a, b | 0 <= a < b < |vs| && vs[a].token.Some? ensures vs[a].token != vs[b].token {
      if a != i && b != i {
        assert vs[a] == us[a] && vs[b] == us[b];
      }
    }
    forall v | v in vs ensures 0 < v.id < nextId {
      var k :| 0 <= k < |vs| && vs[k] == v;
      assert us[k] in us;
    }
  }

  /** Appending a user with the next id, an email nobody has and a token
      nobody holds keeps the constraints. */
  lemma AppendKeepsValid(us: seq<User>, nextId: int, u: User)
    requires UsersValid(us, nextId) && u.id == nextId && 0 < nextId
    requires forall v :: v in us ==> v.email != u.email
    requires u.token.Some? ==> Unused(us, u.token.value)
    ensures UsersValid(us + [u], nextId + 1)
  {
    var vs := us + [u];
    forall i, j | 0 <= i < j < |vs| ensures vs[i].id < vs[j].id && vs[i].email != vs[j].email
      && (vs[i].token.Some? ==> vs[i].token != vs[j].token)
    {
      assert vs[i] == us[i] && us[i] in us;
      if j < |us| {
        assert vs[j] == us[j];
      }
    }
  }

  /** After a user's token is cleared nobody holds it any more. */
  lemma ClearedTokenUnused(us: seq<User>, nextId: int, i: int, u: User)
    requires UsersValid(us, nextId) && 0 <= i < |us| && us[i].token.Some? && u.token.None?
    ensures Unused(us[i := u], us[i].token.value)
  {
    var vs := us[i := u];
    forall v | v in vs ensures v.token != us[i].token {
      var k :| 0 <= k < |vs| && vs[k] == v;
      if k < i || i < k {
        assert vs[k] == us[k];
      }
    }
  }

  /** The same accounts, each as confirmed as it was. */
  ghost predicate SameConfirmation(before: seq<User>, after: seq<User>) {
    |after| == |before| && forall i :: 0 <= i < |before| ==> after[i].confirmed == before[i].confirmed
  }

  /** What `createAccount` answers and stores, given the table before and
      after: 409 for a taken email, 500 for a failing insert, otherwise
      201 and one new user with the next id, the hashed password, the
      generated token and `confirmed` from the body (false by default). */
  ghost predicate CreateAccountOutcome(crypto: Crypto, before: seq<User>, after: seq<User>, nextId: int, name: string,
                                       email: string, password: string, confirmed: Option<bool>, token: string,
                                       failing: bool, resp: Response) {
    && (UserByEmail(before, email).Some? ==> resp == EmailTaken && after == before)
    && (UserByEmail(before, email).None? && failing ==> resp == InternalError && after == before)
    && (UserByEmail(before, email).None? && !failing ==>
          && resp == Response(201, JsonText("User created successfully"))
          && after == before + [User(nextId, name, email, crypto.hash(password), Some(token), confirmed.GetOr(false))])
  }

  /** What `confirmAccount` answers and stores: 401 "Invalid token" when
      nobody holds the token; otherwise the holder alone is confirmed and
      loses the token. */
  ghost predicate ConfirmAccountOutcome(before: seq<User>, after: seq<User>, token: string, failing: bool, resp: Response) {
    && (failing ==> resp == InternalError && after == before)
    && (!failing && UserByToken(before, token).None? ==>
          resp == Response(401, ErrorObject("Invalid token")) && after == before)
    && (!failing && UserByToken(before, token).Some? ==>
          && resp == Response(OK, JsonText("Account confirmed successfully"))
          && var i := UserByToken(before, token).value;
             after == before[i := before[i].(confirmed := true, token := None)])
  }

  /** What `login` answers on a table: unknown email 404, unconfirmed 403,
      wrong password 401, in that order, then the JWT for the user's id. */
  ghost predicate LoginOutcome(crypto: Crypto, us: seq<User>, email: string, password: string, failing: bool, resp: Response) {
    && (failing ==> resp == InternalError)
    && (!failing && UserByEmail(us, email).None? ==> resp == NoSuchUser)
    && (!failing && UserByEmail(us, email).Some? ==>
          var u := us[UserByEmail(us, email).value];
          && u.email == email
          && (!u.confirmed ==> resp == NotConfirmed)
          && (u.confirmed && !crypto.verify(password, u.password) ==> resp == IncorrectPassword)
          && (u.confirmed && crypto.verify(password, u.password) ==> resp == Response(OK, JsonText(crypto.jwt(u.id)))))
  }

  /** What `forgotPassword` answers and stores: 404 for an unknown email;
      otherwise only that user's token becomes the generated one. */
  ghost predicate ForgotPasswordOutcome(before: seq<User>, after: seq<User>, email: string, token: string, failing: bool,
                                        resp: Response) {
    && (failing ==> resp == InternalError && after == before)
    && (!failing && UserByEmail(before, email).None? ==> resp == NoSuchUser && after == before)
    && (!failing && UserByEmail(before, email).Some? ==>
          && resp == Response(OK, JsonText("We have sent you an email with instructions"))
          && var i := UserByEmail(before, email).value;
             after == before[i := before[i].(token := Some(token))])
  }

  /** What `validateToken` answers on a table: 404 "Invalid token" exactly
      when nobody holds the token. */
  ghost predicate ValidateTokenOutcome(us: seq<User>, token: string, failing: bool, resp: Response) {
    && (failing ==> resp == InternalError)
    && (!failing ==>
          (resp == Response(404, ErrorObject("Invalid token")) <==> forall u :: u in us ==> u.token != Some(token)))
    && (!failing && (exists u :: u in us && u.token == Some(token)) ==>
          resp == Response(OK, JsonText("Token is valid, proceed to reset password")))
  }

  /** What `resetPasswordWithToken` answers and stores: 404 when nobody
      holds the token; otherwise the holder's password becomes the hash of
      the new one and the token is cleared. */
  ghost predicate ResetPasswordOutcome(crypto: Crypto, before: seq<User>, after: seq<User>, token: string, password: string,
                                       failing: bool, resp: Response) {
    && (failing ==> resp == InternalError && after == before)
    && (!failing && UserByToken(before, token).None? ==>
          resp == Response(404, ErrorObject("Invalid token")) && after == before)
    && (!failing && UserByToken(before, token).Some? ==>
          && resp == Response(OK, JsonText("Password updated successfully"))
          && var i := UserByToken(before, token).value;
             after == before[i := before[i].(password := crypto.hash(password), token := None)])
  }

  /** What `updateCurrentUserPassword` answers and stores: 500 without the
      caller's row, 401 when the current password does not verify,
      otherwise the caller's password becomes the hash of the new one. */
  ghost predicate UpdatePasswordOutcome(crypto: Crypto, before: seq<User>, after: seq<User>, userId: int, current: string,
                                        password: string, failing: bool, resp: Response) {
    && (failing || UserById(before, userId).None? ==> resp == InternalError && after == before)
    && (!failing && UserById(before, userId).Some? ==>
          var i := UserById(before, userId).value;
          && (!crypto.verify(current, before[i].password) ==>
                resp == CurrentPasswordIncorrect && after == before)
          && (crypto.verify(current, before[i].password) ==>
                && resp == Response(OK, JsonText("Password updated successfully"))
                && after == before[i := before[i].(password := crypto.hash(password))]))
  }

  /** What `checkPassword` answers on a table: 200 exactly when the
      password verifies against the caller's stored hash. */
  ghost predicate CheckPasswordOutcome(crypto: Crypto, us: seq<User>, userId: int, password: string, failing: bool,
                                       resp: Response) {
    && (failing || UserById(us, userId).None? ==> resp == InternalError)
    && (!failing && UserById(us, userId).Some? ==>
          var u := us[UserById(us, userId).value];
          && u.id == userId
          && (crypto.verify(password, u.password) <==> resp == Response(OK, JsonText("Password is correct")))
          && (!crypto.verify(password, u.password) <==> resp == CurrentPasswordIncorrect))
  }

  /** The users table, with the hashing and signing functions the handlers
      call. */
  class Accounts {
    const crypto: Crypto
    var users: seq<User>
    var nextId: int

    ghost predicate Valid()
      reads this
    {
      0 < nextId && UsersValid(users, nextId)
    }

    constructor (crypto: Crypto)
      ensures Valid() && this.crypto == crypto && users == [] && nextId == 1
    {
      this.crypto := crypto;
      users := [];
      nextId := 1;
    }

    /** `createAccount`: 409 when the email is taken; otherwise one new user
        with the hashed password and the generated token, unconfirmed unless
        the body says `confirmed` (the whole body is passed to
        `User.create`). A failing insert answers 500 and stores nothing. */
    method CreateAccount(name: string, email: string, password: string, confirmed: Option<bool>, token: string, failing: bool)
      returns (resp: Response)
      requires Valid() && Unused(users, token)
      modifies this
      ensures Valid()
      ensures CreateAccountOutcome(crypto, old(users), users, old(nextId), name, email, password, confirmed, token, failing, resp)
    {
      if UserByEmail(users, email).Some? {
        return EmailTaken;
      }
      if failing {
        return InternalError;
      }
      var user := User(nextId, name, email, password, None, confirmed.GetOr(false));
      user := user.(password := crypto.hash(password));
      user := user.(token := Some(token));
      AppendKeepsValid(users, nextId, user);
      users := users + [user];
      nextId := nextId + 1;
      resp := Response(201, JsonText("User created successfully"));
    }

    /** `confirmAccount`: 401 "Invalid token" when nobody holds the token;
        otherwise that user alone is confirmed and loses the token, which
        then matches nobody. */
    method ConfirmAccount(token: string, failing: bool) returns (resp: Response)
      requires Valid()
      modifies this
      ensures Valid() && nextId == old(nextId) && |users| == |old(users)|
      ensures ConfirmAccountOutcome(old(users), users, token, failing, resp)
      ensures !failing && UserByToken(old(users), token).Some? ==> Unused(users, token)
    {
      if failing {
        return InternalError;
      }
      var found := UserByToken(users, token);
      if found.None? {
        return Response(401, ErrorObject("Invalid token"));
      }
      var i := found.value;
      var user := users[i];
      user := user.(confirmed := true);
      user := user.(token := None);
      ReplaceKeepsValid(users, nextId, i, user);
      ClearedTokenUnused(users, nextId, i, user);
      users := users[i := user];
      resp := Response(OK, JsonText("Account confirmed successfully"));
    }

    /** `login`: the guards in order (unknown email 404, unconfirmed 403,
        wrong password 401), then the JWT for the user's id. Nothing is
        written. */
    method Login(email: string, password: string, failing: bool) returns (resp: Response)
      ensures LoginOutcome(crypto, users, email, password, failing, resp)
    {
      if failing {
        return InternalError;
      }
      var found := UserByEmail(users, email);
      if found.None? {
        return NoSuchUser;
      }
      var user := users[found.value];
      if !user.confirmed {
        return NotConfirmed;
      }
      if !crypto.verify(password, user.password) {
        return IncorrectPassword;
      }
      resp := Response(OK, JsonText(crypto.jwt(user.id)));
    }

    /** `forgotPassword`: 404 for an unknown email; otherwise only that
        user's token is replaced by the generated one. */
    method ForgotPassword(email: string, token: string, failing: bool) returns (resp: Response)
      requires Valid() && Unused(users, token)
      modifies this
      ensures Valid() && nextId == old(nextId)
      ensures SameConfirmation(old(users), users)
      ensures ForgotPasswordOutcome(old(users), users, email, token, failing, resp)
    {
      if failing {
        return InternalError;
      }
      var found := UserByEmail(users, email);
      if found.None? {
        return NoSuchUser;
      }
      var i := found.value;
      var user := users[i].(token := Some(token));
      ReplaceKeepsValid(users, nextId, i, user);
      users := users[i := user];
      resp := Response(OK, JsonText("We have sent you an email with instructions"));
    }

    /** `validateToken`: whether somebody holds the token; nothing is
        written. */
    method ValidateToken(token: string, failing: bool) returns (resp: Response)
      ensures ValidateTokenOutcome(users, token, failing, resp)
    {
      if failing {
        return InternalError;
      }
      var found := UserByToken(users, token);
      if found.None? {
        return Response(404, ErrorObject("Invalid token"));
      }
      assert users[found.value] in users;
      resp := Response(OK, JsonText("Token is valid, proceed to reset password"));
    }

    /** `resetPasswordWithToken`: 404 when nobody holds the token; otherwise
        that user's password becomes the hash of the new one and the token
        is cleared, so it cannot be used again. */
    method ResetPasswordWithToken(token: string, password: string, failing: bool) returns (resp: Response)
      requires Valid()
      modifies this
      ensures Valid() && nextId == old(nextId)
      ensures SameConfirmation(old(users), users)
      ensures ResetPasswordOutcome(crypto, old(users), users, token, password, failing, resp)
      ensures !failing && UserByToken(old(users), token).Some? ==> Unused(users, token)
    {
      if failing {
        return InternalError;
      }
      var found := UserByToken(users, token);
      if found.None? {
        return Response(404, ErrorObject("Invalid token"));
      }
      var i := found.value;
      var user := users[i];
      user := user.(password := crypto.hash(password));
      user := user.(token := None);
      ReplaceKeepsValid(users, nextId, i, user);
      ClearedTokenUnused(users, nextId, i, user);
      users := users[i := user];
      resp := Response(OK, JsonText("Password updated successfully"));
    }

    /** `updateCurrentUserPassword`: the caller's password becomes the hash
        of the new one only when the current one verifies; otherwise 401
        and nothing changes. A caller with no row makes `user.password`
        throw, which the handler turns into 500. */
    method UpdateCurrentUserPassword(userId: int, current: string, password: string, failing: bool) returns (resp: Response)
      requires Valid()
      modifies this
      ensures Valid() && nextId == old(nextId)
      ensures SameConfirmation(old(users), users)
      ensures UpdatePasswordOutcome(crypto, old(users), users, userId, current, password, failing, resp)
    {
      if failing {
        return InternalError;
      }
      var found := UserById(users, userId);
      if found.None? {
        return InternalError;
      }
      var i := found.value;
      if !crypto.verify(current, users[i].password) {
        return CurrentPasswordIncorrect;
      }
      var user := users[i].(password := crypto.hash(password));
      ReplaceKeepsValid(users, nextId, i, user);
      users := users[i := user];
      resp := Response(OK, JsonText("Password updated successfully"));
    }

    /** `checkPassword`: whether the password verifies against the caller's
        stored hash; nothing is written. */
    method CheckPassword(userId: int, password: string, failing: bool) returns (resp: Response)
      ensures CheckPasswordOutcome(crypto, users, userId, password, failing, resp)
    {
      if failing {
        return InternalError;
      }
      var found := UserById(users, userId);
      if found.None? {
        return InternalError;
      }
      var user := users[found.value];
      if !crypto.verify(password, user.password) {
        return CurrentPasswordIncorrect;
      }
      resp := Response(OK, JsonText("Password is correct"));
    }
  }

  /** The lifecycle from an empty table: a new account cannot log in until
      its confirmation token comes back, and then logs in with the password
      it signed up with. */
  method SignUpConfirmLogin(crypto: Crypto, name: string, email: string, password: string, token: string)
    returns (beforeConfirm: Response, afterConfirm: Response)
    requires crypto.verify(password, crypto.hash(password))
    ensures beforeConfirm == NotConfirmed
    ensures afterConfirm == Response(OK, JsonText(crypto.jwt(1)))
  {
    var accounts := new Accounts(crypto);
    var created := accounts.CreateAccount(name, email, password, None, token, false);
    assert UserByEmail(accounts.users, email) == Some(0);
    beforeConfirm := accounts.Login(email, password, false);
    assert UserByToken(accounts.users, token) == Some(0);
    ghost var signedUp := accounts.users[0];
    var confirmed := accounts.ConfirmAccount(token, false);
    assert accounts.users == [signedUp.(confirmed := true, token := None)];
    assert UserByEmail(accounts.users, email) == Some(0);
    afterConfirm := accounts.Login(email, password, false);
  }

  /** A sign-up whose body carries `confirmed: true` can log in at once,
      without its confirmation token ever coming back. */
  method SelfConfirmedLogin(crypto: Crypto, name: string, email: string, password: string, token: string)
    returns (login: Response)
    requires crypto.verify(password, crypto.hash(password))
    ensures login == Response(OK, JsonText(crypto.jwt(1)))
  {
    var accounts := new Accounts(crypto);
    var created := accounts.CreateAccount(name, email, password, Some(true), token, false);
    assert UserByEmail(accounts.users, email) == Some(0);
    login := accounts.Login(email, password, false);
  }

  /** Signing up twice with one email: the first call creates the account,
      the second answers 409 and adds nobody. */
  method DuplicateSignUp(crypto: Crypto, name: string, email: string, password: string, token: string, secondToken: string)
    returns (first: Response, second: Response, accounts: seq<User>)
    requires token != secondToken
    ensures first == Response(201, JsonText("User created successfully"))
    ensures second == EmailTaken
    ensures |accounts| == 1 && accounts[0].email == email
  {
    var store := new Accounts(crypto);
    first := store.CreateAccount(name, email, password, None, token, false);
    assert UserByEmail(store.users, email) == Some(0);
    second := store.CreateAccount(name, email, password, None, secondToken, false);
    accounts := store.users;
  }
}
