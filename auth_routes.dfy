/** The admin authentication routes (van-rakshak-backend/routes/auth.js):
    login against the configured administrator credentials, and the check
    of a bearer token. Signing and verifying a token are the token
    library's business: the signed token comes in as a value and the
    verdict of the signature check as a predicate. */
module AuthRoutes {
  import opened Common
  import Text

  /** The process environment the routes read. An unset variable is `None`. */
  datatype Env = Env(adminEmail: Option<string>, adminPassword: Option<string>, jwtSecret: Option<string>)

  /** The success payload: the token and the user it names. */
  datatype Session = Session(accessToken: string, email: Option<string>, role: string)

  /** The token library refuses to sign or to verify with a secret that is
      not truthy. */
  predicate CanSign(env: Env) { Truthy(env.jwtSecret) }

  /** The credential test as written: strict equality of the request's
      fields with the variables, where a missing field equals an unset
      variable. */
  predicate CredentialsMatchAsWritten(env: Env, email: Option<string>, password: Option<string>) {
    email == env.adminEmail && password == env.adminPassword
  }

  /** `POST /api/auth/login` as written; `token` is what the library signs
      for `{ email, role: 'admin' }`. */
  function LoginAsWritten(env: Env, email: Option<string>, password: Option<string>, token: string): (r: Reply<Session>)
    ensures r.Success? <==> CredentialsMatchAsWritten(env, email, password) && CanSign(env)
    ensures r.Success? ==> r.code == 200 && r.payload == Session(token, email, "admin")
    ensures !CredentialsMatchAsWritten(env, email, password) ==> r == Fail(401, InvalidCredentials)
    ensures CredentialsMatchAsWritten(env, email, password) && !CanSign(env) ==> r == Fail(500, MissingSecret)
  {
    if email == env.adminEmail && password == env.adminPassword then
      if Truthy(env.jwtSecret) then Success(200, Session(token, email, "admin"))
      else Fail(500, MissingSecret)
    else Fail(401, InvalidCredentials)
  }

  /** With the administrator variables unset, a request that omits both
      fields logs in as administrator. */
  lemma UnsetCredentialsAdmitEmptyLogin(secret: string, token: string)
    requires secret != ""
    ensures LoginAsWritten(Env(None, None, Some(secret)), None, None, token).Success?
  {
  }

  /** The intended credential test: both variables are configured and the
      request repeats both. */
  predicate CredentialsMatch(env: Env, email: Option<string>, password: Option<string>) {
    && env.adminEmail.Some? && env.adminPassword.Some?
    && email == env.adminEmail && password == env.adminPassword
  }

  /** `POST /api/auth/login` with the credential test corrected. */
  function Login(env: Env, email: Option<string>, password: Option<string>, token: string): (r: Reply<Session>)
    ensures r.Success? <==> CredentialsMatch(env, email, password) && CanSign(env)
    ensures r.Success? ==> r.code == 200 && r.payload == Session(token, email, "admin")
    ensures r.Success? ==> email.Some? && password.Some?
    ensures !CredentialsMatch(env, email, password) ==> r == Fail(401, InvalidCredentials)
    ensures CredentialsMatch(env, email, password) && !CanSign(env) ==> r == Fail(500, MissingSecret)
  {
    if env.adminEmail.Some? && env.adminPassword.Some? && email == env.adminEmail && password == env.adminPassword then
      if Truthy(env.jwtSecret) then Success(200, Session(token, email, "admin"))
      else Fail(500, MissingSecret)
    else Fail(401, InvalidCredentials)
  }

  /** Once both administrator variables are set, the corrected login
      answers exactly as the written one. */
  lemma LoginAgreesWhenConfigured(env: Env, email: Option<string>, password: Option<string>, token: string)
    requires env.adminEmail.Some? && env.adminPassword.Some?
    ensures Login(env, email, password, token) == LoginAsWritten(env, email, password, token)
  {
  }

  /** Nobody logs in while the administrator is not configured. */
  lemma UnconfiguredRefusesEverybody(env: Env, email: Option<string>, password: Option<string>, token: string)
    requires env.adminEmail.None? || env.adminPassword.None?
    ensures Login(env, email, password, token) == Fail(401, InvalidCredentials)
  {
  }

  /** `authorization?.split(' ')[1]`: the second space-separated word of the
      header, if the header is present and has one. */
  function BearerToken(header: Option<string>): (r: Option<string>)
    ensures header.None? ==> r.None?
    ensures header.Some? ==> (r.Some? <==> |Text.Split(header.value, ' ')| >= 2)
  {
    if header.None? then None
    else
      var words := Text.Split(header.value, ' ');
      if |words| >= 2 then Some(words[1]) else None
  }

  /** The answer of `GET /api/auth/verify`: its status code and `valid`. */
  datatype Verdict = Verdict(code: nat, valid: bool)

  /** `GET /api/auth/verify`; `accepts(token, secret)` is the library's
      signature and expiry check. */
  function Verify(header: Option<string>, env: Env, accepts: (string, string) -> bool): (r: Verdict)
    ensures r.valid <==> r.code == 200
    ensures !r.valid ==> r.code == 401
    ensures r.valid <==> Truthy(BearerToken(header)) && CanSign(env) && accepts(BearerToken(header).value, env.jwtSecret.value)
  {
    var token := BearerToken(header);
    if !Truthy(token) then Verdict(401, false)
    else if !Truthy(env.jwtSecret) then Verdict(401, false)
    else if accepts(token.value, env.jwtSecret.value) then Verdict(200, true)
    else Verdict(401, false)
  }

  /** `Bearer <token>` carries the token itself, for any token without a space. */
  lemma {:induction false} BearerHeaderCarriesToken(token: string)
    requires ' ' !in token
    ensures BearerToken(Some("Bearer " + token)) == Some(token)
  {
    var parts := ["Bearer", token];
    assert Text.Free(parts, ' ') by {
      assert ' ' !in parts[0];
    }
    assert Text.Join(parts, ' ') == "Bearer " + token by {
      assert Text.Join(parts[1..], ' ') == token;
    }
    Text.SplitJoin(parts, ' ');
  }

  /** A token issued by a successful login passes the verify route when
      it is sent back as a bearer header, provided the library accepts
      what it signed and the token has no space. */
  lemma IssuedTokenVerifies(env: Env, email: Option<string>, password: Option<string>, token: string,
                            accepts: (string, string) -> bool)
    requires Login(env, email, password, token).Success?
    requires token != "" && ' ' !in token && accepts(token, env.jwtSecret.value)
    ensures Verify(Some("Bearer " + token), env, accepts) == Verdict(200, true)
  {
    BearerHeaderCarriesToken(token);
  }

  /** A header with nothing after `Bearer ` is refused. */
  lemma EmptyBearerRefused(env: Env, accepts: (string, string) -> bool)
    ensures Verify(Some("Bearer "), env, accepts) == Verdict(401, false)
  {
    BearerHeaderCarriesToken("");
  }
}
