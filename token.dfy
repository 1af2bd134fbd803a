/** `get_token` (monitor.py lines 28-63): the bearer credential for the
    battery service, taken from the `TOKEN` setting or obtained by logging in. */
module Token {
  import opened Outcome

  const Prefix := "Bearer "
  const LoginFailedMessage := "COULD NOT GET NEW AUTH TOKEN!"

  /** The login endpoint's answer: its HTTP status and `data.token`, if present. */
  datatype LoginResponse = LoginResponse(status: int, token: Option<string>)

  predicate IsBearer(c: string) {
    Prefix <= c
  }

  /** The raw token inside a bearer credential. */
  function RawOf(c: string): (raw: string)
    requires IsBearer(c)
    ensures |raw| == |c| - |Prefix|
  {
    c[|Prefix|..]
  }

  /** A raw token formatted as the Authorization header value. */
  function Bearer(raw: string): (c: string)
    ensures IsBearer(c) && RawOf(c) == raw
  {
    Prefix + raw
  }

  lemma BearerOfRaw(c: string)
    requires IsBearer(c)
    ensures Bearer(RawOf(c)) == c
  {
  }

  lemma BearerInjective(a: string, b: string)
    ensures Bearer(a) == Bearer(b) <==> a == b
  {
  }

  /** `get_token` with the login request built as the code evidently intends:
      the `TOKEN` setting wins without any network call; otherwise one login,
      whose failure notifies the operator and exits. */
  function GetToken(env: Option<string>, login: LoginResponse): (r: Out<string>)
    ensures env.Some? ==> r == Out([], Done(Bearer(env.value)))
    ensures env.None? ==> |r.effects| >= 1 && r.effects[0] == Login
    ensures env.None? && login.status != 200 ==>
              r == Out([Login, Notify(LoginFailedMessage)], Exited)
    ensures env.None? && login.status == 200 ==> r.effects == [Login]
    ensures env.None? && login.status == 200 && login.token.Some? ==>
              r.flow == Done(Bearer(login.token.value))
    ensures env.None? && login.status == 200 && login.token.None? ==>
              r.flow == Crashed(TokenMissing)
    ensures r.flow.Done? ==> IsBearer(r.flow.value)
  {
    match env
    case Some(raw) => Out([], Done(Bearer(raw)))
    case None =>
      if login.status != 200 then Out([Login, Notify(LoginFailedMessage)], Exited)
      else match login.token
        case Some(raw) => Out([Login], Done(Bearer(raw)))
        case None => Out([Login], Crashed(TokenMissing))
  }

  /** `get_token` exactly as written: the login branch calls `json.dumps`
      before any request, and `json` is never imported. */
  function GetTokenAsWritten(env: Option<string>, login: LoginResponse): (r: Out<string>)
    ensures env.Some? ==> r == GetToken(env, login)
    ensures env.None? ==> r == Out([], Crashed(JsonUndefined))
  {
    match env
    case Some(raw) => Out([], Done(Bearer(raw)))
    case None => Out([], Crashed(JsonUndefined))
  }

  /** Without a `TOKEN` setting the written code can never obtain a credential,
      even from a login that would have succeeded. */
  lemma AsWrittenLoginNeverSucceeds(raw: string)
    ensures GetTokenAsWritten(None, LoginResponse(200, Some(raw))).flow == Crashed(JsonUndefined)
    ensures GetToken(None, LoginResponse(200, Some(raw))).flow == Done(Bearer(raw))
  {
  }

  /** Whatever its source, a credential that is returned is "Bearer " followed
      by a raw token that came from the setting or from the login answer. */
  lemma TokenIsPrefixedRaw(env: Option<string>, login: LoginResponse)
    requires GetToken(env, login).flow.Done?
    ensures var c := GetToken(env, login).flow.value;
            c[..|Prefix|] == "Bearer " &&
            (env.Some? ==> c[|Prefix|..] == env.value) &&
            (env.None? ==> login.token.Some? && c[|Prefix|..] == login.token.value)
  {
  }
}
