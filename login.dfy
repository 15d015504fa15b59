/** `POST /api/auth/login` of `src/pages/api/auth/login.ts`: validate the body, look the
    user up, sign an access token and set it as a cookie. */
module Login {
  import opened Wrappers
  import opened Json
  import opened UserDto
  import opened Http
  import Uuid

  /** The claims handed to the signer: the payload's `role` and the `jwtid`, `subject`,
      `issuer` and `expiresIn` options. */
  datatype Claims = Claims(role: string, subject: string, issuer: Option<string>, expiresIn: nat, jwtId: string)

  function ClaimsFor(u: User, host: Option<string>, jwtId: string): (c: Claims)
    ensures c.subject == u.id && c.issuer == host && c.jwtId == jwtId
    ensures c.expiresIn == 2592000
    ensures IsUserRole(JStr(c.role)) && (c.role == "lead" <==> u.role == Lead)
  {
    Claims(RoleName(u.role), u.id, host, OneMonthInSec, jwtId)
  }

  /** The 200 reply once the token is signed: the session cookie and the user's DTO. */
  function Welcome(u: User, token: string): (r: Response)
    ensures r.status == 200 && r.body == JsonBody(UserJson(u))
    ensures r.setCookie == Some("access_token=" + token + "; Max-Age=" + "2592000" + CookieAttributes)
  {
    CookieHeaders(token);
    Response(200, Some(SetCookieHeader(SessionCookie(token))), JsonBody(UserJson(u)))
  }

  /** The handler as written. `host` is the `Host` header, `store` the user table, `jwtId`
      the fresh uuid and `sign` what signing the claims yields. Returns every response the
      handler sends, the id it looked up, and the claims it signed. A store exception
      sends 500 and falls through with no user, so a 404 is sent after it. */
  method LoginHandler(httpMethod: string, body: Json, host: Option<string>, store: Store<User>,
                      jwtId: string, sign: Outcome<string>)
    returns (sent: seq<Response>, queried: Option<string>, claims: Option<Claims>)
    ensures httpMethod != "POST" ==> sent == [] && queried.None? && claims.None?
    ensures httpMethod == "POST" ==> queried == ParseLogin(body)
    ensures httpMethod == "POST" && ParseLogin(body).None? ==> sent == [Plain(400)] && claims.None?
    ensures queried.Some? ==> Uuid.IsUuid(queried.value)
    ensures queried.Some? && store.StoreFailure? ==> sent == [Plain(500), Plain(404)] && claims.None?
    ensures queried.Some? && store.Rows? && FindUser(store.rows, queried.value).None? ==>
      sent == [Plain(404)] && claims.None?
    ensures queried.Some? && store.Rows? && FindUser(store.rows, queried.value).Some? ==>
      var u := FindUser(store.rows, queried.value).value;
      && u.id == queried.value
      && claims == Some(ClaimsFor(u, host, jwtId))
      && sent == (if sign.Done? then [Welcome(u, sign.value)] else [Plain(500)])
    ensures forall i :: 0 <= i < |sent| && sent[i].setCookie.Some? ==>
      sign.Done? && sent == [sent[i]] && sent[i].status == 200 && sent[i].setCookie == Some(SetCookieHeader(SessionCookie(sign.value)))
  {
    sent := [];
    queried := None;
    claims := None;
    if httpMethod == "POST" {
      var result := ParseLogin(body);
      if result.None? {
        sent := sent + [Plain(400)];
        return;
      }
      queried := result;
      var user: Option<User> := None;
      if store.StoreFailure? {
        sent := sent + [Plain(500)];
      } else {
        user := FindUser(store.rows, result.value);
      }
      if user.None? {
        sent := sent + [Plain(404)];
        return;
      }
      claims := Some(ClaimsFor(user.value, host, jwtId));
      if sign.Failed? {
        sent := sent + [Plain(500)];
        return;
      }
      sent := sent + [Welcome(user.value, sign.value)];
    }
  }

  /** The handler with the evidently intended `return` after the store exception: at most
      one response, and a store failure is answered by a 500 alone. */
  method LoginHandlerFixed(httpMethod: string, body: Json, host: Option<string>, store: Store<User>,
                           jwtId: string, sign: Outcome<string>)
    returns (sent: seq<Response>, queried: Option<string>, claims: Option<Claims>)
    ensures |sent| <= 1
    ensures httpMethod != "POST" ==> sent == [] && queried.None? && claims.None?
    ensures httpMethod == "POST" ==> |sent| == 1 && queried == ParseLogin(body)
    ensures httpMethod == "POST" && ParseLogin(body).None? ==> sent == [Plain(400)] && claims.None?
    ensures queried.Some? ==> Uuid.IsUuid(queried.value)
    ensures queried.Some? && store.StoreFailure? ==> sent == [Plain(500)] && claims.None?
    ensures queried.Some? && store.Rows? && FindUser(store.rows, queried.value).None? ==>
      sent == [Plain(404)] && claims.None?
    ensures queried.Some? && store.Rows? && FindUser(store.rows, queried.value).Some? ==>
      var u := FindUser(store.rows, queried.value).value;
      && u.id == queried.value
      && claims == Some(ClaimsFor(u, host, jwtId))
      && sent == (if sign.Done? then [Welcome(u, sign.value)] else [Plain(500)])
    ensures forall i :: 0 <= i < |sent| && sent[i].setCookie.Some? ==>
      sign.Done? && sent[i].status == 200 && sent[i].setCookie == Some(SetCookieHeader(SessionCookie(sign.value)))
  {
    sent := [];
    queried := None;
    claims := None;
    if httpMethod == "POST" {
      var result := ParseLogin(body);
      if result.None? {
        sent := sent + [Plain(400)];
        return;
      }
      queried := result;
      var user: Option<User> := None;
      if store.StoreFailure? {
        sent := sent + [Plain(500)];
        return;
      } else {
        user := FindUser(store.rows, result.value);
      }
      if user.None? {
        sent := sent + [Plain(404)];
        return;
      }
      claims := Some(ClaimsFor(user.value, host, jwtId));
      if sign.Failed? {
        sent := sent + [Plain(500)];
        return;
      }
      sent := sent + [Welcome(user.value, sign.value)];
    }
  }

  /** A successful login returns a body that passes `userDTO` exactly when the stored user's
      name is non-empty: the id already passed the login schema. */
  lemma WelcomeIsUserDto(body: Json, u: User, token: string)
    requires ParseLogin(body) == Some(u.id)
    ensures Welcome(u, token).body.value == UserJson(u)
    ensures IsUserDto(Welcome(u, token).body.value) <==> |u.name| >= 1
  {
    UserJsonIsDto(u);
  }
}
