/** What the API handlers send: status, an optional `Set-Cookie` for the access token, and
    a body that is either a reason phrase or JSON. The token check and the store are
    abstract inputs. */
module Http {
  import opened Wrappers
  import opened Json

  datatype Body = Text(text: string) | JsonBody(value: Json)

  /** An `access_token` cookie; every cookie the handlers set has `Path=/api`,
      `SameSite=Strict`, `HttpOnly` and `Secure`, so only the value and the lifetime vary. */
  datatype Cookie = Cookie(value: string, maxAge: nat)

  /** A reply: its status, the `Set-Cookie` header line if one is set, and its body. */
  datatype Response = Response(status: int, setCookie: Option<string>, body: Body)

  /** `60 * 60 * 24 * 30`, the session lifetime in seconds. */
  const OneMonthInSec: nat := 60 * 60 * 24 * 30

  function SessionCookie(token: string): Cookie {
    Cookie(token, OneMonthInSec)
  }

  /** The cookie that clears the session: empty value, `Max-Age=0`. */
  const ClearedCookie := Cookie("", 0)

  function DigitChar(d: nat): (c: char)
    requires d < 10
    ensures '0' <= c <= '9' && c as int - '0' as int == d
  {
    ('0' as int + d) as char
  }

  predicate IsDigits(s: string) {
    forall i :: 0 <= i < |s| ==> '0' <= s[i] <= '9'
  }

  /** The number a string of decimal digits denotes. */
  function DigitsValue(s: string): nat
    requires IsDigits(s)
    decreases |s|
  {
    if s == [] then 0 else DigitsValue(s[..|s| - 1]) * 10 + (s[|s| - 1] as int - '0' as int)
  }

  /** `${n}`: the decimal digits that denote `n`, without a leading zero. */
  function NatToString(n: nat): (r: string)
    ensures |r| >= 1 && IsDigits(r)
    ensures DigitsValue(r) == n
    ensures |r| > 1 ==> r[0] != '0'
    decreases n
  {
    if n < 10 then [DigitChar(n)]
    else
      var r := NatToString(n / 10) + [DigitChar(n % 10)];
      assert r[..|r| - 1] == NatToString(n / 10);
      r
  }

  /** The attributes every `access_token` cookie carries. */
  const CookieAttributes := "; Path=/api; SameSite=Strict; HttpOnly; Secure;"

  /** The `Set-Cookie` header line `access_token=<value>; Max-Age=<seconds>; ...`. */
  function SetCookieHeader(c: Cookie): string {
    "access_token=" + c.value + "; Max-Age=" + NatToString(c.maxAge) + CookieAttributes
  }

  /** The session lifetime as it appears in the header. */
  lemma OneMonthDigits()
    ensures OneMonthInSec == 2592000
    ensures NatToString(OneMonthInSec) == "2592000"
  {
    assert NatToString(2) == "2";
    assert NatToString(25) == NatToString(2) + ['5'];
    assert NatToString(259) == NatToString(25) + ['9'];
    assert NatToString(2592) == NatToString(259) + ['2'];
    assert NatToString(25920) == NatToString(2592) + ['0'];
    assert NatToString(259200) == NatToString(25920) + ['0'];
    assert NatToString(2592000) == NatToString(259200) + ['0'];
  }

  /** The two header lines the handlers write: the session cookie's `Max-Age` is one month,
      and the cleared cookie has an empty value and `Max-Age=0`. */
  lemma CookieHeaders(token: string)
    ensures SetCookieHeader(SessionCookie(token)) == "access_token=" + token + "; Max-Age=" + "2592000" + CookieAttributes
    ensures SetCookieHeader(ClearedCookie) == "access_token=" + "" + "; Max-Age=" + "0" + CookieAttributes
  {
    OneMonthDigits();
  }

  /** The `ReasonPhrases` of `http-status-codes` for the statuses the handlers send as text. */
  function ReasonPhrase(status: int): string {
    match status
    case 400 => "Bad Request"
    case 401 => "Unauthorized"
    case 403 => "Forbidden"
    case 404 => "Not Found"
    case 500 => "Internal Server Error"
    case _ => ""
  }

  /** `res.status(code).send(ReasonPhrases[code])`: no cookie, and for every status a handler
      sends as text, a phrase that is non-empty and tells it apart from the others. */
  function Plain(status: int): (r: Response)
    ensures r.status == status && r.setCookie.None? && r.body.Text?
    ensures status in {400, 401, 403, 404, 500} ==>
      r.body.text != "" && forall s :: s in {400, 401, 403, 404, 500} && s != status ==> r.body.text != ReasonPhrase(s)
  {
    Response(status, None, Text(ReasonPhrase(status)))
  }

  /** The 401 reply to a token that fails verification: the plain 401 text, with the session
      cookie cleared by an empty value and `Max-Age=0`. */
  function Unauthorized(): (r: Response)
    ensures r.status == 401 && r.body == Plain(401).body
    ensures r.setCookie == Some("access_token=" + "" + "; Max-Age=" + "0" + CookieAttributes)
  {
    CookieHeaders("");
    Response(401, Some(SetCookieHeader(ClearedCookie)), Text(ReasonPhrase(401)))
  }

  /** `res.status(code).json(value)` */
  function JsonReply(status: int, value: Json): Response {
    Response(status, None, JsonBody(value))
  }

  /** The outcome of `verifyAccessToken`: the decoded `role` and `sub` claims, or a throw. */
  datatype TokenCheck = Verified(role: string, subject: string) | Rejected

  /** A store read: the rows it returns, or an exception. */
  datatype Store<T> = Rows(rows: seq<T>) | StoreFailure

  /** A single store write or signing call: its result, or an exception. */
  datatype Outcome<T> = Done(value: T) | Failed
}
