/** `/api/users/me` of `src/pages/api/users/me.ts`: the token's subject looked up. */
module Me {
  import opened Wrappers
  import opened UserDto
  import opened Http

  /** The handler. Returns every response sent and the id the store was asked for. There is
      no role check: any verified caller's GET looks up the token's subject. A rejected token
      gets 401 with the cleared cookie; other methods get no response. */
  method MeHandler(httpMethod: string, token: TokenCheck, store: Store<User>)
    returns (sent: seq<Response>, queried: Option<string>)
    ensures token.Rejected? ==> sent == [Unauthorized()] && queried.None?
    ensures queried.Some? <==> token.Verified? && httpMethod == "GET"
    ensures queried.Some? ==> queried.value == token.subject
    ensures token.Verified? && httpMethod != "GET" ==> sent == []
    ensures queried.Some? && store.StoreFailure? ==> sent == [Plain(500)]
    ensures queried.Some? && store.Rows? && FindUser(store.rows, token.subject).None? ==> sent == [Plain(404)]
    ensures queried.Some? && store.Rows? && FindUser(store.rows, token.subject).Some? ==>
      var u := FindUser(store.rows, token.subject).value;
      u.id == token.subject && u in store.rows && sent == [JsonReply(200, UserJson(u))]
    ensures |sent| <= 1
  {
    sent := [];
    queried := None;
    if token.Rejected? {
      sent := sent + [Unauthorized()];
      return;
    }
    if httpMethod == "GET" {
      queried := Some(token.subject);
      if store.StoreFailure? {
        sent := sent + [Plain(500)];
        return;
      }
      var user := FindUser(store.rows, token.subject);
      if user.None? {
        sent := sent + [Plain(404)];
        return;
      }
      sent := sent + [JsonReply(200, UserJson(user.value))];
    }
  }
}
