/** `/api/teams` of `src/pages/api/teams.ts`: token, then role, then method. */
module Teams {
  import opened Json
  import opened UserDto
  import opened Http
  import Seqs

  function RoleIs(role: Role): User -> bool {
    (u: User) => u.role == role
  }

  /** The team listing: the `team` users in store order, each projected to its DTO. */
  function TeamListing(users: seq<User>): (r: seq<Json>)
    ensures var team := Seqs.Filter(users, RoleIs(Team));
      |r| == |team| && forall i :: 0 <= i < |team| ==> r[i] == UserJson(team[i])
  {
    Seqs.Map(Seqs.Filter(users, RoleIs(Team)), UserJson)
  }

  /** The listing holds the DTO of every team user and of no lead, in store order. */
  lemma TeamListingExact(users: seq<User>)
    ensures forall i :: 0 <= i < |users| ==> (UserJson(users[i]) in TeamListing(users) <==> users[i].role == Team)
    ensures Seqs.IsSubsequence(Seqs.Filter(users, RoleIs(Team)), users)
    ensures forall j :: 0 <= j < |TeamListing(users)| ==> TeamListing(users)[j].fields["role"] == JStr("team")
  {
    var team := Seqs.Filter(users, RoleIs(Team));
    var r := TeamListing(users);
    forall i | 0 <= i < |users|
      ensures UserJson(users[i]) in r <==> users[i].role == Team
    {
      if users[i].role == Team {
        assert RoleIs(Team)(users[i]);
        var k :| 0 <= k < |team| && team[k] == users[i];
        assert r[k] == UserJson(users[i]);
      }
      if UserJson(users[i]) in r {
        var k :| 0 <= k < |r| && r[k] == UserJson(users[i]);
        assert RoleIs(Team)(team[k]);
        assert UserJson(team[k]).fields["role"] == UserJson(users[i]).fields["role"];
      }
    }
    forall j | 0 <= j < |r|
      ensures r[j].fields["role"] == JStr("team")
    {
      assert RoleIs(Team)(team[j]);
    }
    Seqs.FilterIsSubsequence(users, RoleIs(Team));
  }

  /** The handler. Returns every response sent and whether the store was read. A rejected
      token gets 401 with the cleared cookie whatever the method; a non-lead gets 403; only a
      lead's GET reads the store; a lead's other methods get no response. */
  method TeamsHandler(httpMethod: string, token: TokenCheck, store: Store<User>)
    returns (sent: seq<Response>, queried: bool)
    ensures token.Rejected? ==> sent == [Unauthorized()] && !queried
    ensures token.Verified? && token.role != "lead" ==> sent == [Plain(403)] && !queried
    ensures queried <==> token.Verified? && token.role == "lead" && httpMethod == "GET"
    ensures token.Verified? && token.role == "lead" && httpMethod != "GET" ==> sent == []
    ensures queried && store.StoreFailure? ==> sent == [Plain(500)]
    ensures queried && store.Rows? ==> sent == [JsonReply(200, JArr(TeamListing(store.rows)))]
    ensures |sent| <= 1
  {
    sent := [];
    queried := false;
    if token.Rejected? {
      sent := sent + [Unauthorized()];
      return;
    }
    if token.role != "lead" {
      sent := sent + [Plain(403)];
      return;
    }
    if httpMethod == "GET" {
      queried := true;
      if store.StoreFailure? {
        sent := sent + [Plain(500)];
      } else {
        sent := sent + [JsonReply(200, JArr(TeamListing(store.rows)))];
      }
    }
  }
}
