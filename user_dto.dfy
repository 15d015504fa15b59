/** The user schemas of `src/dto/user.ts`, the typed user record, and the lookup of a
    user by id that both the server (`findUnique`) and the client (`teams.find`) perform. */
module UserDto {
  import opened Wrappers
  import opened Json
  import Uuid

  datatype Role = Lead | Team

  function RoleName(r: Role): string {
    match r
    case Lead => "lead"
    case Team => "team"
  }

  /** `userRole` */
  predicate IsUserRole(v: Json) {
    v.JStr? && (v.s == "lead" || v.s == "team")
  }

  /** `userRole` accepts exactly the two role literals, and these are the names of the two roles. */
  lemma UserRoleExactly(v: Json)
    ensures IsUserRole(v) <==> v == JStr("lead") || v == JStr("team")
    ensures IsUserRole(v) <==> exists r: Role :: v == JStr(RoleName(r))
  {
    if v == JStr("lead") { assert v == JStr(RoleName(Lead)); }
    if v == JStr("team") { assert v == JStr(RoleName(Team)); }
  }

  /** `loginUserDTO`: an object whose `id` is a UUID string. */
  predicate IsLoginUser(v: Json) {
    v.JObj? && "id" in v.fields && v.fields["id"].JStr? && Uuid.IsUuid(v.fields["id"].s)
  }

  /** `loginUserDTO.safeParse(body)`: the id when the body is valid. */
  function ParseLogin(v: Json): (r: Option<string>)
    ensures r.Some? <==> IsLoginUser(v)
    ensures r.Some? ==> v.fields["id"] == JStr(r.value) && Uuid.IsUuid(r.value)
  {
    match Get(v, "id")
    case Some(JStr(id)) => if Uuid.IsUuid(id) then Some(id) else None
    case _ => None
  }

  /** A user, with its creation time as the ISO string the handlers send. */
  datatype User = User(id: string, name: string, role: Role, createdAt: string)

  /** The four fields a handler sends for a user. */
  function UserJson(u: User): Json {
    JObj(map["id" := JStr(u.id), "name" := JStr(u.name), "role" := JStr(RoleName(u.role)),
             "created_at" := JStr(u.createdAt)])
  }

  /** `userDTO`: a UUID id, a non-empty name, a role and a creation timestamp string. */
  predicate IsUserDto(v: Json) {
    && v.JObj?
    && "id" in v.fields && v.fields["id"].JStr? && Uuid.IsUuid(v.fields["id"].s)
    && "name" in v.fields && v.fields["name"].JStr? && |v.fields["name"].s| >= 1
    && "role" in v.fields && IsUserRole(v.fields["role"])
    && "created_at" in v.fields && v.fields["created_at"].JStr?
  }

  /** A user's JSON is a valid `userDTO` exactly when its id is a UUID and its name is not empty. */
  lemma UserJsonIsDto(u: User)
    ensures IsUserDto(UserJson(u)) <==> Uuid.IsUuid(u.id) && |u.name| >= 1
  {
    var f := UserJson(u).fields;
    assert f["id"] == JStr(u.id) && f["name"] == JStr(u.name);
    assert f["role"] == JStr(RoleName(u.role)) && f["created_at"] == JStr(u.createdAt);
  }

  /** The first user with the given id, or `None` when there is none. */
  function FindUser(users: seq<User>, id: string): (r: Option<User>)
    ensures r.None? <==> forall i :: 0 <= i < |users| ==> users[i].id != id
    ensures r.Some? ==> exists k :: 0 <= k < |users| && users[k] == r.value && r.value.id == id &&
                                    forall j :: 0 <= j < k ==> users[j].id != id
    decreases |users|
  {
    if users == [] then None
    else if users[0].id == id then Some(users[0])
    else
      var r := FindUser(users[1..], id);
      if r.Some? then
        ghost var k :| 0 <= k < |users[1..]| && users[1..][k] == r.value && r.value.id == id &&
                      forall j :: 0 <= j < k ==> users[1..][j].id != id;
        assert users[k + 1] == r.value;
        r
      else r
  }
}
