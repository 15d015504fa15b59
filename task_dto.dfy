/** The task schemas of `src/dto/task.ts`, as predicates over JSON values, with the
    typed records that a successful parse yields. */
module TaskDto {
  import opened Wrappers
  import opened Json
  import Uuid

  datatype TaskStatus = NotStarted | OnProgress | Done | Reject

  /** The wire literal of each status. */
  function StatusName(st: TaskStatus): string {
    match st
    case NotStarted => "not_started"
    case OnProgress => "on_progress"
    case Done => "done"
    case Reject => "reject"
  }

  /** The status a literal names, if any. */
  function ParseStatus(s: string): (r: Option<TaskStatus>)
    ensures r.Some? ==> StatusName(r.value) == s
    ensures r.None? ==> forall st: TaskStatus :: StatusName(st) != s
  {
    if s == "not_started" then Some(NotStarted)
    else if s == "on_progress" then Some(OnProgress)
    else if s == "done" then Some(Done)
    else if s == "reject" then Some(Reject)
    else None
  }

  /** Parsing a status literal gives back that status. */
  lemma ParseStatusName(st: TaskStatus)
    ensures ParseStatus(StatusName(st)) == Some(st)
  {
  }

  /** `taskStatus` */
  predicate IsTaskStatus(v: Json) {
    v.JStr? && ParseStatus(v.s).Some?
  }

  /** `taskStatus` accepts the four literals and nothing else. */
  lemma TaskStatusExactly(v: Json)
    ensures IsTaskStatus(v) <==>
      v == JStr("not_started") || v == JStr("on_progress") || v == JStr("done") || v == JStr("reject")
  {
  }

  /** `z.string().min(1)` */
  predicate IsNonEmptyString(v: Json) {
    v.JStr? && |v.s| >= 1
  }

  /** What a successful `createTaskDTO.safeParse` yields: unknown keys are stripped. */
  datatype CreateTask = CreateTask(name: string, description: Option<string>, status: TaskStatus)

  /** `createTaskDTO`: a non-empty name, an optional string description and a status. */
  predicate IsCreateTask(v: Json) {
    && v.JObj?
    && "name" in v.fields && IsNonEmptyString(v.fields["name"])
    && ("description" in v.fields ==> v.fields["description"].JStr?)
    && "status" in v.fields && IsTaskStatus(v.fields["status"])
  }

  /** `createTaskDTO.safeParse(body)`: the typed data when the body is valid. */
  function ParseCreateTask(v: Json): (r: Option<CreateTask>)
    ensures r.Some? <==> IsCreateTask(v)
    ensures r.Some? ==> v.fields["name"] == JStr(r.value.name) && |r.value.name| >= 1
    ensures r.Some? ==> v.fields["status"] == JStr(StatusName(r.value.status))
    ensures r.Some? ==> (r.value.description.Some? <==> "description" in v.fields)
    ensures r.Some? && r.value.description.Some? ==> v.fields["description"] == JStr(r.value.description.value)
  {
    match (Get(v, "name"), Get(v, "description"), Get(v, "status"))
    case (Some(JStr(name)), None, Some(JStr(st))) =>
      if |name| >= 1 && ParseStatus(st).Some? then Some(CreateTask(name, None, ParseStatus(st).value)) else None
    case (Some(JStr(name)), Some(JStr(d)), Some(JStr(st))) =>
      if |name| >= 1 && ParseStatus(st).Some? then Some(CreateTask(name, Some(d), ParseStatus(st).value)) else None
    case _ => None
  }

  /** The JSON body of a create request. */
  function CreateTaskJson(c: CreateTask): Json {
    JObj(OptionalField(map["name" := JStr(c.name), "status" := JStr(StatusName(c.status))],
                       "description", if c.description.Some? then Some(JStr(c.description.value)) else None))
  }

  /** A create body with a non-empty name parses back to itself. */
  lemma CreateTaskRoundTrip(c: CreateTask)
    requires |c.name| >= 1
    ensures ParseCreateTask(CreateTaskJson(c)) == Some(c)
  {
    var v := CreateTaskJson(c);
    assert Get(v, "name") == Some(JStr(c.name));
    assert Get(v, "status") == Some(JStr(StatusName(c.status)));
    ParseStatusName(c.status);
  }

  /** `createTaskDTO` has no `team_id`: whatever a body carries under that key changes
      neither whether it is valid nor what it parses to. */
  lemma CreateTaskIgnoresTeam(m: map<string, Json>, team: Json)
    ensures ParseCreateTask(JObj(m["team_id" := team])) == ParseCreateTask(JObj(m))
  {
    var m' := m["team_id" := team];
    assert Get(JObj(m'), "name") == Get(JObj(m), "name");
    assert Get(JObj(m'), "description") == Get(JObj(m), "description");
    assert Get(JObj(m'), "status") == Get(JObj(m), "status");
  }

  /** `updateTaskDTO`: every field optional; a present team id is a UUID string, a present
      name a non-empty string, a present description a string, a present status a status. */
  predicate IsUpdateTask(v: Json) {
    && v.JObj?
    && ("team_id" in v.fields ==> v.fields["team_id"].JStr? && Uuid.IsUuid(v.fields["team_id"].s))
    && ("name" in v.fields ==> IsNonEmptyString(v.fields["name"]))
    && ("description" in v.fields ==> v.fields["description"].JStr?)
    && ("status" in v.fields ==> IsTaskStatus(v.fields["status"]))
  }

  /** The empty object is a valid update, and a non-object never is. */
  lemma EmptyUpdateIsValid(v: Json)
    ensures IsUpdateTask(JObj(map[]))
    ensures !v.JObj? ==> !IsUpdateTask(v)
  {
  }

  /** A task as `taskDTO` describes it. */
  datatype TaskData = TaskData(id: string, name: string, description: Option<string>,
                               status: TaskStatus, createdAt: string, updatedAt: string)

  /** The JSON object of a task, with a `null` description when there is none. */
  function TaskJson(t: TaskData): Json {
    JObj(map["id" := JStr(t.id), "name" := JStr(t.name), "description" := NullableStr(t.description),
             "status" := JStr(StatusName(t.status)), "created_at" := JStr(t.createdAt),
             "updated_at" := JStr(t.updatedAt)])
  }

  /** `taskDTO`: a UUID id, a non-empty name, a description that is present but may be
      `null`, a status and two timestamp strings. */
  predicate IsTaskDto(v: Json) {
    && v.JObj?
    && "id" in v.fields && v.fields["id"].JStr? && Uuid.IsUuid(v.fields["id"].s)
    && "name" in v.fields && IsNonEmptyString(v.fields["name"])
    && "description" in v.fields && (v.fields["description"].JNull? || v.fields["description"].JStr?)
    && "status" in v.fields && IsTaskStatus(v.fields["status"])
    && "created_at" in v.fields && v.fields["created_at"].JStr?
    && "updated_at" in v.fields && v.fields["updated_at"].JStr?
  }

  /** A task's JSON is a valid `taskDTO` exactly when its id is a UUID and its name is not empty. */
  lemma TaskJsonIsDto(t: TaskData)
    ensures IsTaskDto(TaskJson(t)) <==> Uuid.IsUuid(t.id) && |t.name| >= 1
  {
    var f := TaskJson(t).fields;
    assert f["id"] == JStr(t.id) && f["name"] == JStr(t.name);
    assert f["description"] == NullableStr(t.description);
    assert f["status"] == JStr(StatusName(t.status));
    assert f["created_at"] == JStr(t.createdAt) && f["updated_at"] == JStr(t.updatedAt);
  }
}
