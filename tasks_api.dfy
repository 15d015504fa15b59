/** `/api/tasks` of `src/pages/api/tasks/index.ts`: list every task, or validate and
    insert one. No access token is checked. */
module TasksApi {
  import opened Wrappers
  import opened Json
  import opened TaskDto
  import opened Http
  import Seqs
  import Uuid

  /** A row of the task table. */
  datatype TaskRow = TaskRow(id: string, leadId: string, teamId: Option<string>, name: string,
                             description: Option<string>, status: TaskStatus,
                             createdAt: string, updatedAt: string)

  /** The data of a create: `lead_id` is the placeholder "", there is no team, and the
      description is left out unless the body has one. */
  datatype NewTask = NewTask(leadId: string, name: string, description: Option<string>, status: TaskStatus)

  /** The six DTO fields of a row; the lead and team ids are not sent. */
  function RowJson(row: TaskRow): (r: Json)
    ensures r.JObj? && r.fields.Keys == {"id", "name", "description", "status", "created_at", "updated_at"}
    ensures r.fields["id"] == JStr(row.id) && r.fields["name"] == JStr(row.name)
    ensures r.fields["description"] == NullableStr(row.description) && IsTaskStatus(r.fields["status"])
  {
    TaskJson(TaskData(row.id, row.name, row.description, row.status, row.createdAt, row.updatedAt))
  }

  /** A row's DTO is valid exactly when its id is a UUID and its name is non-empty. */
  lemma RowJsonIsDto(row: TaskRow)
    ensures IsTaskDto(RowJson(row)) <==> Uuid.IsUuid(row.id) && |row.name| >= 1
  {
    TaskJsonIsDto(TaskData(row.id, row.name, row.description, row.status, row.createdAt, row.updatedAt));
  }

  /** The data inserted for a body that passes `createTaskDTO`. */
  function NewTaskFor(c: CreateTask): (t: NewTask)
    ensures t.leadId == "" && t.name == c.name && t.description == c.description && t.status == c.status
  {
    NewTask("", c.name, c.description, c.status)
  }

  /** The handler. `store` is the unfiltered task table and `created` the row the insert
      returns. Returns every response sent and the data inserted, if any. GET lists every
      row in store order; POST answers 400 without inserting when the body fails the create
      schema, else inserts and answers 201 with the created row; a store exception is a 500;
      other methods get no response. */
  method TasksHandler(httpMethod: string, body: Json, store: Store<TaskRow>, created: Outcome<TaskRow>)
    returns (sent: seq<Response>, inserted: Option<NewTask>)
    ensures httpMethod != "GET" && httpMethod != "POST" ==> sent == [] && inserted.None?
    ensures httpMethod == "GET" && store.StoreFailure? ==> sent == [Plain(500)]
    ensures httpMethod == "GET" && store.Rows? ==>
      sent == [JsonReply(200, JArr(Seqs.Map(store.rows, RowJson)))]
    ensures inserted.Some? <==> httpMethod == "POST" && IsCreateTask(body)
    ensures httpMethod == "POST" && !IsCreateTask(body) ==> sent == [Plain(400)]
    ensures inserted.Some? ==>
      && inserted == Some(NewTaskFor(ParseCreateTask(body).value))
      && body.fields["name"] == JStr(inserted.value.name)
      && body.fields["status"] == JStr(StatusName(inserted.value.status))
      && (inserted.value.description.Some? <==> "description" in body.fields)
    ensures inserted.Some? ==>
      sent == (if created.Done? then [JsonReply(201, RowJson(created.value))] else [Plain(500)])
    ensures |sent| <= 1
  {
    sent := [];
    inserted := None;
    if httpMethod == "GET" {
      if store.StoreFailure? {
        sent := sent + [Plain(500)];
      } else {
        sent := sent + [JsonReply(200, JArr(Seqs.Map(store.rows, RowJson)))];
      }
    } else if httpMethod == "POST" {
      var result := ParseCreateTask(body);
      if result.None? {
        sent := sent + [Plain(400)];
        return;
      }
      inserted := Some(NewTaskFor(result.value));
      if created.Failed? {
        sent := sent + [Plain(500)];
      } else {
        sent := sent + [JsonReply(201, RowJson(created.value))];
      }
    }
  }
}
