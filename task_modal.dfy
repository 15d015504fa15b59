/** The create/update dialog of `src/components/TaskModal.tsx`: the form seeded from the
    task being edited, the "nothing changed" test of the submit button, the diff that an
    update sends, and the list updaters for 200 and 201 replies. */
module TaskModal {
  import opened Wrappers
  import opened Json
  import opened TaskDto
  import opened UserDto
  import opened TaskList
  import opened TaskForm
  import opened Axios
  import opened Toasts
  import Auth
  import Dashboard
  import DeleteTaskModal
  import Messages

  datatype Mode = CreateMode | UpdateMode

  /** A JavaScript value as the dialog compares it with `===`: `undefined`, `null` or a string. */
  datatype JsVal = Undefined | Null | Str(s: string)

  /** The form a dialog starts with: the task's fields, with "" for a missing description
      or team, or the empty form when there is no task. */
  function InitialForm(oldTask: Option<Task>): (f: FormData)
    ensures oldTask.None? ==> f == EmptyForm
    ensures oldTask.Some? ==> f.name == oldTask.value.name && f.status == StatusName(oldTask.value.status)
    ensures oldTask.Some? ==> f.description == if oldTask.value.description.Some? then oldTask.value.description.value else ""
    ensures oldTask.Some? ==> f.teamId == if oldTask.value.team.Some? then oldTask.value.team.value.id else ""
  {
    match oldTask
    case None => EmptyForm
    case Some(t) =>
      FormData(t.name, if t.description.Some? then t.description.value else "", StatusName(t.status),
               if t.team.Some? then t.team.value.id else "")
  }

  /** `oldTask?.name` */
  function OldName(oldTask: Option<Task>): JsVal {
    if oldTask.Some? then Str(oldTask.value.name) else Undefined
  }

  /** `oldTask?.description`: `null` for a task without one. */
  function OldDescription(oldTask: Option<Task>): JsVal {
    if oldTask.None? then Undefined
    else if oldTask.value.description.None? then Null
    else Str(oldTask.value.description.value)
  }

  /** `oldTask?.status` */
  function OldStatus(oldTask: Option<Task>): JsVal {
    if oldTask.Some? then Str(StatusName(oldTask.value.status)) else Undefined
  }

  /** `oldTask?.team?.id`: `undefined` for a task without a team. */
  function OldTeamId(oldTask: Option<Task>): JsVal {
    if oldTask.None? || oldTask.value.team.None? then Undefined else Str(oldTask.value.team.value.id)
  }

  /** `s || null` */
  function OrNull(s: string): JsVal {
    if s == "" then Null else Str(s)
  }

  /** `isButtonDisabled`: loading, an empty name, or all four form fields strictly equal to
      the task's values. */
  predicate IsButtonDisabled(isLoading: bool, f: FormData, oldTask: Option<Task>) {
    || isLoading
    || f.name == ""
    || (&& Str(f.name) == OldName(oldTask)
        && Str(f.description) == OldDescription(oldTask)
        && Str(f.status) == OldStatus(oldTask)
        && Str(f.teamId) == OldTeamId(oldTask))
  }

  /** For a task being edited, the button is disabled exactly when loading, when the name is
      empty, or when the task has both a description and a team and the form still holds its
      initial values. A form string never equals `null` or `undefined`, so for a task missing
      either, an untouched form keeps the button enabled. */
  lemma ButtonDisabledForTask(isLoading: bool, f: FormData, t: Task)
    ensures IsButtonDisabled(isLoading, f, Some(t)) <==>
      isLoading || f.name == "" || (t.description.Some? && t.team.Some? && f == InitialForm(Some(t)))
  {
    var init := InitialForm(Some(t));
    if t.description.Some? && t.team.Some? && f == init {
      assert Str(f.description) == OldDescription(Some(t));
      assert Str(f.teamId) == OldTeamId(Some(t));
    }
    if Str(f.name) == OldName(Some(t)) && Str(f.description) == OldDescription(Some(t)) &&
       Str(f.status) == OldStatus(Some(t)) && Str(f.teamId) == OldTeamId(Some(t)) {
      assert f == FormData(init.name, init.description, init.status, init.teamId);
    }
  }

  /** One entry of the diff: the old value first, the new second; `None` is JSON `null`. */
  datatype Change = Change(oldValue: Option<string>, newValue: Option<string>)

  /** The diff an update sends; an absent field is one that did not change. */
  datatype Changes = Changes(name: Option<Change>, description: Option<Change>,
                             status: Option<Change>, teamId: Option<Change>)

  const NoChanges := Changes(None, None, None, None)

  function ChangeJson(c: Change): Json {
    JObj(map["old_value" := NullableStr(c.oldValue), "new_value" := NullableStr(c.newValue)])
  }

  function EntryJson(c: Option<Change>): Option<Json> {
    if c.Some? then Some(ChangeJson(c.value)) else None
  }

  /** The diff as sent in the body of `PUT /api/tasks/<id>`. */
  function ChangesJson(c: Changes): Json {
    var m1 := OptionalField(map[], "name", EntryJson(c.name));
    var m2 := OptionalField(m1, "description", EntryJson(c.description));
    var m3 := OptionalField(m2, "status", EntryJson(c.status));
    JObj(OptionalField(m3, "team_id", EntryJson(c.teamId)))
  }

  /** `updateTaskDTO` takes flat values, the diff sends objects: a diff passes that schema
      exactly when it is empty. */
  lemma ChangesMeetUpdateSchema(c: Changes)
    ensures IsUpdateTask(ChangesJson(c)) <==> c == NoChanges
  {
    var m1 := OptionalField(map[], "name", EntryJson(c.name));
    var m2 := OptionalField(m1, "description", EntryJson(c.description));
    var m3 := OptionalField(m2, "status", EntryJson(c.status));
    var f := ChangesJson(c).fields;
    assert c.name.Some? ==> "name" in f && f["name"].JObj?;
    assert c.description.Some? ==> "description" in f && f["description"].JObj?;
    assert c.status.Some? ==> "status" in f && f["status"].JObj?;
    assert c.teamId.Some? ==> "team_id" in f && f["team_id"].JObj?;
    if c == NoChanges {
      assert f == map[];
    }
  }

  /** `c` is the diff `handleSubmit` sends for form `f` and the edited task. Each field is
      present exactly when its (normalised) form value differs from the task's, recording the
      old value first. A description or team id of "" is compared and sent as `null`. A
      missing task compares as `undefined`, so every field is present. */
  predicate IsDiffOf(f: FormData, oldTask: Option<Task>, c: Changes) {
    && (c.name.Some? <==> oldTask.None? || f.name != oldTask.value.name)
    && (c.name.Some? ==>
          c.name.value == Change(Some(if oldTask.Some? then oldTask.value.name else ""), Some(f.name)))
    && (c.description.Some? <==> oldTask.None? || NonEmpty(f.description) != oldTask.value.description)
    && (c.description.Some? ==>
          c.description.value == Change(if oldTask.Some? then oldTask.value.description else None, NonEmpty(f.description)))
    && (c.status.Some? <==> oldTask.None? || f.status != StatusName(oldTask.value.status))
    && (c.status.Some? ==>
          c.status.value == Change(Some(if oldTask.Some? then StatusName(oldTask.value.status) else "not_started"), Some(f.status)))
    && (c.teamId.Some? <==>
          oldTask.None? || oldTask.value.team.None? || NonEmpty(f.teamId) != Some(oldTask.value.team.value.id))
    && (c.teamId.Some? ==>
          c.teamId.value ==
            Change(if oldTask.Some? && oldTask.value.team.Some? then Some(oldTask.value.team.value.id) else None, NonEmpty(f.teamId)))
  }

  /** The diff of the untouched form of a task is empty exactly when the task's description
      is missing or non-empty and it has a team with a non-empty id: `s || null` turns "" into
      `null`, which equals a missing description but not an empty one, and never equals the
      `undefined` of a missing team. */
  lemma UntouchedDiff(t: Task, c: Changes)
    requires IsDiffOf(InitialForm(Some(t)), Some(t), c)
    ensures c == NoChanges <==>
      (t.description.None? || t.description.value != "") && t.team.Some? && t.team.value.id != ""
  {
    var f := InitialForm(Some(t));
    if t.description.None? || t.description.value != "" {
      assert NonEmpty(f.description) == t.description;
    }
    if t.team.Some? && t.team.value.id != "" {
      assert NonEmpty(f.teamId) == Some(t.team.value.id);
    }
  }

  /** `handleSubmit`'s diff, built field by field as the source assigns into `changes`.
      A task without a team always yields a `team_id` entry, because `null` differs from the
      `undefined` of `oldTask?.team?.id`. */
  method BuildChanges(f: FormData, oldTask: Option<Task>) returns (changes: Changes)
    ensures IsDiffOf(f, oldTask, changes)
    ensures oldTask.Some? && oldTask.value.team.None? && f.teamId == "" ==> changes.teamId == Some(Change(None, None))
    ensures IsUpdateTask(ChangesJson(changes)) <==> changes == NoChanges
  {
    changes := NoChanges;
    if Str(f.name) != OldName(oldTask) {
      changes := changes.(name := Some(Change(Some(if oldTask.Some? then oldTask.value.name else ""), Some(f.name))));
    }
    if OrNull(f.description) != OldDescription(oldTask) {
      var oldDescription := if oldTask.Some? then oldTask.value.description else None;
      changes := changes.(description := Some(Change(oldDescription, NonEmpty(f.description))));
    }
    if Str(f.status) != OldStatus(oldTask) {
      var oldStatus := if oldTask.Some? then StatusName(oldTask.value.status) else "not_started";
      changes := changes.(status := Some(Change(Some(oldStatus), Some(f.status))));
    }
    if OrNull(f.teamId) != OldTeamId(oldTask) {
      var oldTeam := if oldTask.Some? && oldTask.value.team.Some? then Some(oldTask.value.team.value.id) else None;
      changes := changes.(teamId := Some(Change(oldTeam, NonEmpty(f.teamId))));
    }
    ChangesMeetUpdateSchema(changes);
  }

  /** The team of the updated entry: none for an empty selection; for a lead the fetched team
      member with that id (as on create); for anyone else the task's old team. */
  function UpdatedTeam(teamId: string, user: Option<User>, teams: seq<User>, oldTeam: Option<User>): (r: Option<User>)
    ensures teamId == "" ==> r.None?
    ensures user.Some? && user.value.role == Lead ==> r == TeamFor(teamId, teams)
    ensures teamId != "" && !(user.Some? && user.value.role == Lead) ==> r == oldTeam
  {
    if teamId == "" then None
    else if user.Some? && user.value.role == Lead then FindUser(teams, teamId)
    else oldTeam
  }

  /** The 200 updater: the same entries in the same order, with the entry whose id is the
      edited task's replaced by the server's task and the given team. */
  function ReplaceUpdated(tasks: seq<Task>, oldId: Option<string>, d: TaskData, team: Option<User>): (r: seq<Task>)
    ensures |r| == |tasks|
    ensures forall i :: 0 <= i < |tasks| ==> r[i] == if oldId == Some(tasks[i].id) then WithTeam(d, team) else tasks[i]
    decreases |tasks|
  {
    if tasks == [] then []
    else [if oldId == Some(tasks[0].id) then WithTeam(d, team) else tasks[0]] + ReplaceUpdated(tasks[1..], oldId, d, team)
  }

  /** When no entry has the edited id (or there is no edited task), the 200 updater changes
      nothing. */
  lemma ReplaceAbsent(tasks: seq<Task>, oldId: Option<string>, d: TaskData, team: Option<User>)
    requires forall i :: 0 <= i < |tasks| ==> oldId != Some(tasks[i].id)
    ensures ReplaceUpdated(tasks, oldId, d, team) == tasks
  {
    var r := ReplaceUpdated(tasks, oldId, d, team);
    assert forall i :: 0 <= i < |tasks| ==> r[i] == tasks[i];
  }

  /** Updating an entry in place and then deleting it leaves what deleting it alone leaves,
      when the server keeps the task's id. */
  lemma {:induction false} UpdateThenDelete(tasks: seq<Task>, id: string, d: TaskData, team: Option<User>)
    requires d.id == id
    ensures DeleteTaskModal.RemoveTask(ReplaceUpdated(tasks, Some(id), d, team), id) == DeleteTaskModal.RemoveTask(tasks, id)
    decreases |tasks|
  {
    if tasks != [] {
      var r := ReplaceUpdated(tasks, Some(id), d, team);
      UpdateThenDelete(tasks[1..], id, d, team);
      assert r[1..] == ReplaceUpdated(tasks[1..], Some(id), d, team);
      assert (r[0].id == id) <==> (tasks[0].id == id);
      assert r[0] != tasks[0] ==> tasks[0].id == id;
    }
  }

  /** The toast text the dialog shows for a reply; any unlisted status (a 204 among them),
      a 5xx or no reply ends in the `catch` branch. */
  function SubmitMessage(reply: Reply<TaskData>): string {
    if Delivers(reply, 200) then Messages.UpdatedTask
    else if Delivers(reply, 201) then Messages.CreatedTask
    else if Delivers(reply, 400) then Messages.InvalidTask
    else if Delivers(reply, 401) then Messages.SessionExpired
    else if Delivers(reply, 403) then Messages.AccessDenied
    else if Delivers(reply, 404) then Messages.TaskNotFound
    else Messages.ServerFailure
  }

  /** The path of `PUT /api/tasks/${oldTask?.id}`. */
  function TaskUrl(oldTask: Option<Task>): string {
    "/api/tasks/" + if oldTask.Some? then oldTask.value.id else "undefined"
  }

  class TaskModal {
    const mode: Mode
    const oldTask: Option<Task>
    var isLoading: bool
    var teams: seq<User>
    var formData: FormData
    /** the owner's modal flag, which `setIsModalOpen` changes */
    var isOpen: bool

    constructor (mode: Mode, oldTask: Option<Task>)
      ensures this.mode == mode && this.oldTask == oldTask
      ensures formData == InitialForm(oldTask) && !isLoading && teams == [] && isOpen
    {
      this.mode := mode;
      this.oldTask := oldTask;
      isLoading := false;
      teams := [];
      formData := InitialForm(oldTask);
      isOpen := true;
    }

    /** `handleInputChange`: exactly the named field takes the value. */
    method HandleInputChange(field: Field, value: string)
      modifies this`formData
      ensures formData == SetField(old(formData), field, value)
    {
      formData := SetField(formData, field, value);
    }

    /** The teams effect: only for a lead, `GET /api/teams` with the same dispatch as the
        create dialog; loading ends afterwards. For anyone else nothing happens. */
    method LoadTeams(reply: Reply<seq<User>>, auth: Auth.AuthProvider, toaster: Toaster, toastId: string)
      modifies this`teams, this`isLoading, auth`user, toaster
      ensures var lead := old(auth.user).Some? && old(auth.user).value.role == Lead;
        && isLoading == (if lead then false else old(isLoading))
        && teams == (if lead && Delivers(reply, 200) then reply.data else old(teams))
        && auth.user == (if lead && Delivers(reply, 401) then None else old(auth.user))
        && toaster.toasts == (if !lead || Delivers(reply, 200) then old(toaster.toasts)
                              else Added(old(toaster.toasts), toastId, TeamsMessage(reply), Error, None))
        && toaster.timers == (if !lead || Delivers(reply, 200) then old(toaster.timers)
                              else ScheduledDefault(old(toaster.timers), toastId))
    {
      if auth.user.Some? && auth.user.value.role == Lead {
        isLoading := true;
        if Delivers(reply, 200) {
          teams := reply.data;
        } else if Delivers(reply, 401) {
          toaster.AddToast(toastId, Messages.SessionExpired, Error, None);
          auth.user := None;
        } else if Delivers(reply, 403) {
          toaster.AddToast(toastId, Messages.AccessDenied, Error, None);
        } else {
          toaster.AddToast(toastId, Messages.ServerFailure, Error, None);
        }
        isLoading := false;
      }
    }

    /** `handleSubmit`: a POST of the create payload or a PUT of the diff, then the status
        dispatch. 200 replaces the edited entry, 201 appends one entry, and both close the
        dialog; only 401 signs the user out; exactly one toast is shown; loading ends in every
        case. Returns the request sent and, for an update, the diff in it. */
    method HandleSubmit(reply: Reply<TaskData>, home: Dashboard.Home, auth: Auth.AuthProvider,
                        toaster: Toaster, toastId: string) returns (request: Request<Json>, sent: Changes)
      modifies this`isLoading, this`isOpen, home`tasks, auth`user, toaster
      ensures mode == CreateMode ==> request == Request("POST", "/api/tasks", PayloadJson(CreatePayload(formData)))
      ensures mode == CreateMode ==> sent == NoChanges
      ensures mode == UpdateMode ==> request == Request("PUT", TaskUrl(oldTask), ChangesJson(sent))
      ensures mode == UpdateMode ==> IsDiffOf(formData, oldTask, sent)
      ensures mode == UpdateMode ==> (IsUpdateTask(request.body) <==> sent == NoChanges)
      ensures mode == UpdateMode && oldTask.Some? && oldTask.value.team.None? ==> sent.teamId.Some?
      ensures !isLoading
      ensures home.tasks ==
        if Delivers(reply, 200) then
          ReplaceUpdated(old(home.tasks), if oldTask.Some? then Some(oldTask.value.id) else None, reply.data,
                         UpdatedTeam(formData.teamId, old(auth.user), teams, if oldTask.Some? then oldTask.value.team else None))
        else if Delivers(reply, 201) then AppendCreated(old(home.tasks), reply.data, formData.teamId, teams)
        else old(home.tasks)
      ensures isOpen == if Delivers(reply, 200) || Delivers(reply, 201) then false else old(isOpen)
      ensures auth.user == if Delivers(reply, 401) then None else old(auth.user)
      ensures toaster.toasts == Added(old(toaster.toasts), toastId, SubmitMessage(reply),
                                      if Delivers(reply, 200) || Delivers(reply, 201) then Success else Error, None)
      ensures toaster.timers == ScheduledDefault(old(toaster.timers), toastId)
    {
      isLoading := true;
      sent := NoChanges;
      if mode == CreateMode {
        request := Request("POST", "/api/tasks", PayloadJson(CreatePayload(formData)));
      } else {
        sent := BuildChanges(formData, oldTask);
        request := Request("PUT", TaskUrl(oldTask), ChangesJson(sent));
      }
      if Delivers(reply, 200) {
        toaster.AddToast(toastId, Messages.UpdatedTask, Success, None);
        var team := UpdatedTeam(formData.teamId, auth.user, teams, if oldTask.Some? then oldTask.value.team else None);
        home.tasks := ReplaceUpdated(home.tasks, if oldTask.Some? then Some(oldTask.value.id) else None, reply.data, team);
        isOpen := false;
      } else if Delivers(reply, 201) {
        toaster.AddToast(toastId, Messages.CreatedTask, Success, None);
        home.tasks := AppendCreated(home.tasks, reply.data, formData.teamId, teams);
        isOpen := false;
      } else if Delivers(reply, 400) {
        toaster.AddToast(toastId, Messages.InvalidTask, Error, None);
      } else if Delivers(reply, 401) {
        toaster.AddToast(toastId, Messages.SessionExpired, Error, None);
        auth.user := None;
      } else if Delivers(reply, 403) {
        toaster.AddToast(toastId, Messages.AccessDenied, Error, None);
      } else if Delivers(reply, 404) {
        toaster.AddToast(toastId, Messages.TaskNotFound, Error, None);
      } else {
        toaster.AddToast(toastId, Messages.ServerFailure, Error, None);
      }
      isLoading := false;
    }
  }
}
