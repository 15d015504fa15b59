/** The form state of the two task modals, its change handler, and the create payload
    they send (`src/components/CreateTaskModal.tsx`, `src/components/TaskModal.tsx`). */
module TaskForm {
  import opened Wrappers
  import opened Json
  import opened TaskDto
  import opened UserDto
  import opened Axios
  import Messages

  /** The form fields, all strings as the inputs deliver them. */
  datatype FormData = FormData(name: string, description: string, status: string, teamId: string)

  /** The fields, named by the `name` attribute of their input element. */
  datatype Field = NameField | DescriptionField | StatusField | TeamIdField

  /** The form of a new task. */
  const EmptyForm := FormData("", "", "not_started", "")

  function FieldValue(f: FormData, field: Field): string {
    match field
    case NameField => f.name
    case DescriptionField => f.description
    case StatusField => f.status
    case TeamIdField => f.teamId
  }

  /** `handleInputChange`: `{ ...formData, [name]: value }`. */
  function SetField(f: FormData, field: Field, value: string): (r: FormData)
    ensures FieldValue(r, field) == value
    ensures forall other :: other != field ==> FieldValue(r, other) == FieldValue(f, other)
  {
    match field
    case NameField => f.(name := value)
    case DescriptionField => f.(description := value)
    case StatusField => f.(status := value)
    case TeamIdField => f.(teamId := value)
  }

  /** `s || undefined` (and `s || null`) for a string: nothing for the empty string. */
  function NonEmpty(s: string): (r: Option<string>)
    ensures r.None? <==> s == ""
    ensures r.Some? ==> r.value == s
  {
    if s == "" then None else Some(s)
  }

  /** The body of `POST /api/tasks`, typed as the client's `CreateTaskDTO` with `team_id`. */
  datatype Payload = Payload(name: string, status: string, description: Option<string>, teamId: Option<string>)

  /** The create payload: name and status as typed, an empty description or team id left out. */
  function CreatePayload(f: FormData): (p: Payload)
    ensures p.name == f.name && p.status == f.status
    ensures p.description == NonEmpty(f.description) && p.teamId == NonEmpty(f.teamId)
  {
    Payload(f.name, f.status, NonEmpty(f.description), NonEmpty(f.teamId))
  }

  /** The payload as sent; fields that are `undefined` are not serialised. */
  function PayloadJson(p: Payload): Json {
    var base := map["name" := JStr(p.name), "status" := JStr(p.status)];
    var withDescription := OptionalField(base, "description", if p.description.Some? then Some(JStr(p.description.value)) else None);
    JObj(OptionalField(withDescription, "team_id", if p.teamId.Some? then Some(JStr(p.teamId.value)) else None))
  }

  /** What the server's `createTaskDTO` makes of a form's payload: it is accepted exactly when
      the name is not empty and the status is one of the four literals, the description comes
      through only when it is not empty, and the selected team never comes through. */
  lemma PayloadMeetsCreateSchema(f: FormData)
    ensures ParseCreateTask(PayloadJson(CreatePayload(f))) ==
      if f.name != "" && ParseStatus(f.status).Some?
      then Some(CreateTask(f.name, NonEmpty(f.description), ParseStatus(f.status).value))
      else None
  {
    var p := CreatePayload(f);
    var base := map["name" := JStr(p.name), "status" := JStr(p.status)];
    var withDescription := OptionalField(base, "description", if p.description.Some? then Some(JStr(p.description.value)) else None);
    if p.teamId.Some? {
      CreateTaskIgnoresTeam(withDescription, JStr(p.teamId.value));
    }
    var v := JObj(withDescription);
    assert Get(v, "name") == Some(JStr(f.name));
    assert Get(v, "status") == Some(JStr(f.status));
    assert Get(v, "description") == if p.description.Some? then Some(JStr(f.description)) else None;
  }

  /** The toast text both dialogs show for the `GET /api/teams` reply; a 200 shows none,
      and any unlisted status, a 5xx or no reply ends in the `catch` branch. */
  function TeamsMessage(reply: Reply<seq<User>>): string {
    if Delivers(reply, 401) then Messages.SessionExpired
    else if Delivers(reply, 403) then Messages.AccessDenied
    else Messages.ServerFailure
  }
}
