/** The create dialog of `src/components/CreateTaskModal.tsx`. */
module CreateTaskModal {
  import opened Wrappers
  import opened Json
  import opened TaskDto
  import opened UserDto
  import opened TaskList
  import opened TaskForm
  import opened Axios
  import opened Toasts
  import Auth
  import Dashboard
  import Messages

  /** The submit button is disabled while loading and while the name is empty. */
  predicate SubmitDisabled(isLoading: bool, f: FormData) {
    isLoading || f.name == ""
  }

  /** An enabled submit on a form whose status came from the status select sends a body
      that the server's `createTaskDTO` accepts. */
  lemma EnabledSubmitIsAccepted(f: FormData)
    requires !SubmitDisabled(false, f) && ParseStatus(f.status).Some?
    ensures IsCreateTask(PayloadJson(CreatePayload(f)))
  {
    PayloadMeetsCreateSchema(f);
  }

  /** The toast text the create dialog shows for a reply; any unlisted status, a 5xx or no
      reply ends in the `catch` branch. */
  function CreateMessage(reply: Reply<TaskData>): string {
    if Delivers(reply, 201) then Messages.CreatedTask
    else if Delivers(reply, 400) then Messages.InvalidTask
    else if Delivers(reply, 401) then Messages.SessionExpired
    else if Delivers(reply, 403) then Messages.AccessDenied
    else Messages.ServerFailure
  }

  class CreateTaskModal {
    var isLoading: bool
    var teams: seq<User>
    var formData: FormData
    /** the owner's modal flag, which `setIsModalOpen` changes */
    var isOpen: bool

    constructor ()
      ensures isLoading && teams == [] && formData == EmptyForm && isOpen
    {
      isLoading := true;
      teams := [];
      formData := EmptyForm;
      isOpen := true;
    }

    /** The mount effect: `GET /api/teams`. 200 stores the teams, 401 reports and signs the
        user out, 403 reports, anything else reports a server failure; loading ends whatever
        the outcome. */
    method LoadTeams(reply: Reply<seq<User>>, auth: Auth.AuthProvider, toaster: Toaster, toastId: string)
      modifies this`teams, this`isLoading, auth`user, toaster
      ensures !isLoading
      ensures teams == if Delivers(reply, 200) then reply.data else old(teams)
      ensures auth.user == if Delivers(reply, 401) then None else old(auth.user)
      ensures toaster.toasts == if Delivers(reply, 200) then old(toaster.toasts)
                                else Added(old(toaster.toasts), toastId, TeamsMessage(reply), Error, None)
      ensures toaster.timers ==
        if Delivers(reply, 200) then old(toaster.timers) else ScheduledDefault(old(toaster.timers), toastId)
    {
      if Delivers(reply, 200) {
        teams := reply.data;
      } else if Delivers(reply, 401) {
        toaster.AddToast(toastId, Messages.SessionExpired, Error, None);
        auth.user := None;
      } else if Delivers(reply, 403) {
        toaster.AddToast(toastId, Messages.AccessDenied, Error, None);
      } else {
        toaster.AddToast(toastId, Messages.ServerFailure, Error, None);
      }
      isLoading := false;
    }

    /** `handleInputChange`: exactly the named field takes the value. */
    method HandleInputChange(field: Field, value: string)
      modifies this`formData
      ensures formData == SetField(old(formData), field, value)
    {
      formData := SetField(formData, field, value);
    }

    /** `handleSubmit`: `POST /api/tasks` with the create payload, then the status dispatch.
        Only 201 changes the list, by appending one entry, and closes the dialog; only 401
        signs the user out; exactly one toast is shown; loading ends in every case.
        Returns the request sent. */
    method HandleSubmit(reply: Reply<TaskData>, home: Dashboard.Home, auth: Auth.AuthProvider,
                        toaster: Toaster, toastId: string) returns (request: Request<Json>)
      modifies this`isLoading, this`isOpen, home`tasks, auth`user, toaster
      ensures request == Request("POST", "/api/tasks", PayloadJson(CreatePayload(formData)))
      ensures !isLoading
      ensures home.tasks == if Delivers(reply, 201) then AppendCreated(old(home.tasks), reply.data, formData.teamId, teams)
                            else old(home.tasks)
      ensures isOpen == if Delivers(reply, 201) then false else old(isOpen)
      ensures auth.user == if Delivers(reply, 401) then None else old(auth.user)
      ensures toaster.toasts == Added(old(toaster.toasts), toastId, CreateMessage(reply),
                                      if Delivers(reply, 201) then Success else Error, None)
      ensures toaster.timers == ScheduledDefault(old(toaster.timers), toastId)
    {
      isLoading := true;
      request := Request("POST", "/api/tasks", PayloadJson(CreatePayload(formData)));
      if Delivers(reply, 201) {
        toaster.AddToast(toastId, Messages.CreatedTask, Success, None);
        home.tasks := AppendCreated(home.tasks, reply.data, formData.teamId, teams);
        isOpen := false;
      } else if Delivers(reply, 400) {
        toaster.AddToast(toastId, Messages.InvalidTask, Error, None);
      } else if Delivers(reply, 401) {
        toaster.AddToast(toastId, Messages.SessionExpired, Error, None);
        auth.user := None;
      } else if Delivers(reply, 403) {
        toaster.AddToast(toastId, Messages.AccessDenied, Error, None);
      } else {
        toaster.AddToast(toastId, Messages.ServerFailure, Error, None);
      }
      isLoading := false;
    }
  }
}
