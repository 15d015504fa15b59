/** The delete dialog of `src/components/DeleteTaskModal.tsx`. */
module DeleteTaskModal {
  import opened Wrappers
  import opened TaskDto
  import opened UserDto
  import opened TaskList
  import opened Axios
  import opened Toasts
  import Auth
  import Dashboard
  import Messages
  import Seqs

  function IdIsNot(id: string): Task -> bool {
    (t: Task) => t.id != id
  }

  /** The 204 updater: `tasks.filter((task) => task.id !== id)`. No entry with that id is
      left, and every other entry is kept. */
  function RemoveTask(tasks: seq<Task>, id: string): (r: seq<Task>)
    ensures |r| <= |tasks|
    ensures forall i :: 0 <= i < |r| ==> r[i].id != id && r[i] in tasks
    ensures forall i :: 0 <= i < |tasks| && tasks[i].id != id ==> tasks[i] in r
  {
    Seqs.Filter(tasks, IdIsNot(id))
  }

  /** The survivors keep their original order and multiplicity. */
  lemma RemoveTaskKeepsOrder(tasks: seq<Task>, id: string, t: Task)
    ensures Seqs.IsSubsequence(RemoveTask(tasks, id), tasks)
    ensures multiset(RemoveTask(tasks, id))[t] == if t.id != id then multiset(tasks)[t] else 0
  {
    Seqs.FilterIsSubsequence(tasks, IdIsNot(id));
    Seqs.FilterCount(tasks, IdIsNot(id), t);
  }

  /** Removing an id that is not in the list changes nothing; removing twice is removing once. */
  lemma RemoveTaskAbsentAndTwice(tasks: seq<Task>, id: string)
    ensures (forall i :: 0 <= i < |tasks| ==> tasks[i].id != id) ==> RemoveTask(tasks, id) == tasks
    ensures RemoveTask(RemoveTask(tasks, id), id) == RemoveTask(tasks, id)
  {
    if forall i :: 0 <= i < |tasks| ==> tasks[i].id != id {
      Seqs.FilterKeepsAll(tasks, IdIsNot(id));
    }
    Seqs.FilterIdempotent(tasks, IdIsNot(id));
  }

  /** Deleting a task that was just created under a fresh id restores the list. */
  lemma CreateThenDelete(tasks: seq<Task>, d: TaskData, teamId: string, teams: seq<User>)
    requires forall i :: 0 <= i < |tasks| ==> tasks[i].id != d.id
    ensures RemoveTask(AppendCreated(tasks, d, teamId, teams), d.id) == tasks
  {
    var t := WithTeam(d, TeamFor(teamId, teams));
    assert AppendCreated(tasks, d, teamId, teams) == tasks + [t];
    Seqs.FilterAppend(tasks, [t], IdIsNot(d.id));
    Seqs.FilterKeepsAll(tasks, IdIsNot(d.id));
    assert Seqs.Filter([t], IdIsNot(d.id)) == [];
  }

  class DeleteTaskModal {
    const oldTask: Task
    var isLoading: bool
    /** the owner's `isDeleteModalOpen` flag, which `setIsDeleteModalOpen` changes */
    var isOpen: bool

    constructor (oldTask: Task)
      ensures this.oldTask == oldTask && !isLoading && isOpen
    {
      this.oldTask := oldTask;
      isLoading := false;
      isOpen := true;
    }

    /** `handleDeleteTask`: `DELETE /api/tasks/<id>` and its status dispatch. Only 204 changes
        the list and closes the dialog, only 401 signs the user out, and loading ends in every
        case. Returns the path requested. */
    method HandleDeleteTask(reply: Reply<string>, home: Dashboard.Home, auth: Auth.AuthProvider,
                            toaster: Toaster, toastId: string) returns (path: string)
      modifies this, home`tasks, auth`user, toaster
      ensures path == "/api/tasks/" + oldTask.id
      ensures !isLoading
      ensures home.tasks == if Delivers(reply, 204) then RemoveTask(old(home.tasks), oldTask.id) else old(home.tasks)
      ensures isOpen == if Delivers(reply, 204) then false else old(isOpen)
      ensures auth.user == if Delivers(reply, 401) then None else old(auth.user)
      ensures toaster.toasts == Added(old(toaster.toasts), toastId, DeleteMessage(reply),
                                      if Delivers(reply, 204) then Success else Error, None)
      ensures toaster.timers == ScheduledDefault(old(toaster.timers), toastId)
    {
      isLoading := true;
      path := "/api/tasks/" + oldTask.id;
      if Delivers(reply, 204) {
        toaster.AddToast(toastId, Messages.DeletedTask, Success, None);
        home.tasks := RemoveTask(home.tasks, oldTask.id);
        isOpen := false;
      } else if Delivers(reply, 401) {
        toaster.AddToast(toastId, Messages.SessionExpired, Error, None);
        auth.user := None;
      } else if Delivers(reply, 403) {
        toaster.AddToast(toastId, Messages.AccessDenied, Error, None);
      } else if Delivers(reply, 404) {
        toaster.AddToast(toastId, Messages.TaskNotFound, Error, None);
      } else {
        toaster.AddToast(toastId, Messages.ServerFailure, Error, None);
      }
      isLoading := false;
    }
  }

  /** The toast text the delete dialog shows for a reply; any unlisted status, a 5xx or no
      reply ends in the `catch` branch. */
  function DeleteMessage(reply: Reply<string>): string {
    if Delivers(reply, 204) then Messages.DeletedTask
    else if Delivers(reply, 401) then Messages.SessionExpired
    else if Delivers(reply, 403) then Messages.AccessDenied
    else if Delivers(reply, 404) then Messages.TaskNotFound
    else Messages.ServerFailure
  }
}
