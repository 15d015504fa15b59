/** The task dashboard of `src/pages/index.tsx`: the task list, its loading flag, the
    status filter and the filtered view. */
module Dashboard {
  import opened Wrappers
  import opened TaskDto
  import opened TaskList
  import opened Axios
  import opened Toasts
  import Auth
  import Messages
  import Seqs

  /** `TaskStatus | "all"` */
  datatype StatusFilter = All | Only(status: TaskStatus)

  function StatusIs(st: TaskStatus): Task -> bool {
    (t: Task) => t.status == st
  }

  /** `filteredTasks`: the whole list for "all", otherwise the tasks with that status. */
  function FilterTasks(tasks: seq<Task>, f: StatusFilter): (r: seq<Task>)
    ensures f.All? ==> r == tasks
    ensures |r| <= |tasks|
    ensures f.Only? ==> forall i :: 0 <= i < |r| ==> r[i].status == f.status && r[i] in tasks
    ensures f.Only? ==> forall i :: 0 <= i < |tasks| && tasks[i].status == f.status ==> tasks[i] in r
  {
    if f.All? then tasks else Seqs.Filter(tasks, StatusIs(f.status))
  }

  /** The filtered view keeps the input's order, and holds each task with the chosen status
      as many times as the list does and no other task. */
  lemma FilterTasksOrderAndCount(tasks: seq<Task>, st: TaskStatus, t: Task)
    ensures Seqs.IsSubsequence(FilterTasks(tasks, Only(st)), tasks)
    ensures multiset(FilterTasks(tasks, Only(st)))[t] == if t.status == st then multiset(tasks)[t] else 0
  {
    Seqs.FilterIsSubsequence(tasks, StatusIs(st));
    Seqs.FilterCount(tasks, StatusIs(st), t);
  }

  /** Filtering the filtered view again changes nothing. */
  lemma FilterTasksIdempotent(tasks: seq<Task>, f: StatusFilter)
    ensures FilterTasks(FilterTasks(tasks, f), f) == FilterTasks(tasks, f)
  {
    if f.Only? {
      Seqs.FilterIdempotent(tasks, StatusIs(f.status));
    }
  }

  /** The literal a filter button stands for. */
  function FilterName(f: StatusFilter): string {
    match f
    case All => "all"
    case Only(st) => StatusName(st)
  }

  /** `StatusFilterButton`'s text: `status.split("_").join(" ")`. */
  function FilterLabel(f: StatusFilter): (r: string)
    ensures '_' !in r && |r| == |FilterName(f)|
    ensures forall i :: 0 <= i < |r| ==> r[i] == if FilterName(f)[i] == '_' then ' ' else FilterName(f)[i]
  {
    Seqs.ReplaceChar(FilterName(f), '_', ' ')
  }

  /** The `Home` page's state. */
  class Home {
    var tasks: seq<Task>
    var isLoading: bool
    var statusFilter: StatusFilter

    constructor ()
      ensures tasks == [] && isLoading && statusFilter == All
    {
      tasks := [];
      isLoading := true;
      statusFilter := All;
    }

    /** A filter button click. */
    method SetStatusFilter(f: StatusFilter)
      modifies this`statusFilter
      ensures statusFilter == f
    {
      statusFilter := f;
    }

    /** The loading effect: `GET /api/tasks`. 200 replaces the list wholesale, 401 reports
        and signs the user out, anything else reports a server failure; loading ends in
        every case. */
    method LoadTasks(reply: Reply<seq<Task>>, auth: Auth.AuthProvider, toaster: Toaster, toastId: string)
      modifies this`tasks, this`isLoading, auth`user, toaster
      ensures !isLoading
      ensures tasks == if Delivers(reply, 200) then reply.data else old(tasks)
      ensures auth.user == if Delivers(reply, 401) then None else old(auth.user)
      ensures toaster.toasts ==
        if Delivers(reply, 200) then old(toaster.toasts)
        else if Delivers(reply, 401) then Added(old(toaster.toasts), toastId, Messages.SessionExpired, Error, None)
        else Added(old(toaster.toasts), toastId, Messages.ServerFailure, Error, None)
    ensures toaster.timers ==
      if Delivers(reply, 200) then old(toaster.timers) else ScheduledDefault(old(toaster.timers), toastId)
    {
      if Delivers(reply, 200) {
        tasks := reply.data;
      } else if Delivers(reply, 401) {
        toaster.AddToast(toastId, Messages.SessionExpired, Error, None);
        auth.user := None;
      } else {
        toaster.AddToast(toastId, Messages.ServerFailure, Error, None);
      }
      isLoading := false;
    }
  }
}
