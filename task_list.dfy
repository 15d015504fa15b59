/** The client's task entries (`TaskDTO & { team: UserDTO | null }`) and the append that
    both task modals apply to the list on a 201 reply. */
module TaskList {
  import opened Wrappers
  import opened TaskDto
  import opened UserDto

  /** A task as the dashboard holds it: the server's fields and the assigned team member. */
  datatype Task = Task(id: string, name: string, description: Option<string>, status: TaskStatus,
                       createdAt: string, updatedAt: string, team: Option<User>)

  /** The list entry built from the server's reply and a team. */
  function WithTeam(d: TaskData, team: Option<User>): (t: Task)
    ensures t.id == d.id && t.name == d.name && t.description == d.description && t.status == d.status
    ensures t.createdAt == d.createdAt && t.updatedAt == d.updatedAt && t.team == team
  {
    Task(d.id, d.name, d.description, d.status, d.createdAt, d.updatedAt, team)
  }

  /** The team of a created task: none for an empty selection, otherwise the first fetched
      team member with the selected id, or none when no fetched member has it. */
  function TeamFor(teamId: string, teams: seq<User>): (r: Option<User>)
    ensures teamId == "" ==> r.None?
    ensures teamId != "" && r.None? ==> forall i :: 0 <= i < |teams| ==> teams[i].id != teamId
    ensures r.Some? ==> r.value in teams && r.value.id == teamId
    ensures r.Some? ==>
      exists k :: 0 <= k < |teams| && teams[k] == r.value && forall j :: 0 <= j < k ==> teams[j].id != teamId
  {
    if teamId == "" then None else FindUser(teams, teamId)
  }

  /** The 201 updater: the existing entries unchanged, then exactly one new entry at the end. */
  function AppendCreated(tasks: seq<Task>, d: TaskData, teamId: string, teams: seq<User>): (r: seq<Task>)
    ensures |r| == |tasks| + 1 && r[..|tasks|] == tasks
    ensures r[|tasks|] == WithTeam(d, TeamFor(teamId, teams))
  {
    tasks + [WithTeam(d, TeamFor(teamId, teams))]
  }
}
