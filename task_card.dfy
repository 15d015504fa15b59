/** What `src/components/TaskCard.tsx` derives from a task for display. */
module TaskCard {
  import opened Wrappers
  import opened UserDto
  import opened TaskDto
  import Seqs

  /** `statusColors`: the badge classes for a status literal; anything not matched by the
      first three tests gets the red classes. */
  function StatusColors(status: string): (r: string)
    ensures status == "not_started" ==> r == "bg-gray-100 text-gray-800"
    ensures status == "on_progress" ==> r == "bg-blue-100 text-blue-800"
    ensures status == "done" ==> r == "bg-green-100 text-green-800"
    ensures status !in {"not_started", "on_progress", "done"} ==> r == "bg-red-100 text-red-800"
  {
    if status == "not_started" then "bg-gray-100 text-gray-800"
    else if status == "on_progress" then "bg-blue-100 text-blue-800"
    else if status == "done" then "bg-green-100 text-green-800"
    else "bg-red-100 text-red-800"
  }

  /** Of the four statuses, exactly `reject` is shown in red, and the four colours are distinct. */
  lemma StatusColorsOfStatuses(st: TaskStatus, other: TaskStatus)
    ensures StatusColors(StatusName(st)) == "bg-red-100 text-red-800" <==> st == Reject
    ensures StatusColors(StatusName(st)) == StatusColors(StatusName(other)) <==> st == other
  {
  }

  /** The status badge text: `status.split("_").join(" ")`. */
  function StatusLabel(st: TaskStatus): (r: string)
    ensures '_' !in r && |r| == |StatusName(st)|
    ensures forall i :: 0 <= i < |r| ==> r[i] == if StatusName(st)[i] == '_' then ' ' else StatusName(st)[i]
  {
    Seqs.ReplaceChar(StatusName(st), '_', ' ')
  }

  /** The description text: the description itself, even when empty, or "No Description". */
  function DescriptionText(description: Option<string>): (r: string)
    ensures description.None? ==> r == "No Description"
    ensures description.Some? ==> r == description.value
  {
    if description.Some? then description.value else "No Description"
  }

  /** The description is styled as missing when it is absent or empty. */
  predicate DescriptionLooksMissing(description: Option<string>) {
    description.None? || description.value == ""
  }

  /** An empty description is styled as missing but shown as itself, not as "No Description". */
  lemma EmptyDescriptionShownAsIs()
    ensures DescriptionLooksMissing(Some("")) && DescriptionText(Some("")) == ""
    ensures DescriptionLooksMissing(None) && DescriptionText(None) == "No Description"
  {
  }

  /** The team badge: "<name>'s Team", or "Unassigned". */
  function TeamBadge(team: Option<User>): (r: string)
    ensures team.None? ==> r == "Unassigned"
    ensures team.Some? ==> r == team.value.name + "'s Team"
  {
    if team.Some? then team.value.name + "'s Team" else "Unassigned"
  }
}
