/** The Activity record (backend/src/entity/Activity.ts): a task assigned to a user. */
module ActivityEntity {
  import opened Common

  datatype ActivityType = Call | Email | Meeting | Followup | Task

  datatype ActivityStatus = Pending | InProgress | Completed | Cancelled

  /** The string a type is stored and compared as. */
  function ActivityTypeName(t: ActivityType): string {
    match t
    case Call => "call"
    case Email => "email"
    case Meeting => "meeting"
    case Followup => "followup"
    case Task => "task"
  }

  /** The type a request string names, if any. */
  function ParseActivityType(s: string): (t: Option<ActivityType>)
    ensures t.Some? ==> ActivityTypeName(t.value) == s
    ensures t.None? ==> forall u :: ActivityTypeName(u) != s
  {
    if s == "call" then Some(Call)
    else if s == "email" then Some(Email)
    else if s == "meeting" then Some(Meeting)
    else if s == "followup" then Some(Followup)
    else if s == "task" then Some(Task)
    else None
  }

  /** The string a status is stored and compared as. */
  function ActivityStatusName(s: ActivityStatus): string {
    match s
    case Pending => "pending"
    case InProgress => "in_progress"
    case Completed => "completed"
    case Cancelled => "cancelled"
  }

  /** The column default of status. */
  const DefaultActivityStatus: ActivityStatus := Pending

  /** The column default of priority (1 low, 2 medium, 3 high). */
  const DefaultPriority: int := 1

  /** A stored activity. The JSON field "type" is called kind here. */
  datatype Activity = Activity(
    id: int,
    title: string,
    description: Option<string>,
    kind: ActivityType,
    status: ActivityStatus,
    dueDate: Instant,
    completedDate: Option<Instant>,
    priority: int,
    createdAt: Instant,
    updatedAt: Instant,
    assignedToId: int)

  /** save() refreshes updatedAt only when an UPDATE is issued. */
  function SavedActivity(before: Activity, after: Activity, now: Instant): Activity
  {
    if after == before then before else after.(updatedAt := now)
  }
}
