/** The activity routes (backend/src/routes/activities.ts): the request body,
    the activityValidation chain, and what each route runs. */
module ActivityRoutes {
  import opened Common
  import opened Collections
  import opened ActivityEntity

  /** The JSON body of POST and PUT /activities; None is a field the body does
      not carry. kind is the field "type", as sent. */
  datatype ActivityBody = ActivityBody(
    title: Option<string>,
    description: Option<string>,
    kind: Option<string>,
    status: Option<ActivityStatus>,
    dueDate: Option<string>,
    completedDate: Option<string>,
    priority: Option<int>,
    assignedToId: Option<int>)

  /** The checks of activityValidation, in the order the chain runs them. */
  datatype ActivityCheck = TitleGiven | TypeKnown | DueDateIso | AssigneeInteger | PriorityInRange

  /** The chain itself: every check once, in the order it runs. */
  const ActivityChain: seq<ActivityCheck> := [TitleGiven, TypeKnown, DueDateIso, AssigneeInteger, PriorityInRange]

  /** The position of a check in the chain. */
  function ActivityRank(c: ActivityCheck): (i: nat)
    ensures i < |ActivityChain| && ActivityChain[i] == c
  {
    match c
    case TitleGiven => 0
    case TypeKnown => 1
    case DueDateIso => 2
    case AssigneeInteger => 3
    case PriorityInRange => 4
  }

  /** What each check demands of the body: a non-empty title, a type among
      call, email, meeting, followup and task, an ISO-8601 dueDate, an integer
      assignedToId and an integer priority from 1 to 3. */
  predicate ActivityPasses(lib: Library, b: ActivityBody, c: ActivityCheck) {
    match c
    case TitleGiven => NotEmpty(b.title)
    case TypeKnown => b.kind.Some? && ParseActivityType(b.kind.value).Some?
    case DueDateIso => b.dueDate.Some? && lib.isIso8601(b.dueDate.value)
    case AssigneeInteger => b.assignedToId.Some?
    case PriorityInRange => b.priority.Some? && 1 <= b.priority.value <= 3
  }

  /** The message a failed check sends. */
  function ActivityMessage(c: ActivityCheck): string {
    match c
    case TitleGiven => "Titolo richiesto"
    case TypeKnown => "Tipo attività non valido"
    case DueDateIso => "Data di scadenza non valida"
    case AssigneeInteger => "ID utente assegnato richiesto"
    case PriorityInRange => "Priorità deve essere 1, 2 o 3"
  }

  /** activityValidation holds: every check passes. */
  predicate ActivityValid(lib: Library, b: ActivityBody) {
    && NotEmpty(b.title)
    && b.kind.Some? && ParseActivityType(b.kind.value).Some?
    && b.dueDate.Some? && lib.isIso8601(b.dueDate.value)
    && b.assignedToId.Some?
    && b.priority.Some? && 1 <= b.priority.value <= 3
  }

  function ActivityFails(lib: Library, b: ActivityBody): ActivityCheck -> bool {
    c => !ActivityPasses(lib, b, c)
  }

  /** Every check is in the chain. */
  lemma ActivityChainComplete()
    ensures forall c :: c in ActivityChain
  {
    forall c ensures c in ActivityChain {
      assert ActivityChain[ActivityRank(c)] == c;
    }
  }

  /** activityValidation holds iff the body passes every check of the chain. */
  lemma ActivityValidAllPass(lib: Library, b: ActivityBody)
    ensures ActivityValid(lib, b) <==> forall c :: ActivityPasses(lib, b, c)
  {
    if ActivityValid(lib, b) {
      forall c ensures ActivityPasses(lib, b, c) {
        assert c == ActivityChain[ActivityRank(c)];
      }
    } else {
      assert !ActivityPasses(lib, b, TitleGiven) || !ActivityPasses(lib, b, TypeKnown)
        || !ActivityPasses(lib, b, DueDateIso) || !ActivityPasses(lib, b, AssigneeInteger)
        || !ActivityPasses(lib, b, PriorityInRange);
    }
  }

  /** The checks that fail: exactly the ones the body does not pass, in chain
      order and each once. */
  function ActivityFailures(lib: Library, b: ActivityBody): (failed: seq<ActivityCheck>)
    ensures forall c :: c in failed <==> !ActivityPasses(lib, b, c)
    ensures failed == [] <==> ActivityValid(lib, b)
    ensures StrictlyRanked(failed, ActivityRank)
  {
    ActivityChainComplete();
    ActivityValidAllPass(lib, b);
    FilterRanked(ActivityChain, ActivityFails(lib, b), ActivityRank);
    var failed := Filter(ActivityChain, ActivityFails(lib, b));
    assert failed != [] ==> failed[0] in failed;
    failed
  }

  /** The errors array of a refused body: the message of each failed check, in chain order. */
  function ActivityErrors(lib: Library, b: ActivityBody): (errors: seq<string>)
    ensures errors == [] <==> ActivityValid(lib, b)
    ensures |errors| == |ActivityFailures(lib, b)|
    ensures forall i :: 0 <= i < |errors| ==> errors[i] == ActivityMessage(ActivityFailures(lib, b)[i])
  {
    Messages(ActivityFailures(lib, b), ActivityMessage)
  }

  /** GET /, GET /my-activities, GET /upcoming, GET /:id, POST /, PUT /:id, DELETE /:id. */
  datatype ActivityRoute = GetList | GetMine | GetUpcoming | GetOne | PostOne | PutOne | DeleteOne

  /** Every activity route authenticates first; create and update also validate. */
  function ActivitySteps(r: ActivityRoute): (steps: seq<Step>)
    ensures |steps| >= 2 && steps[0] == Authenticate && steps[|steps| - 1] == Handle
    ensures Validate in steps <==> r == PostOne || r == PutOne
  {
    if r == PostOne || r == PutOne then [Authenticate, Validate, Handle] else [Authenticate, Handle]
  }
}
