/** The activity controller (backend/src/controller/ActivityController.ts).
    The queries are functions of the activity table; create, update and
    delete are methods on the database. */
module ActivityController {
  import opened Common
  import opened Collections
  import opened UserEntity
  import opened ActivityEntity
  import opened Store
  import opened ActivityRoutes

  /** The query string of GET /activities; a filter applies when it is given,
      and page and limit fall back to 1 and 10. */
  datatype ActivityQuery = ActivityQuery(
    status: Option<string>, kind: Option<string>, assignedToId: Option<int>, page: Option<int>, limit: Option<int>)

  function DueDate(a: Activity): int {
    a.dueDate
  }

  /** a passes every status, type and assignee filter the query gives. */
  predicate MatchesActivityQuery(q: ActivityQuery, a: Activity) {
    && (Given(q.status) ==> ActivityStatusName(a.status) == q.status.value)
    && (Given(q.kind) ==> ActivityTypeName(a.kind) == q.kind.value)
    && (q.assignedToId.Some? ==> a.assignedToId == q.assignedToId.value)
  }

  /** An admin sees every activity; anyone else only those assigned to them. */
  predicate VisibleTo(caller: User, a: Activity) {
    caller.role == Admin || a.assignedToId == caller.id
  }

  function ListedFor(q: ActivityQuery, caller: User): Activity -> bool {
    a => MatchesActivityQuery(q, a) && VisibleTo(caller, a)
  }

  /** The activities getAll answers before paging: exactly the visible ones
      matching the query, by due date ascending. */
  function MatchingActivities(t: map<int, Activity>, q: ActivityQuery, caller: User): (r: seq<Activity>)
    ensures |r| == Count(Rows(t), ListedFor(q, caller))
    ensures SortedBy(r, DueDate)
    ensures forall a :: a in r <==> a in t.Values && MatchesActivityQuery(q, a) && VisibleTo(caller, a)
  {
    SortBy(Filter(Rows(t), ListedFor(q, caller)), DueDate)
  }

  /** getAll: the page of the matching activities. */
  function ListActivities(t: map<int, Activity>, q: ActivityQuery, caller: User): (p: Page<Activity>)
    requires PagingGiven(q.page, q.limit)
    ensures p.page == OrDefault(q.page, DefaultPage) && p.limit == OrDefault(q.limit, DefaultLimit)
    ensures p.total == |MatchingActivities(t, q, caller)|
    ensures p.totalPages == TotalPages(p.total, p.limit)
    ensures |p.items| <= p.limit
    ensures forall i :: 0 <= i < |p.items| ==>
              Skip(p.page, p.limit) + i < p.total
              && p.items[i] == MatchingActivities(t, q, caller)[Skip(p.page, p.limit) + i]
  {
    Paginate(MatchingActivities(t, q, caller), OrDefault(q.page, DefaultPage), OrDefault(q.limit, DefaultLimit))
  }

  /** A page of getAll is in due-date order and holds only stored activities
      that match the query; a caller who is not an admin, managers included,
      only ever receives activities assigned to them. */
  lemma ListedActivitiesMatch(t: map<int, Activity>, q: ActivityQuery, caller: User)
    requires PagingGiven(q.page, q.limit)
    ensures SortedBy(ListActivities(t, q, caller).items, DueDate)
    ensures forall a :: a in ListActivities(t, q, caller).items ==>
              a in t.Values && MatchesActivityQuery(q, a)
    ensures caller.role != Admin ==>
              forall a :: a in ListActivities(t, q, caller).items ==> a.assignedToId == caller.id
  {
    PageOfSorted(MatchingActivities(t, q, caller), OrDefault(q.page, DefaultPage), OrDefault(q.limit, DefaultLimit), DueDate);
  }

  /** getById: the activity, or 404. */
  function FindActivity(t: map<int, Activity>, id: int): (r: Result<Activity>)
    ensures r.Ok? <==> id in t
    ensures r.Ok? ==> r.value == t[id]
    ensures r.Err? ==> r.failure == Refused(404, "Attività non trovata")
  {
    if id in t then Ok(t[id]) else Err(Refused(404, "Attività non trovata"))
  }

  /** repository.create(body) for a valid body: the body's fields, the column
      defaults for status and description, and the creation stamps. */
  function NewActivity(lib: Library, body: ActivityBody, id: int, now: Instant): Activity
    requires ActivityValid(lib, body)
  {
    Activity(
      id, body.title.value, body.description, ParseActivityType(body.kind.value).value,
      if body.status.Some? then body.status.value else DefaultActivityStatus,
      lib.toInstant(body.dueDate.value),
      if body.completedDate.Some? then Some(lib.toInstant(body.completedDate.value)) else None,
      body.priority.value, now, now, body.assignedToId.value)
  }

  /** create: 400 with the validator's messages for a bad body, 400 when the
      assignee is not a user; otherwise exactly one new activity, under a fresh id. */
  method CreateActivity(db: Db, lib: Library, body: ActivityBody, now: Instant) returns (r: Result<Activity>)
    requires db.Valid()
    modifies db`activities, db`nextActivityId
    ensures db.Valid()
    ensures !ActivityValid(lib, body) ==> r == Err(Invalid(ActivityErrors(lib, body)))
    ensures ActivityValid(lib, body) && body.assignedToId.value !in db.users ==>
              r == Err(Refused(400, "Utente assegnato non trovato"))
    ensures r.Ok? <==> ActivityValid(lib, body) && body.assignedToId.value in db.users
    ensures r.Err? ==> db.activities == old(db.activities) && db.nextActivityId == old(db.nextActivityId)
    ensures r.Ok? ==>
              && r.value == NewActivity(lib, body, old(db.nextActivityId), now)
              && r.value.id !in old(db.activities)
              && db.activities == old(db.activities)[r.value.id := r.value]
  {
    var errors := ActivityErrors(lib, body);
    if errors != [] {
      return Err(Invalid(errors));
    }
    if body.assignedToId.value !in db.users {
      return Err(Refused(400, "Utente assegnato non trovato"));
    }
    var a := NewActivity(lib, body, db.nextActivityId, now);
    KeyedInsert(db.activities, db.nextActivityId, ActivityKey, a);
    db.activities := db.activities[a.id := a];
    db.nextActivityId := db.nextActivityId + 1;
    r := Ok(a);
  }

  /** The completion stamp and merge of update, before saving: the body's
      fields overwrite the stored ones and the rest stays; when the body
      completes an activity that has no completedDate, completedDate becomes
      now, and an activity that has one is never stamped again. */
  function MergeActivity(lib: Library, stored: Activity, body: ActivityBody, now: Instant): (m: Activity)
    requires ActivityValid(lib, body)
    ensures m.id == stored.id && m.createdAt == stored.createdAt && m.updatedAt == stored.updatedAt
    ensures m.title == body.title.value && ActivityTypeName(m.kind) == body.kind.value
    ensures m.dueDate == lib.toInstant(body.dueDate.value)
    ensures m.priority == body.priority.value && m.assignedToId == body.assignedToId.value
    ensures m.description == if body.description.Some? then body.description else stored.description
    ensures m.status == if body.status.Some? then body.status.value else stored.status
    ensures body.status == Some(Completed) && stored.completedDate.None? ==> m.completedDate == Some(now)
    ensures stored.completedDate.Some? || body.status != Some(Completed) ==>
              m.completedDate == if body.completedDate.Some? then Some(lib.toInstant(body.completedDate.value))
                                 else stored.completedDate
  {
    var stamp := body.status == Some(Completed) && stored.completedDate.None?;
    stored.(
      title := body.title.value,
      description := if body.description.Some? then body.description else stored.description,
      kind := ParseActivityType(body.kind.value).value,
      status := if body.status.Some? then body.status.value else stored.status,
      dueDate := lib.toInstant(body.dueDate.value),
      completedDate :=
        if stamp then Some(now)
        else if body.completedDate.Some? then Some(lib.toInstant(body.completedDate.value))
        else stored.completedDate,
      priority := body.priority.value,
      assignedToId := body.assignedToId.value)
  }

  /** update: 400 with the validator's messages for a bad body (checked
      before the lookup), 404 for a missing id; otherwise the merged record
      replaces the stored one and no other activity changes. The assignee is
      not checked again. */
  method UpdateActivity(db: Db, lib: Library, id: int, body: ActivityBody, now: Instant)
    returns (r: Result<Activity>)
    requires db.Valid()
    modifies db`activities
    ensures db.Valid()
    ensures !ActivityValid(lib, body) ==> r == Err(Invalid(ActivityErrors(lib, body)))
    ensures ActivityValid(lib, body) && id !in old(db.activities) ==>
              r == Err(Refused(404, "Attività non trovata"))
    ensures r.Ok? <==> ActivityValid(lib, body) && id in old(db.activities)
    ensures r.Err? ==> db.activities == old(db.activities)
    ensures r.Ok? ==>
              && r.value == SavedActivity(old(db.activities)[id],
                                          MergeActivity(lib, old(db.activities)[id], body, now), now)
              && db.activities == old(db.activities)[id := r.value]
  {
    var errors := ActivityErrors(lib, body);
    if errors != [] {
      return Err(Invalid(errors));
    }
    if id !in db.activities {
      return Err(Refused(404, "Attività non trovata"));
    }
    var stored := db.activities[id];
    var saved := SavedActivity(stored, MergeActivity(lib, stored, body, now), now);
    KeyedReplace(db.activities, db.nextActivityId, ActivityKey, id, saved);
    db.activities := db.activities[id := saved];
    r := Ok(saved);
  }

  /** delete: 404 for a missing id; otherwise exactly that activity is removed. */
  method DeleteActivity(db: Db, id: int) returns (r: Result<string>)
    requires db.Valid()
    modifies db`activities
    ensures db.Valid()
    ensures r.Ok? <==> id in old(db.activities)
    ensures r.Err? ==> r.failure == Refused(404, "Attività non trovata") && db.activities == old(db.activities)
    ensures r.Ok? ==> r.value == "Attività eliminata con successo" && db.activities == old(db.activities) - {id}
  {
    if id !in db.activities {
      return Err(Refused(404, "Attività non trovata"));
    }
    KeyedRemove(db.activities, db.nextActivityId, ActivityKey, id);
    db.activities := db.activities - {id};
    r := Ok("Attività eliminata con successo");
  }

  function MineMatching(caller: User, status: Option<string>, kind: Option<string>): Activity -> bool {
    (a: Activity) => a.assignedToId == caller.id
         && (Given(status) ==> ActivityStatusName(a.status) == status.value)
         && (Given(kind) ==> ActivityTypeName(a.kind) == kind.value)
  }

  /** getMyActivities: the caller's activities passing the status and type
      filters, by due date ascending, whatever the caller's role. */
  function MyActivities(t: map<int, Activity>, caller: User, status: Option<string>, kind: Option<string>)
    : (r: seq<Activity>)
    ensures SortedBy(r, DueDate)
    ensures |r| == Count(Rows(t), MineMatching(caller, status, kind))
    ensures forall a :: a in r <==>
              && a in t.Values && a.assignedToId == caller.id
              && (Given(status) ==> ActivityStatusName(a.status) == status.value)
              && (Given(kind) ==> ActivityTypeName(a.kind) == kind.value)
  {
    SortBy(Filter(Rows(t), MineMatching(caller, status, kind)), DueDate)
  }

  /** Due within the week from now, both ends included, not completed, and
      assigned to the caller. */
  predicate Upcoming(caller: User, now: Instant, a: Activity) {
    now <= a.dueDate <= now + 7 * DayMs && a.status != Completed && a.assignedToId == caller.id
  }

  function UpcomingFor(caller: User, now: Instant): Activity -> bool {
    a => Upcoming(caller, now, a)
  }

  /** getUpcoming: exactly the caller's upcoming activities, soonest first. */
  function UpcomingActivities(t: map<int, Activity>, caller: User, now: Instant): (r: seq<Activity>)
    ensures SortedBy(r, DueDate)
    ensures |r| == Count(Rows(t), UpcomingFor(caller, now))
    ensures forall a :: a in r <==> a in t.Values && Upcoming(caller, now, a)
  {
    SortBy(Filter(Rows(t), UpcomingFor(caller, now)), DueDate)
  }
}
