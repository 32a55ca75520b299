/** The interaction controller (backend/src/controller/InteractionController.ts). */
module InteractionController {
  import opened Common
  import opened Collections
  import opened UserEntity
  import opened InteractionEntity
  import opened Store
  import opened InteractionRoutes

  /** The query string of GET /interactions; a filter applies when it is given,
      and page and limit fall back to 1 and 10. */
  datatype InteractionQuery = InteractionQuery(
    kind: Option<string>, customerId: Option<int>, userId: Option<int>, page: Option<int>, limit: Option<int>)

  /** The sort key of ORDER BY createdAt DESC: ascending in it is newest first. */
  function NewestFirst(i: Interaction): int {
    -i.createdAt
  }

  /** i passes the type, customer and user filters the query gives. */
  predicate MatchesInteractionQuery(q: InteractionQuery, i: Interaction) {
    && (Given(q.kind) ==> InteractionTypeName(i.kind) == q.kind.value)
    && (q.customerId.Some? ==> i.customerId == q.customerId.value)
    && (q.userId.Some? ==> i.userId == q.userId.value)
  }

  function MatchesQuery(q: InteractionQuery): Interaction -> bool {
    i => MatchesInteractionQuery(q, i)
  }

  /** The interactions getAll answers before paging: exactly the matching
      ones, newest first. */
  function MatchingInteractions(t: map<int, Interaction>, q: InteractionQuery): (r: seq<Interaction>)
    ensures |r| == Count(Rows(t), MatchesQuery(q))
    ensures SortedBy(r, NewestFirst)
    ensures forall i :: i in r <==> i in t.Values && MatchesInteractionQuery(q, i)
  {
    SortBy(Filter(Rows(t), MatchesQuery(q)), NewestFirst)
  }

  /** getAll: one page of the matching interactions. */
  function ListInteractions(t: map<int, Interaction>, q: InteractionQuery): (p: Page<Interaction>)
    requires PagingGiven(q.page, q.limit)
    ensures p.page == OrDefault(q.page, DefaultPage) && p.limit == OrDefault(q.limit, DefaultLimit)
    ensures p.total == |MatchingInteractions(t, q)|
    ensures p.totalPages == TotalPages(p.total, p.limit)
    ensures |p.items| <= p.limit
    ensures forall i :: 0 <= i < |p.items| ==>
              Skip(p.page, p.limit) + i < p.total
              && p.items[i] == MatchingInteractions(t, q)[Skip(p.page, p.limit) + i]
  {
    Paginate(MatchingInteractions(t, q), OrDefault(q.page, DefaultPage), OrDefault(q.limit, DefaultLimit))
  }

  /** A page of getAll is in newest-first order and holds only stored interactions
      that match the query. */
  lemma ListedInteractionsMatch(t: map<int, Interaction>, q: InteractionQuery)
    requires PagingGiven(q.page, q.limit)
    ensures SortedBy(ListInteractions(t, q).items, NewestFirst)
    ensures forall i :: i in ListInteractions(t, q).items ==>
              i in t.Values && MatchesInteractionQuery(q, i)
  {
    PageOfSorted(MatchingInteractions(t, q), OrDefault(q.page, DefaultPage), OrDefault(q.limit, DefaultLimit), NewestFirst);
  }

  /** getById: the interaction, or 404. */
  function FindInteraction(t: map<int, Interaction>, id: int): (r: Result<Interaction>)
    ensures r.Ok? <==> id in t
    ensures r.Ok? ==> r.value == t[id]
    ensures r.Err? ==> r.failure == Refused(404, "Interazione non trovata")
  {
    if id in t then Ok(t[id]) else Err(Refused(404, "Interazione non trovata"))
  }

  /** repository.create({ ...body, userId: caller.id }) for a valid body: the
      caller's id replaces any userId the body carries. */
  function NewInteraction(body: InteractionBody, caller: User, id: int, now: Instant): Interaction
    requires InteractionValid(body)
  {
    Interaction(id, ParseInteractionType(body.kind.value).value, body.subject.value, body.content.value,
                body.attachments, now, body.customerId.value, caller.id)
  }

  /** create: 400 with the validator's messages for a bad body, 400 when the
      customer does not exist; otherwise exactly one new interaction, logged
      by the caller whatever userId the body names. */
  method CreateInteraction(db: Db, body: InteractionBody, caller: User, now: Instant)
    returns (r: Result<Interaction>)
    requires db.Valid()
    modifies db`interactions, db`nextInteractionId
    ensures db.Valid()
    ensures !InteractionValid(body) ==> r == Err(Invalid(InteractionErrors(body)))
    ensures InteractionValid(body) && body.customerId.value !in db.customers ==>
              r == Err(Refused(400, "Cliente non trovato"))
    ensures r.Ok? <==> InteractionValid(body) && body.customerId.value in db.customers
    ensures r.Err? ==>
              db.interactions == old(db.interactions) && db.nextInteractionId == old(db.nextInteractionId)
    ensures r.Ok? ==>
              && r.value.userId == caller.id
              && r.value == NewInteraction(body, caller, old(db.nextInteractionId), now)
              && r.value.id !in old(db.interactions)
              && db.interactions == old(db.interactions)[r.value.id := r.value]
  {
    var errors := InteractionErrors(body);
    if errors != [] {
      return Err(Invalid(errors));
    }
    if body.customerId.value !in db.customers {
      return Err(Refused(400, "Cliente non trovato"));
    }
    var i := NewInteraction(body, caller, db.nextInteractionId, now);
    KeyedInsert(db.interactions, db.nextInteractionId, InteractionKey, i);
    db.interactions := db.interactions[i.id := i];
    db.nextInteractionId := db.nextInteractionId + 1;
    r := Ok(i);
  }

  /** merge(interaction, body): the body's fields overwrite the stored ones,
      userId included when the body carries one; the rest stays. */
  function MergeInteraction(stored: Interaction, body: InteractionBody): (m: Interaction)
    requires InteractionValid(body)
    ensures m.id == stored.id && m.createdAt == stored.createdAt
    ensures InteractionTypeName(m.kind) == body.kind.value
    ensures m.subject == body.subject.value && m.content == body.content.value
    ensures m.customerId == body.customerId.value
    ensures m.attachments == if body.attachments.Some? then body.attachments else stored.attachments
    ensures m.userId == if body.userId.Some? then body.userId.value else stored.userId
  {
    stored.(
      kind := ParseInteractionType(body.kind.value).value,
      subject := body.subject.value,
      content := body.content.value,
      attachments := if body.attachments.Some? then body.attachments else stored.attachments,
      customerId := body.customerId.value,
      userId := if body.userId.Some? then body.userId.value else stored.userId)
  }

  /** update: 400 for a bad body, 404 for a missing id; otherwise the merged
      record replaces the stored one. The customer is not checked again. */
  method UpdateInteraction(db: Db, id: int, body: InteractionBody) returns (r: Result<Interaction>)
    requires db.Valid()
    modifies db`interactions
    ensures db.Valid()
    ensures !InteractionValid(body) ==> r == Err(Invalid(InteractionErrors(body)))
    ensures InteractionValid(body) && id !in old(db.interactions) ==>
              r == Err(Refused(404, "Interazione non trovata"))
    ensures r.Ok? <==> InteractionValid(body) && id in old(db.interactions)
    ensures r.Err? ==> db.interactions == old(db.interactions)
    ensures r.Ok? ==>
              && r.value == MergeInteraction(old(db.interactions)[id], body)
              && db.interactions == old(db.interactions)[id := r.value]
  {
    var errors := InteractionErrors(body);
    if errors != [] {
      return Err(Invalid(errors));
    }
    if id !in db.interactions {
      return Err(Refused(404, "Interazione non trovata"));
    }
    var merged := MergeInteraction(db.interactions[id], body);
    KeyedReplace(db.interactions, db.nextInteractionId, InteractionKey, id, merged);
    db.interactions := db.interactions[id := merged];
    r := Ok(merged);
  }

  /** delete: 404 for a missing id; otherwise exactly that interaction is removed. */
  method DeleteInteraction(db: Db, id: int) returns (r: Result<string>)
    requires db.Valid()
    modifies db`interactions
    ensures db.Valid()
    ensures r.Ok? <==> id in old(db.interactions)
    ensures r.Err? ==>
              r.failure == Refused(404, "Interazione non trovata") && db.interactions == old(db.interactions)
    ensures r.Ok? ==>
              r.value == "Interazione eliminata con successo" && db.interactions == old(db.interactions) - {id}
  {
    if id !in db.interactions {
      return Err(Refused(404, "Interazione non trovata"));
    }
    KeyedRemove(db.interactions, db.nextInteractionId, InteractionKey, id);
    db.interactions := db.interactions - {id};
    r := Ok("Interazione eliminata con successo");
  }

  function OfCustomer(customerId: int): Interaction -> bool {
    (i: Interaction) => i.customerId == customerId
  }

  /** getByCustomer: exactly the interactions of that customer, newest first
      (an unknown customer simply has none). */
  function InteractionsOfCustomer(t: map<int, Interaction>, customerId: int): (r: seq<Interaction>)
    ensures |r| == Count(Rows(t), OfCustomer(customerId))
    ensures SortedBy(r, NewestFirst)
    ensures forall i :: i in r <==> i in t.Values && i.customerId == customerId
  {
    SortBy(Filter(Rows(t), OfCustomer(customerId)), NewestFirst)
  }

  /** The number of rows getRecentInteractions takes when no limit is given. */
  const DefaultRecentLimit: int := 10

  /** getRecentInteractions: the newest interactions, at most limit of them
      (10 by default): a prefix of the whole table ordered newest first. */
  function RecentInteractions(t: map<int, Interaction>, limit: Option<int>): (r: seq<Interaction>)
    requires limit.Some? ==> limit.value > 0
    ensures var n := if limit.Some? then limit.value else DefaultRecentLimit;
            |r| == if |t| < n then |t| else n
    ensures r == SortBy(Rows(t), NewestFirst)[..|r|]
    ensures SortedBy(r, NewestFirst)
    ensures forall i :: i in r ==> i in t.Values
  {
    var n := if limit.Some? then limit.value else DefaultRecentLimit;
    var all := SortBy(Rows(t), NewestFirst);
    var k := if |all| < n then |all| else n;
    SortedPrefix(all, k, NewestFirst);
    all[..k]
  }
}
