/** The opportunity controller (backend/src/controller/OpportunityController.ts). */
module OpportunityController {
  import opened Common
  import opened Collections
  import opened OpportunityEntity
  import opened Store
  import opened OpportunityRoutes

  /** The query string of GET /opportunities; a filter applies when it is given,
      and page and limit fall back to 1 and 10. */
  datatype OpportunityQuery = OpportunityQuery(
    stage: Option<string>, customerId: Option<int>, page: Option<int>, limit: Option<int>)

  /** The sort key of ORDER BY createdAt DESC: ascending in it is newest first. */
  function NewestFirst(o: Opportunity): int {
    -o.createdAt
  }


  /** o passes the stage and customer filters the query gives. */
  predicate MatchesOpportunityQuery(q: OpportunityQuery, o: Opportunity) {
    && (Given(q.stage) ==> StageName(o.stage) == q.stage.value)
    && (q.customerId.Some? ==> o.customerId == q.customerId.value)
  }

  function MatchesQuery(q: OpportunityQuery): Opportunity -> bool {
    o => MatchesOpportunityQuery(q, o)
  }

  /** The opportunities getAll answers before paging: exactly the matching
      ones, newest first. */
  function MatchingOpportunities(t: map<int, Opportunity>, q: OpportunityQuery): (r: seq<Opportunity>)
    ensures |r| == Count(Rows(t), MatchesQuery(q))
    ensures SortedBy(r, NewestFirst)
    ensures forall o :: o in r <==> o in t.Values && MatchesOpportunityQuery(q, o)
  {
    SortBy(Filter(Rows(t), MatchesQuery(q)), NewestFirst)
  }

  /** getAll: one page of the matching opportunities. */
  function ListOpportunities(t: map<int, Opportunity>, q: OpportunityQuery): (p: Page<Opportunity>)
    requires PagingGiven(q.page, q.limit)
    ensures p.page == OrDefault(q.page, DefaultPage) && p.limit == OrDefault(q.limit, DefaultLimit)
    ensures p.total == |MatchingOpportunities(t, q)|
    ensures p.totalPages == TotalPages(p.total, p.limit)
    ensures |p.items| <= p.limit
    ensures forall i :: 0 <= i < |p.items| ==>
              Skip(p.page, p.limit) + i < p.total
              && p.items[i] == MatchingOpportunities(t, q)[Skip(p.page, p.limit) + i]
  {
    Paginate(MatchingOpportunities(t, q), OrDefault(q.page, DefaultPage), OrDefault(q.limit, DefaultLimit))
  }

  /** A page of getAll is in newest-first order and holds only stored opportunities
      that match the query. */
  lemma ListedOpportunitiesMatch(t: map<int, Opportunity>, q: OpportunityQuery)
    requires PagingGiven(q.page, q.limit)
    ensures SortedBy(ListOpportunities(t, q).items, NewestFirst)
    ensures forall o :: o in ListOpportunities(t, q).items ==>
              o in t.Values && MatchesOpportunityQuery(q, o)
  {
    PageOfSorted(MatchingOpportunities(t, q), OrDefault(q.page, DefaultPage), OrDefault(q.limit, DefaultLimit), NewestFirst);
  }

  /** getById: the opportunity, or 404. */
  function FindOpportunity(t: map<int, Opportunity>, id: int): (r: Result<Opportunity>)
    ensures r.Ok? <==> id in t
    ensures r.Ok? ==> r.value == t[id]
    ensures r.Err? ==> r.failure == Refused(404, "Opportunità non trovata")
  {
    if id in t then Ok(t[id]) else Err(Refused(404, "Opportunità non trovata"))
  }

  /** Reads an optional date field of the body. */
  function DateField(lib: Library, field: Option<string>): Option<Instant> {
    if field.Some? then Some(lib.toInstant(field.value)) else None
  }

  /** repository.create(body) for a valid body, with the column default for stage. */
  function NewOpportunity(lib: Library, body: OpportunityBody, id: int, now: Instant): Opportunity
    requires OpportunityValid(body)
  {
    Opportunity(
      id, body.title.value, body.description, body.value.value, body.probability.value,
      if body.stage.Some? then body.stage.value else DefaultStage,
      DateField(lib, body.expectedCloseDate), DateField(lib, body.actualCloseDate),
      now, now, body.customerId.value)
  }

  /** create: 400 with the validator's messages for a bad body, 400 when the
      customer does not exist; otherwise exactly one new opportunity. */
  method CreateOpportunity(db: Db, lib: Library, body: OpportunityBody, now: Instant)
    returns (r: Result<Opportunity>)
    requires db.Valid()
    modifies db`opportunities, db`nextOpportunityId
    ensures db.Valid()
    ensures !OpportunityValid(body) ==> r == Err(Invalid(OpportunityErrors(body)))
    ensures OpportunityValid(body) && body.customerId.value !in db.customers ==>
              r == Err(Refused(400, "Cliente non trovato"))
    ensures r.Ok? <==> OpportunityValid(body) && body.customerId.value in db.customers
    ensures r.Err? ==>
              db.opportunities == old(db.opportunities) && db.nextOpportunityId == old(db.nextOpportunityId)
    ensures r.Ok? ==>
              && r.value == NewOpportunity(lib, body, old(db.nextOpportunityId), now)
              && r.value.id !in old(db.opportunities)
              && db.opportunities == old(db.opportunities)[r.value.id := r.value]
  {
    var errors := OpportunityErrors(body);
    if errors != [] {
      return Err(Invalid(errors));
    }
    if body.customerId.value !in db.customers {
      return Err(Refused(400, "Cliente non trovato"));
    }
    var o := NewOpportunity(lib, body, db.nextOpportunityId, now);
    KeyedInsert(db.opportunities, db.nextOpportunityId, OpportunityKey, o);
    db.opportunities := db.opportunities[o.id := o];
    db.nextOpportunityId := db.nextOpportunityId + 1;
    r := Ok(o);
  }

  /** merge(opportunity, body): the body's fields overwrite the stored ones,
      the others stay as they were. */
  function MergeOpportunity(lib: Library, stored: Opportunity, body: OpportunityBody): (m: Opportunity)
    requires OpportunityValid(body)
    ensures m.id == stored.id && m.createdAt == stored.createdAt && m.updatedAt == stored.updatedAt
    ensures m.title == body.title.value && m.value == body.value.value
    ensures m.probability == body.probability.value && m.customerId == body.customerId.value
    ensures m.description == if body.description.Some? then body.description else stored.description
    ensures m.stage == if body.stage.Some? then body.stage.value else stored.stage
    ensures m.expectedCloseDate ==
              if body.expectedCloseDate.Some? then DateField(lib, body.expectedCloseDate) else stored.expectedCloseDate
    ensures m.actualCloseDate ==
              if body.actualCloseDate.Some? then DateField(lib, body.actualCloseDate) else stored.actualCloseDate
  {
    stored.(
      title := body.title.value,
      description := if body.description.Some? then body.description else stored.description,
      value := body.value.value,
      probability := body.probability.value,
      stage := if body.stage.Some? then body.stage.value else stored.stage,
      expectedCloseDate :=
        if body.expectedCloseDate.Some? then DateField(lib, body.expectedCloseDate) else stored.expectedCloseDate,
      actualCloseDate :=
        if body.actualCloseDate.Some? then DateField(lib, body.actualCloseDate) else stored.actualCloseDate,
      customerId := body.customerId.value)
  }

  /** update: 400 for a bad body, 404 for a missing id; otherwise the merged
      record replaces the stored one. The customer is not checked again. */
  method UpdateOpportunity(db: Db, lib: Library, id: int, body: OpportunityBody, now: Instant)
    returns (r: Result<Opportunity>)
    requires db.Valid()
    modifies db`opportunities
    ensures db.Valid()
    ensures !OpportunityValid(body) ==> r == Err(Invalid(OpportunityErrors(body)))
    ensures OpportunityValid(body) && id !in old(db.opportunities) ==>
              r == Err(Refused(404, "Opportunità non trovata"))
    ensures r.Ok? <==> OpportunityValid(body) && id in old(db.opportunities)
    ensures r.Err? ==> db.opportunities == old(db.opportunities)
    ensures r.Ok? ==>
              && r.value == SavedOpportunity(old(db.opportunities)[id],
                                             MergeOpportunity(lib, old(db.opportunities)[id], body), now)
              && db.opportunities == old(db.opportunities)[id := r.value]
  {
    var errors := OpportunityErrors(body);
    if errors != [] {
      return Err(Invalid(errors));
    }
    if id !in db.opportunities {
      return Err(Refused(404, "Opportunità non trovata"));
    }
    var stored := db.opportunities[id];
    var saved := SavedOpportunity(stored, MergeOpportunity(lib, stored, body), now);
    KeyedReplace(db.opportunities, db.nextOpportunityId, OpportunityKey, id, saved);
    db.opportunities := db.opportunities[id := saved];
    r := Ok(saved);
  }

  /** delete: 404 for a missing id; otherwise exactly that opportunity is removed. */
  method DeleteOpportunity(db: Db, id: int) returns (r: Result<string>)
    requires db.Valid()
    modifies db`opportunities
    ensures db.Valid()
    ensures r.Ok? <==> id in old(db.opportunities)
    ensures r.Err? ==>
              r.failure == Refused(404, "Opportunità non trovata") && db.opportunities == old(db.opportunities)
    ensures r.Ok? ==>
              r.value == "Opportunità eliminata con successo" && db.opportunities == old(db.opportunities) - {id}
  {
    if id !in db.opportunities {
      return Err(Refused(404, "Opportunità non trovata"));
    }
    KeyedRemove(db.opportunities, db.nextOpportunityId, OpportunityKey, id);
    db.opportunities := db.opportunities - {id};
    r := Ok("Opportunità eliminata con successo");
  }

  /** The answer of getStats: the GROUP BY stage rows are the two maps. */
  datatype OpportunityStats = OpportunityStats(
    totalOpportunities: nat,
    totalValue: int,
    averageValue: real,
    stageCounts: map<OpportunityStage, int>,
    stageValues: map<OpportunityStage, int>)

  /** getStats: the count, the summed and average value, and per stage the
      count and summed value of its opportunities. */
  function OpportunityStatsOf(t: map<int, Opportunity>): (s: OpportunityStats)
    ensures s.totalOpportunities == |t|
    ensures s.totalValue == Sum(Rows(t), ValueOf)
    ensures |t| == 0 ==> s.totalValue == 0 && s.averageValue == 0.0
    ensures s.averageValue == Average(s.totalValue, s.totalOpportunities)
    ensures s.stageCounts.Keys == s.stageValues.Keys
  {
    var rows := Rows(t);
    var counts := Tally(rows, StageOf);
    var values := GroupSum(rows, StageOf, ValueOf);
    assert counts.Keys == values.Keys by {
      forall k ensures k in counts <==> k in values {
        TallyCounts(rows, StageOf, k);
        GroupSumIs(rows, StageOf, ValueOf, k);
      }
    }
    OpportunityStats(|t|, Sum(rows, ValueOf), Average(Sum(rows, ValueOf), |t|), counts, values)
  }

  /** Each opportunity falls in exactly one stage group: a stage's group
      counts and sums exactly its opportunities, and the groups add up to the
      totals. */
  lemma StageGroupsPartition(t: map<int, Opportunity>, stage: OpportunityStage)
    ensures var s := OpportunityStatsOf(t);
            && (stage in s.stageCounts ==>
                  s.stageCounts[stage] == Count(Rows(t), KeyIs(StageOf, stage))
                  && s.stageValues[stage] == Sum(Filter(Rows(t), KeyIs(StageOf, stage)), ValueOf))
            && (stage !in s.stageCounts ==> Count(Rows(t), KeyIs(StageOf, stage)) == 0)
            && MapSum(s.stageCounts) == s.totalOpportunities
            && MapSum(s.stageValues) == s.totalValue
  {
    TallyCounts(Rows(t), StageOf, stage);
    GroupSumIs(Rows(t), StageOf, ValueOf, stage);
    TallyTotal(Rows(t), StageOf);
    GroupSumTotal(Rows(t), StageOf, ValueOf);
  }
}
