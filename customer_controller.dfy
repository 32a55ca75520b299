/** The customer controller (backend/src/controller/CustomerController.ts). */
module CustomerController {
  import opened Common
  import opened Collections
  import opened Strings
  import opened CustomerEntity
  import opened OpportunityEntity
  import opened InteractionEntity
  import opened Store
  import opened CustomerRoutes

  /** The query string of GET /customers; a filter applies when it is given,
      and page and limit fall back to 1 and 10. */
  datatype CustomerQuery = CustomerQuery(
    search: Option<string>, industry: Option<string>, status: Option<string>, page: Option<int>, limit: Option<int>)

  /** The sort key of ORDER BY createdAt DESC: ascending in it is newest first. */
  function NewestFirst(c: Customer): int {
    -c.createdAt
  }

  /** LIKE '%term%' on an optional column: a NULL column never matches. */
  predicate ColumnContains(column: Option<string>, term: string) {
    column.Some? && Contains(column.value, term)
  }

  /** The search term occurs in the name, the company or the email. */
  predicate MatchesSearch(c: Customer, term: string) {
    Contains(c.name, term) || ColumnContains(c.company, term) || ColumnContains(c.email, term)
  }

  /** c passes the search, industry and status filters the query gives. */
  predicate MatchesCustomerQuery(q: CustomerQuery, c: Customer) {
    && (Given(q.search) ==> MatchesSearch(c, q.search.value))
    && (Given(q.industry) ==> c.industry == Some(q.industry.value))
    && (Given(q.status) ==> CustomerStatusName(c.status) == q.status.value)
  }

  /** The WHERE clause getAll builds, read with SQL precedence when the
      search string is joined unbracketed to the andWhere filters: AND binds
      tighter than OR, so industry and status only constrain the email arm. */
  predicate MatchesCustomerQueryAsWritten(q: CustomerQuery, c: Customer) {
    var industryOk := Given(q.industry) ==> c.industry == Some(q.industry.value);
    var statusOk := Given(q.status) ==> CustomerStatusName(c.status) == q.status.value;
    if Given(q.search) then
      || Contains(c.name, q.search.value)
      || ColumnContains(c.company, q.search.value)
      || (ColumnContains(c.email, q.search.value) && industryOk && statusOk)
    else
      industryOk && statusOk
  }

  /** The two readings agree for every customer unless a search is combined
      with another filter. */
  lemma AsWrittenAgrees(q: CustomerQuery, c: Customer)
    requires !Given(q.search) || (!Given(q.industry) && !Given(q.status))
    ensures MatchesCustomerQueryAsWritten(q, c) <==> MatchesCustomerQuery(q, c)
  {
  }

  /** When a search meets another filter the unbracketed reading admits a name
      match from another industry: searching "Rossi" within industry "Tech"
      returns a "Rossi" in "Retail". */
  lemma SearchOrBindsLoosely(c: Customer)
    requires c.name == "Rossi" && c.industry == Some("Retail")
    ensures var q := CustomerQuery(Some("Rossi"), Some("Tech"), None, None, None);
            MatchesCustomerQueryAsWritten(q, c) && !MatchesCustomerQuery(q, c)
  {
    assert c.name[..5] == "Rossi";
  }

  function MatchesQuery(q: CustomerQuery): Customer -> bool {
    c => MatchesCustomerQuery(q, c)
  }

  /** The customers getAll answers before paging: exactly the matching ones,
      newest first. */
  function MatchingCustomers(t: map<int, Customer>, q: CustomerQuery): (r: seq<Customer>)
    ensures |r| == Count(Rows(t), MatchesQuery(q))
    ensures SortedBy(r, NewestFirst)
    ensures forall c :: c in r <==> c in t.Values && MatchesCustomerQuery(q, c)
  {
    SortBy(Filter(Rows(t), MatchesQuery(q)), NewestFirst)
  }

  /** getAll: one page of the matching customers. */
  function ListCustomers(t: map<int, Customer>, q: CustomerQuery): (p: Page<Customer>)
    requires PagingGiven(q.page, q.limit)
    ensures p.page == OrDefault(q.page, DefaultPage) && p.limit == OrDefault(q.limit, DefaultLimit)
    ensures p.total == |MatchingCustomers(t, q)|
    ensures p.totalPages == TotalPages(p.total, p.limit)
    ensures |p.items| <= p.limit
    ensures forall i :: 0 <= i < |p.items| ==>
              Skip(p.page, p.limit) + i < p.total
              && p.items[i] == MatchingCustomers(t, q)[Skip(p.page, p.limit) + i]
  {
    Paginate(MatchingCustomers(t, q), OrDefault(q.page, DefaultPage), OrDefault(q.limit, DefaultLimit))
  }

  /** A page of getAll is in newest-first order and holds only stored customers
      that match the query. */
  lemma ListedCustomersMatch(t: map<int, Customer>, q: CustomerQuery)
    requires PagingGiven(q.page, q.limit)
    ensures SortedBy(ListCustomers(t, q).items, NewestFirst)
    ensures forall c :: c in ListCustomers(t, q).items ==>
              c in t.Values && MatchesCustomerQuery(q, c)
  {
    PageOfSorted(MatchingCustomers(t, q), OrDefault(q.page, DefaultPage), OrDefault(q.limit, DefaultLimit), NewestFirst);
  }

  /** A customer with the relations getById loads. */
  datatype CustomerDetail = CustomerDetail(
    customer: Customer, opportunities: seq<Opportunity>, interactions: seq<Interaction>)

  function OpportunityOf(customerId: int): Opportunity -> bool {
    (o: Opportunity) => o.customerId == customerId
  }

  function InteractionOf(customerId: int): Interaction -> bool {
    (i: Interaction) => i.customerId == customerId
  }

  /** getById: the customer with its opportunities and interactions, or 404. */
  function FindCustomer(
    customers: map<int, Customer>, opportunities: map<int, Opportunity>,
    interactions: map<int, Interaction>, id: int): (r: Result<CustomerDetail>)
    ensures r.Ok? <==> id in customers
    ensures r.Ok? ==> r.value.customer == customers[id]
    ensures r.Ok? ==> forall o :: o in r.value.opportunities <==> o in opportunities.Values && o.customerId == id
    ensures r.Ok? ==> forall i :: i in r.value.interactions <==> i in interactions.Values && i.customerId == id
    ensures r.Err? ==> r.failure == Refused(404, "Cliente non trovato")
  {
    if id !in customers then Err(Refused(404, "Cliente non trovato"))
    else
      Ok(CustomerDetail(customers[id],
                        Filter(Rows(opportunities), OpportunityOf(id)),
                        Filter(Rows(interactions), InteractionOf(id))))
  }

  /** repository.create(body) for a valid body, with the column default for status. */
  function NewCustomer(body: CustomerBody, id: int, now: Instant): Customer
    requires body.name.Some?
  {
    Customer(id, body.name.value, body.company, body.industry, body.email, body.phone,
             body.address, body.city, body.country,
             if body.status.Some? then body.status.value else DefaultCustomerStatus,
             body.notes, now, now)
  }

  /** create: 400 with the validator's messages for a bad body; otherwise
      exactly one new customer (there is no parent to check). */
  method CreateCustomer(db: Db, lib: Library, body: CustomerBody, now: Instant) returns (r: Result<Customer>)
    requires db.Valid()
    modifies db`customers, db`nextCustomerId
    ensures db.Valid()
    ensures r.Ok? <==> CustomerValid(lib, body)
    ensures r.Err? ==>
              && r == Err(Invalid(CustomerErrors(lib, body)))
              && db.customers == old(db.customers) && db.nextCustomerId == old(db.nextCustomerId)
    ensures r.Ok? ==>
              && r.value == NewCustomer(body, old(db.nextCustomerId), now)
              && r.value.id !in old(db.customers)
              && db.customers == old(db.customers)[r.value.id := r.value]
  {
    var errors := CustomerErrors(lib, body);
    if errors != [] {
      return Err(Invalid(errors));
    }
    var c := NewCustomer(body, db.nextCustomerId, now);
    KeyedInsert(db.customers, db.nextCustomerId, CustomerKey, c);
    db.customers := db.customers[c.id := c];
    db.nextCustomerId := db.nextCustomerId + 1;
    r := Ok(c);
  }

  /** Picks the body's value of an optional field when it carries one. */
  function Overwrite<T>(field: Option<T>, stored: Option<T>): Option<T> {
    if field.Some? then field else stored
  }

  /** merge(customer, body): the body's fields overwrite the stored ones,
      the others stay as they were. */
  function MergeCustomer(stored: Customer, body: CustomerBody): (m: Customer)
    requires body.name.Some?
    ensures m.id == stored.id && m.createdAt == stored.createdAt && m.updatedAt == stored.updatedAt
    ensures m.name == body.name.value
    ensures m.status == if body.status.Some? then body.status.value else stored.status
    ensures m.company == Overwrite(body.company, stored.company)
    ensures m.industry == Overwrite(body.industry, stored.industry)
    ensures m.email == Overwrite(body.email, stored.email)
    ensures m.phone == Overwrite(body.phone, stored.phone)
    ensures m.address == Overwrite(body.address, stored.address)
    ensures m.city == Overwrite(body.city, stored.city)
    ensures m.country == Overwrite(body.country, stored.country)
    ensures m.notes == Overwrite(body.notes, stored.notes)
  {
    stored.(
      name := body.name.value,
      company := Overwrite(body.company, stored.company),
      industry := Overwrite(body.industry, stored.industry),
      email := Overwrite(body.email, stored.email),
      phone := Overwrite(body.phone, stored.phone),
      address := Overwrite(body.address, stored.address),
      city := Overwrite(body.city, stored.city),
      country := Overwrite(body.country, stored.country),
      status := if body.status.Some? then body.status.value else stored.status,
      notes := Overwrite(body.notes, stored.notes))
  }

  /** update: 400 for a bad body, 404 for a missing id; otherwise the merged
      record replaces the stored one and no other customer changes. */
  method UpdateCustomer(db: Db, lib: Library, id: int, body: CustomerBody, now: Instant)
    returns (r: Result<Customer>)
    requires db.Valid()
    modifies db`customers
    ensures db.Valid()
    ensures !CustomerValid(lib, body) ==> r == Err(Invalid(CustomerErrors(lib, body)))
    ensures CustomerValid(lib, body) && id !in old(db.customers) ==>
              r == Err(Refused(404, "Cliente non trovato"))
    ensures r.Ok? <==> CustomerValid(lib, body) && id in old(db.customers)
    ensures r.Err? ==> db.customers == old(db.customers)
    ensures r.Ok? ==>
              && r.value == SavedCustomer(old(db.customers)[id], MergeCustomer(old(db.customers)[id], body), now)
              && db.customers == old(db.customers)[id := r.value]
  {
    var errors := CustomerErrors(lib, body);
    if errors != [] {
      return Err(Invalid(errors));
    }
    if id !in db.customers {
      return Err(Refused(404, "Cliente non trovato"));
    }
    var stored := db.customers[id];
    var saved := SavedCustomer(stored, MergeCustomer(stored, body), now);
    KeyedReplace(db.customers, db.nextCustomerId, CustomerKey, id, saved);
    db.customers := db.customers[id := saved];
    r := Ok(saved);
  }

  /** delete: 404 for a missing id; otherwise exactly that customer is
      removed. The controller checks no dependent rows. */
  method DeleteCustomer(db: Db, id: int) returns (r: Result<string>)
    requires db.Valid()
    modifies db`customers
    ensures db.Valid()
    ensures r.Ok? <==> id in old(db.customers)
    ensures r.Err? ==> r.failure == Refused(404, "Cliente non trovato") && db.customers == old(db.customers)
    ensures r.Ok? ==> r.value == "Cliente eliminato con successo" && db.customers == old(db.customers) - {id}
  {
    if id !in db.customers {
      return Err(Refused(404, "Cliente non trovato"));
    }
    KeyedRemove(db.customers, db.nextCustomerId, CustomerKey, id);
    db.customers := db.customers - {id};
    r := Ok("Cliente eliminato con successo");
  }

  function HasStatus(s: CustomerStatus): Customer -> bool {
    (c: Customer) => c.status == s
  }

  /** The answer of getStats. */
  datatype CustomerStats = CustomerStats(
    totalCustomers: nat, activeCustomers: nat, prospectCustomers: nat, inactiveCustomers: nat)

  /** getStats: the total and the active, prospect and inactive counts. */
  function CustomerStatsOf(t: map<int, Customer>): (s: CustomerStats)
    ensures s.totalCustomers == |t|
    ensures s.activeCustomers == Count(Rows(t), HasStatus(Active))
    ensures s.prospectCustomers == Count(Rows(t), HasStatus(CustomerStatus.Prospect))
    ensures s.inactiveCustomers == Count(Rows(t), HasStatus(Inactive))
  {
    var rows := Rows(t);
    CustomerStats(|t|, Count(rows, HasStatus(Active)), Count(rows, HasStatus(CustomerStatus.Prospect)),
                  Count(rows, HasStatus(Inactive)))
  }

  /** Every row has exactly one of the four statuses. */
  lemma {:induction false} StatusesPartition(rows: seq<Customer>)
    ensures Count(rows, HasStatus(Active)) + Count(rows, HasStatus(CustomerStatus.Prospect))
            + Count(rows, HasStatus(Inactive)) + Count(rows, HasStatus(Lost)) == |rows|
  {
    if rows != [] {
      StatusesPartition(rows[..|rows| - 1]);
    }
  }

  /** The three counts of getStats leave out exactly the lost customers: they
      add up to the total less the lost ones. */
  lemma StatsLeaveOutLost(t: map<int, Customer>)
    ensures var s := CustomerStatsOf(t);
            s.activeCustomers + s.prospectCustomers + s.inactiveCustomers
              == s.totalCustomers - Count(Rows(t), HasStatus(Lost))
  {
    StatusesPartition(Rows(t));
  }
}
