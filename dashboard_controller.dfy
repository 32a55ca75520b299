/** The dashboard controller (backend/src/controller/DashboardController.ts):
    counters over the tables and four reports over a creation-date period.
    Nothing is stored; each value is a count, a sum or a tally of rows. */
module DashboardController {
  import opened Common
  import opened Collections
  import opened CustomerEntity
  import opened OpportunityEntity
  import opened ActivityEntity
  import opened InteractionEntity
  import opened Store

  // ---------------------------------------------------------------- counters

  function CustomerStatusOf(c: Customer): CustomerStatus { c.status }
  function ActivityStatusOf(a: Activity): ActivityStatus { a.status }
  function ActivityTypeOf(a: Activity): ActivityType { a.kind }

  function IsActiveCustomer(c: Customer): bool { c.status == Active }
  function CreatedSince(start: Instant): Customer -> bool {
    (c: Customer) => c.createdAt >= start
  }
  function IsOpen(o: Opportunity): bool { !IsClosed(o.stage) }
  function IsWon(o: Opportunity): bool { o.stage == ClosedWon }
  function IsLost(o: Opportunity): bool { o.stage == ClosedLost }
  function IsPending(a: Activity): bool { a.status == Pending }

  /** Due strictly before now and not completed. */
  predicate Overdue(now: Instant, a: Activity) {
    a.dueDate < now && a.status != Completed
  }

  function OverdueAt(now: Instant): Activity -> bool {
    a => Overdue(now, a)
  }

  function LoggedSince(start: Instant): Interaction -> bool {
    (i: Interaction) => i.createdAt >= start
  }

  /** The counters and charts of getDashboardStats. */
  datatype DashboardStats = DashboardStats(
    totalCustomers: nat, activeCustomers: nat, newCustomersThisMonth: nat,
    totalOpportunities: nat, openOpportunities: nat, totalValue: int, wonOpportunities: nat,
    totalActivities: nat, pendingActivities: nat, overdueActivities: nat,
    totalInteractions: nat, interactionsThisWeek: nat,
    opportunityCountByStage: map<OpportunityStage, int>,
    opportunityValueByStage: map<OpportunityStage, int>,
    activitiesByType: map<ActivityType, int>)

  /** getDashboardStats at instant now; monthStart is the first instant of
      the current calendar month. */
  function DashboardStatsOf(
    customers: map<int, Customer>, opportunities: map<int, Opportunity>,
    activities: map<int, Activity>, interactions: map<int, Interaction>,
    now: Instant, monthStart: Instant): (s: DashboardStats)
    ensures s.totalCustomers == |customers| && s.totalOpportunities == |opportunities|
    ensures s.totalActivities == |activities| && s.totalInteractions == |interactions|
    ensures s.activeCustomers == Count(Rows(customers), IsActiveCustomer)
    ensures s.newCustomersThisMonth == Count(Rows(customers), CreatedSince(monthStart))
    ensures s.openOpportunities == Count(Rows(opportunities), IsOpen)
    ensures s.wonOpportunities == Count(Rows(opportunities), IsWon)
    ensures s.totalValue == Sum(Rows(opportunities), ValueOf)
    ensures s.pendingActivities == Count(Rows(activities), IsPending)
    ensures s.overdueActivities == Count(Rows(activities), OverdueAt(now))
    ensures s.interactionsThisWeek == Count(Rows(interactions), LoggedSince(now - 7 * DayMs))
    ensures s.opportunityCountByStage.Keys == s.opportunityValueByStage.Keys
    ensures s.openOpportunities + s.wonOpportunities <= s.totalOpportunities
  {
    var opps := Rows(opportunities);
    var counts := Tally(opps, StageOf);
    var values := GroupSum(opps, StageOf, ValueOf);
    assert counts.Keys == values.Keys by {
      forall k ensures k in counts <==> k in values {
        TallyCounts(opps, StageOf, k);
        GroupSumIs(opps, StageOf, ValueOf, k);
      }
    }
    OpenWonLostPartition(opps);
    DashboardStats(
      |customers|, Count(Rows(customers), IsActiveCustomer), Count(Rows(customers), CreatedSince(monthStart)),
      |opportunities|, Count(opps, IsOpen), Sum(opps, ValueOf), Count(opps, IsWon),
      |activities|, Count(Rows(activities), IsPending), Count(Rows(activities), OverdueAt(now)),
      |interactions|, Count(Rows(interactions), LoggedSince(now - 7 * DayMs)),
      counts, values, Tally(Rows(activities), ActivityTypeOf))
  }

  /** Every opportunity is exactly one of open, won and lost. */
  lemma {:induction false} OpenWonLostPartition(opps: seq<Opportunity>)
    ensures Count(opps, IsOpen) + Count(opps, IsWon) + Count(opps, IsLost) == |opps|
  {
    if opps != [] {
      OpenWonLostPartition(opps[..|opps| - 1]);
    }
  }

  /** An overdue activity is never a completed one, and it stays overdue as
      time passes: the overdue count can only grow with now. */
  lemma {:induction false} OverdueGrows(acts: seq<Activity>, now: Instant, later: Instant)
    requires now <= later
    ensures Count(acts, OverdueAt(now)) <= Count(acts, OverdueAt(later))
  {
    if acts != [] {
      OverdueGrows(acts[..|acts| - 1], now, later);
    }
  }

  /** The charts of the dashboard: each stage's opportunity count and value
      sum cover exactly the opportunities in that stage, each activity type's
      entry counts exactly the activities of that type, and a stage or type
      appears only when some row has it. */
  lemma DashboardCharts(
    customers: map<int, Customer>, opportunities: map<int, Opportunity>,
    activities: map<int, Activity>, interactions: map<int, Interaction>,
    now: Instant, monthStart: Instant, stage: OpportunityStage, kind: ActivityType)
    ensures var s := DashboardStatsOf(customers, opportunities, activities, interactions, now, monthStart);
            && (stage in s.opportunityCountByStage <==> Count(Rows(opportunities), KeyIs(StageOf, stage)) > 0)
            && (stage in s.opportunityCountByStage ==>
                  && s.opportunityCountByStage[stage] == Count(Rows(opportunities), KeyIs(StageOf, stage))
                  && s.opportunityValueByStage[stage] ==
                       Sum(Filter(Rows(opportunities), KeyIs(StageOf, stage)), ValueOf))
            && (kind in s.activitiesByType <==> Count(Rows(activities), KeyIs(ActivityTypeOf, kind)) > 0)
            && (kind in s.activitiesByType ==>
                  s.activitiesByType[kind] == Count(Rows(activities), KeyIs(ActivityTypeOf, kind)))
            && MapSum(s.opportunityCountByStage) == s.totalOpportunities
            && MapSum(s.opportunityValueByStage) == s.totalValue
            && MapSum(s.activitiesByType) == s.totalActivities
  {
    TallyCounts(Rows(opportunities), StageOf, stage);
    GroupSumIs(Rows(opportunities), StageOf, ValueOf, stage);
    TallyCounts(Rows(activities), ActivityTypeOf, kind);
    TallyTotal(Rows(opportunities), StageOf);
    GroupSumTotal(Rows(opportunities), StageOf, ValueOf);
    TallyTotal(Rows(activities), ActivityTypeOf);
  }

  // ------------------------------------------------------------------ period

  /** The startDate and endDate query parameters of a report. */
  datatype Period = Period(startDate: Option<string>, endDate: Option<string>)

  /** The date-range filter: a bound applies only when it is given. */
  predicate InPeriod(lib: Library, p: Period, t: Instant) {
    && (Given(p.startDate) ==> lib.toInstant(p.startDate.value) <= t)
    && (Given(p.endDate) ==> t <= lib.toInstant(p.endDate.value))
  }

  function CustomerIn(lib: Library, p: Period): Customer -> bool {
    (c: Customer) => InPeriod(lib, p, c.createdAt)
  }

  function OpportunityIn(lib: Library, p: Period): Opportunity -> bool {
    (o: Opportunity) => InPeriod(lib, p, o.createdAt)
  }

  function ActivityIn(lib: Library, p: Period): Activity -> bool {
    (a: Activity) => InPeriod(lib, p, a.createdAt)
  }

  // --------------------------------------------------------- customer report

  /** The label a customer is tallied under by industry: 'Non specificato'
      when the industry is missing or empty. */
  function IndustryLabel(c: Customer): (tag: string)
    ensures c.industry.Some? && c.industry.value != "" ==> tag == c.industry.value
    ensures c.industry.None? || c.industry.value == "" ==> tag == "Non specificato"
  {
    if c.industry.Some? && c.industry.value != "" then c.industry.value else "Non specificato"
  }

  datatype CustomerReport = CustomerReport(
    totalCustomers: nat, byStatus: map<CustomerStatus, int>, byIndustry: map<string, int>, data: seq<Customer>)

  /** generateCustomerReport: the customers created in the period, tallied
      by status and by industry. */
  function CustomerReportOf(lib: Library, p: Period, customers: map<int, Customer>): (r: CustomerReport)
    ensures forall c :: c in r.data <==> c in customers.Values && InPeriod(lib, p, c.createdAt)
    ensures r.totalCustomers == |r.data| == Count(Rows(customers), CustomerIn(lib, p))
  {
    var data := Filter(Rows(customers), CustomerIn(lib, p));
    CustomerReport(|data|, Tally(data, CustomerStatusOf), Tally(data, IndustryLabel), data)
  }

  /** The status tally and the industry tally each add up to the number of
      customers in the report; 'Non specificato' is present exactly when some
      customer is labelled so (no industry, an empty one, or that very text),
      and counts those customers. */
  lemma CustomerReportTallies(lib: Library, p: Period, customers: map<int, Customer>)
    ensures var r := CustomerReportOf(lib, p, customers);
            && MapSum(r.byStatus) == r.totalCustomers
            && MapSum(r.byIndustry) == r.totalCustomers
            && ("Non specificato" in r.byIndustry <==>
                  Count(r.data, KeyIs(IndustryLabel, "Non specificato")) > 0)
            && ("Non specificato" in r.byIndustry ==>
                  r.byIndustry["Non specificato"] == Count(r.data, KeyIs(IndustryLabel, "Non specificato")))
  {
    var r := CustomerReportOf(lib, p, customers);
    TallyTotal(r.data, CustomerStatusOf);
    TallyTotal(r.data, IndustryLabel);
    TallyCounts(r.data, IndustryLabel, "Non specificato");
  }

  // ------------------------------------------------------ opportunity report

  datatype OpportunityReport = OpportunityReport(
    totalOpportunities: nat, totalValue: int, byStage: map<OpportunityStage, int>, averageValue: real,
    data: seq<Opportunity>)

  /** generateOpportunityReport: the opportunities created in the period,
      their summed and average value and their tally by stage. */
  function OpportunityReportOf(lib: Library, p: Period, opportunities: map<int, Opportunity>)
    : (r: OpportunityReport)
    ensures forall o :: o in r.data <==> o in opportunities.Values && InPeriod(lib, p, o.createdAt)
    ensures r.totalOpportunities == |r.data| == Count(Rows(opportunities), OpportunityIn(lib, p))
    ensures r.totalValue == Sum(r.data, ValueOf)
    ensures r.data == [] ==> r.totalValue == 0 && r.averageValue == 0.0
    ensures r.averageValue == Average(r.totalValue, r.totalOpportunities)
  {
    var data := Filter(Rows(opportunities), OpportunityIn(lib, p));
    var total := Sum(data, ValueOf);
    var avg := Average(total, |data|);
    OpportunityReport(|data|, total, Tally(data, StageOf), avg, data)
  }

  // --------------------------------------------------------- activity report

  function IsCompleted(a: Activity): bool { a.status == Completed }

  datatype ActivityReport = ActivityReport(
    totalActivities: nat, byStatus: map<ActivityStatus, int>, byType: map<ActivityType, int>,
    completionRate: real, data: seq<Activity>)

  /** generateActivityReport: the activities created in the period, tallied
      by status and type, with the percentage of them that is completed. */
  function ActivityReportOf(lib: Library, p: Period, activities: map<int, Activity>): (r: ActivityReport)
    ensures forall a :: a in r.data <==> a in activities.Values && InPeriod(lib, p, a.createdAt)
    ensures r.totalActivities == |r.data| == Count(Rows(activities), ActivityIn(lib, p))
    ensures r.data == [] ==> r.completionRate == 0.0
    ensures r.completionRate == Average(Count(r.data, IsCompleted) * 100, r.totalActivities)
  {
    var data := Filter(Rows(activities), ActivityIn(lib, p));
    var done := Count(data, IsCompleted);
    var rate := Average(done * 100, |data|);
    ActivityReport(|data|, Tally(data, ActivityStatusOf), Tally(data, ActivityTypeOf), rate, data)
  }

  /** The stage tally of the opportunity report adds up to its number of
      opportunities, and each stage counts the opportunities in that stage. */
  lemma OpportunityReportTallies(lib: Library, p: Period, opportunities: map<int, Opportunity>,
                                 stage: OpportunityStage)
    ensures var r := OpportunityReportOf(lib, p, opportunities);
            && MapSum(r.byStage) == r.totalOpportunities
            && (stage in r.byStage <==> Count(r.data, KeyIs(StageOf, stage)) > 0)
            && (stage in r.byStage ==> r.byStage[stage] == Count(r.data, KeyIs(StageOf, stage)))
  {
    var r := OpportunityReportOf(lib, p, opportunities);
    TallyTotal(r.data, StageOf);
    TallyCounts(r.data, StageOf, stage);
  }

  /** The status tally and the type tally of the activity report each add up
      to its number of activities. */
  lemma ActivityReportTallies(lib: Library, p: Period, activities: map<int, Activity>)
    ensures var r := ActivityReportOf(lib, p, activities);
            && MapSum(r.byStatus) == r.totalActivities
            && MapSum(r.byType) == r.totalActivities
  {
    var r := ActivityReportOf(lib, p, activities);
    TallyTotal(r.data, ActivityStatusOf);
    TallyTotal(r.data, ActivityTypeOf);
  }

  /** The completion rate is a percentage: between 0 and 100. */
  lemma CompletionRateBounded(lib: Library, p: Period, activities: map<int, Activity>)
    ensures 0.0 <= ActivityReportOf(lib, p, activities).completionRate <= 100.0
  {
    var r := ActivityReportOf(lib, p, activities);
    PercentBounded(Count(r.data, IsCompleted), r.totalActivities);
  }

  // ------------------------------------------------------------ sales report

  /** A won opportunity whose actualCloseDate lies in the period; a missing
      close date fails any given bound (NULL compares to nothing). */
  predicate ClosedWonIn(lib: Library, p: Period, o: Opportunity) {
    && o.stage == ClosedWon
    && (Given(p.startDate) ==>
          o.actualCloseDate.Some? && lib.toInstant(p.startDate.value) <= o.actualCloseDate.value)
    && (Given(p.endDate) ==>
          o.actualCloseDate.Some? && o.actualCloseDate.value <= lib.toInstant(p.endDate.value))
  }

  function SaleIn(lib: Library, p: Period): Opportunity -> bool {
    (o: Opportunity) => ClosedWonIn(lib, p, o)
  }

  /** One entry of topCustomers. */
  datatype CustomerSales = CustomerSales(customer: string, deals: int, revenue: int)

  function OfCustomerId(id: int): Opportunity -> bool {
    (o: Opportunity) => o.customerId == id
  }

  /** One step of the topCustomers reduce: a sale whose customer is loaded
      (and has a truthy id) adds one deal and its value to that customer's entry. */
  function AddSale(acc: map<int, CustomerSales>, o: Opportunity, customers: map<int, Customer>)
    : map<int, CustomerSales>
  {
    var id := o.customerId;
    if id in customers && id != 0 then
      var prev := if id in acc then acc[id] else CustomerSales(customers[id].name, 0, 0);
      acc[id := prev.(deals := prev.deals + 1, revenue := prev.revenue + o.value)]
    else acc
  }

  /** The topCustomers reduce over the sales, first to last. */
  function TopCustomers(sales: seq<Opportunity>, customers: map<int, Customer>): map<int, CustomerSales> {
    if sales == [] then map[]
    else AddSale(TopCustomers(sales[..|sales| - 1], customers), sales[|sales| - 1], customers)
  }

  /** What one step of the reduce does to the entry of one customer id. */
  lemma AddSaleAt(acc: map<int, CustomerSales>, o: Opportunity, customers: map<int, Customer>, id: int)
    ensures o.customerId != id ==> (id in AddSale(acc, o, customers) <==> id in acc)
    ensures o.customerId != id && id in acc ==> AddSale(acc, o, customers)[id] == acc[id]
    ensures o.customerId == id && id in customers && id != 0 ==>
              && id in AddSale(acc, o, customers)
              && var prev := if id in acc then acc[id] else CustomerSales(customers[id].name, 0, 0);
                 AddSale(acc, o, customers)[id] == prev.(deals := prev.deals + 1, revenue := prev.revenue + o.value)
    ensures o.customerId == id && !(id in customers && id != 0) ==> AddSale(acc, o, customers) == acc
  {
  }

  /** A customer has an entry exactly when it exists and has a sale; the entry
      carries its name and counts its sales. Sales of a missing customer are
      skipped. */
  lemma {:induction false} TopCustomersGroup(sales: seq<Opportunity>, customers: map<int, Customer>, id: int)
    ensures id in TopCustomers(sales, customers) <==>
              id in customers && id != 0 && Count(sales, OfCustomerId(id)) > 0
    ensures id in TopCustomers(sales, customers) ==>
              && TopCustomers(sales, customers)[id].customer == customers[id].name
              && TopCustomers(sales, customers)[id].deals == Count(sales, OfCustomerId(id))
  {
    if sales != [] {
      var prefix := sales[..|sales| - 1];
      var o := sales[|sales| - 1];
      var p := OfCustomerId(id);
      var before := TopCustomers(prefix, customers);
      var after := TopCustomers(sales, customers);
      assert after == AddSale(before, o, customers);
      TopCustomersGroup(prefix, customers, id);
      AddSaleAt(before, o, customers, id);
      if o.customerId == id {
        assert Count(sales, p) == Count(prefix, p) + 1;
        if id in customers && id != 0 {
          assert after[id].deals == Count(sales, p);
        } else {
          assert after == before;
        }
      } else {
        assert Count(sales, p) == Count(prefix, p);
        assert id in after <==> id in before;
      }
    }
  }

  /** One step of the reduce keeps an entry's revenue equal to the sum over the
      sales seen so far for that customer. */
  lemma AddSaleRevenue(before: map<int, CustomerSales>, o: Opportunity, customers: map<int, Customer>,
                       id: int, seen: seq<Opportunity>)
    requires id in before ==> before[id].revenue == Sum(seen, ValueOf)
    requires id in before ==> id in customers && id != 0
    requires id !in before ==> seen == []
    ensures id in AddSale(before, o, customers) ==>
              AddSale(before, o, customers)[id].revenue ==
                Sum(if o.customerId == id then seen + [o] else seen, ValueOf)
  {
    AddSaleAt(before, o, customers, id);
    if o.customerId == id {
      SumAppend(seen, o, ValueOf);
    }
  }

  /** The revenue of a customer's entry is the sum of the values of its sales. */
  lemma {:induction false} TopCustomersRevenue(sales: seq<Opportunity>, customers: map<int, Customer>, id: int)
    ensures id in TopCustomers(sales, customers) ==>
              TopCustomers(sales, customers)[id].revenue == Sum(Filter(sales, OfCustomerId(id)), ValueOf)
  {
    if sales != [] {
      var prefix := sales[..|sales| - 1];
      var o := sales[|sales| - 1];
      var p := OfCustomerId(id);
      var before := TopCustomers(prefix, customers);
      TopCustomersRevenue(prefix, customers, id);
      TopCustomersGroup(prefix, customers, id);
      if id !in before && Count(prefix, p) > 0 {
        // the customer is missing, so no step adds its entry
        AddSaleAt(before, o, customers, id);
      } else {
        AddSaleRevenue(before, o, customers, id, Filter(prefix, p));
      }
    }
  }

  datatype SalesReport = SalesReport(
    totalSales: nat, totalRevenue: int, averageDealSize: real, topCustomers: map<int, CustomerSales>,
    data: seq<Opportunity>)

  /** generateSalesReport: the won opportunities closed in the period, their
      revenue, average deal size and per-customer grouping. */
  function SalesReportOf(lib: Library, p: Period, opportunities: map<int, Opportunity>,
                         customers: map<int, Customer>): (r: SalesReport)
    ensures forall o :: o in r.data <==> o in opportunities.Values && ClosedWonIn(lib, p, o)
    ensures r.totalSales == |r.data| == Count(Rows(opportunities), SaleIn(lib, p))
    ensures r.totalRevenue == Sum(r.data, ValueOf)
    ensures r.data == [] ==> r.totalRevenue == 0 && r.averageDealSize == 0.0 && r.topCustomers == map[]
    ensures r.averageDealSize == Average(r.totalRevenue, r.totalSales)
    ensures forall id :: id in r.topCustomers ==> id in customers
  {
    var data := Filter(Rows(opportunities), SaleIn(lib, p));
    var top := TopCustomers(data, customers);
    assert forall id :: id in top ==> id in customers by {
      forall id | id in top ensures id in customers {
        TopCustomersGroup(data, customers, id);
      }
    }
    SalesReport(|data|, Sum(data, ValueOf), Average(Sum(data, ValueOf), |data|), top, data)
  }

  // ----------------------------------------------------------------- reports

  datatype Report =
    | Customers(customers: CustomerReport)
    | Opportunities(opportunities: OpportunityReport)
    | Activities(activities: ActivityReport)
    | Sales(sales: SalesReport)

  /** The title each report carries. */
  function Title(r: Report): string {
    match r
    case Customers(_) => "Report Clienti"
    case Opportunities(_) => "Report Opportunità"
    case Activities(_) => "Report Attività"
    case Sales(_) => "Report Vendite"
  }

  /** getReports: the report the type names, or 400 for any other type. */
  function GetReport(lib: Library, kind: Option<string>, p: Period, customers: map<int, Customer>,
                     opportunities: map<int, Opportunity>, activities: map<int, Activity>): (r: Result<Report>)
    ensures r.Err? <==> kind.None? || kind.value !in ["customers", "opportunities", "activities", "sales"]
    ensures r.Err? ==> r.failure == Refused(400, "Tipo di report non valido")
    ensures kind == Some("customers") ==> r == Ok(Customers(CustomerReportOf(lib, p, customers)))
    ensures kind == Some("opportunities") ==> r == Ok(Opportunities(OpportunityReportOf(lib, p, opportunities)))
    ensures kind == Some("activities") ==> r == Ok(Activities(ActivityReportOf(lib, p, activities)))
    ensures kind == Some("sales") ==> r == Ok(Sales(SalesReportOf(lib, p, opportunities, customers)))
  {
    if kind == Some("customers") then Ok(Customers(CustomerReportOf(lib, p, customers)))
    else if kind == Some("opportunities") then Ok(Opportunities(OpportunityReportOf(lib, p, opportunities)))
    else if kind == Some("activities") then Ok(Activities(ActivityReportOf(lib, p, activities)))
    else if kind == Some("sales") then Ok(Sales(SalesReportOf(lib, p, opportunities, customers)))
    else Err(Refused(400, "Tipo di report non valido"))
  }

  /** Each report getReports answers carries the title of its type. */
  lemma ReportTitles(lib: Library, kind: Option<string>, p: Period, customers: map<int, Customer>,
                     opportunities: map<int, Opportunity>, activities: map<int, Activity>)
    ensures var r := GetReport(lib, kind, p, customers, opportunities, activities);
            && (kind == Some("customers") ==> r.Ok? && Title(r.value) == "Report Clienti")
            && (kind == Some("opportunities") ==> r.Ok? && Title(r.value) == "Report Opportunità")
            && (kind == Some("activities") ==> r.Ok? && Title(r.value) == "Report Attività")
            && (kind == Some("sales") ==> r.Ok? && Title(r.value) == "Report Vendite")
  {
    var r := GetReport(lib, kind, p, customers, opportunities, activities);
    if kind == Some("customers") {
      assert r.value.Customers?;
    } else if kind == Some("opportunities") {
      assert r.value.Opportunities?;
    } else if kind == Some("activities") {
      assert r.value.Activities?;
    } else if kind == Some("sales") {
      assert r.value.Sales?;
    }
  }
}
