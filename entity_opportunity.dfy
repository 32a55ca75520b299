/** The Opportunity record (backend/src/entity/Opportunity.ts): a deal with one customer. */
module OpportunityEntity {
  import opened Common

  datatype OpportunityStage = Prospect | Qualified | Proposal | Negotiation | ClosedWon | ClosedLost

  /** The string a stage is stored and compared as. */
  function StageName(s: OpportunityStage): string {
    match s
    case Prospect => "prospect"
    case Qualified => "qualified"
    case Proposal => "proposal"
    case Negotiation => "negotiation"
    case ClosedWon => "closed_won"
    case ClosedLost => "closed_lost"
  }

  /** The column default of stage. */
  const DefaultStage: OpportunityStage := Prospect

  /** The column default of probability. */
  const DefaultProbability: int := 0

  /** A stored opportunity. value is the decimal(10,2) column in cents;
      probability is a percentage. */
  datatype Opportunity = Opportunity(
    id: int,
    title: string,
    description: Option<string>,
    value: int,
    probability: int,
    stage: OpportunityStage,
    expectedCloseDate: Option<Instant>,
    actualCloseDate: Option<Instant>,
    createdAt: Instant,
    updatedAt: Instant,
    customerId: int)

  /** The value and the stage of an opportunity, as key functions for sums and groupings. */
  function ValueOf(o: Opportunity): int { o.value }
  function StageOf(o: Opportunity): OpportunityStage { o.stage }

  /** Closed means won or lost; the others are open. */
  predicate IsClosed(s: OpportunityStage) {
    s == ClosedWon || s == ClosedLost
  }

  /** save() refreshes updatedAt only when an UPDATE is issued. */
  function SavedOpportunity(before: Opportunity, after: Opportunity, now: Instant): Opportunity
  {
    if after == before then before else after.(updatedAt := now)
  }
}
