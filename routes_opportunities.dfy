/** The opportunity routes (backend/src/routes/opportunities.ts). */
module OpportunityRoutes {
  import opened Common
  import opened Collections
  import opened OpportunityEntity

  /** The JSON body of POST and PUT /opportunities; value is in cents. The
      stage is not validated at this layer. */
  datatype OpportunityBody = OpportunityBody(
    title: Option<string>,
    description: Option<string>,
    value: Option<int>,
    probability: Option<int>,
    stage: Option<OpportunityStage>,
    expectedCloseDate: Option<string>,
    actualCloseDate: Option<string>,
    customerId: Option<int>)

  /** The checks of opportunityValidation, in the order the chain runs them. */
  datatype OpportunityCheck = TitleGiven | ValueNumeric | ProbabilityInRange | CustomerInteger

  /** The chain itself: every check once, in the order it runs. */
  const OpportunityChain: seq<OpportunityCheck> := [TitleGiven, ValueNumeric, ProbabilityInRange, CustomerInteger]

  /** The position of a check in the chain. */
  function OpportunityRank(c: OpportunityCheck): (i: nat)
    ensures i < |OpportunityChain| && OpportunityChain[i] == c
  {
    match c
    case TitleGiven => 0
    case ValueNumeric => 1
    case ProbabilityInRange => 2
    case CustomerInteger => 3
  }

  predicate OpportunityPasses(b: OpportunityBody, c: OpportunityCheck) {
    match c
    case TitleGiven => NotEmpty(b.title)
    case ValueNumeric => b.value.Some?
    case ProbabilityInRange => b.probability.Some? && 0 <= b.probability.value <= 100
    case CustomerInteger => b.customerId.Some?
  }

  /** The message a failed check sends. */
  function OpportunityMessage(c: OpportunityCheck): string {
    match c
    case TitleGiven => "Titolo richiesto"
    case ValueNumeric => "Valore deve essere numerico"
    case ProbabilityInRange => "Probabilità deve essere tra 0 e 100"
    case CustomerInteger => "ID cliente richiesto"
  }

  /** opportunityValidation holds: a non-empty title, a numeric value, an
      integer probability from 0 to 100 and an integer customerId. */
  predicate OpportunityValid(b: OpportunityBody) {
    && NotEmpty(b.title)
    && b.value.Some?
    && b.probability.Some? && 0 <= b.probability.value <= 100
    && b.customerId.Some?
  }

  function OpportunityFails(b: OpportunityBody): OpportunityCheck -> bool {
    c => !OpportunityPasses(b, c)
  }

  /** Every check is in the chain. */
  lemma OpportunityChainComplete()
    ensures forall c :: c in OpportunityChain
  {
    forall c ensures c in OpportunityChain {
      assert OpportunityChain[OpportunityRank(c)] == c;
    }
  }

  /** opportunityValidation holds iff the body passes every check of the chain. */
  lemma OpportunityValidAllPass(b: OpportunityBody)
    ensures OpportunityValid(b) <==> forall c :: OpportunityPasses(b, c)
  {
    if OpportunityValid(b) {
      forall c ensures OpportunityPasses(b, c) {
        assert c == OpportunityChain[OpportunityRank(c)];
      }
    } else {
      assert !OpportunityPasses(b, TitleGiven) || !OpportunityPasses(b, ValueNumeric) || !OpportunityPasses(b, ProbabilityInRange) || !OpportunityPasses(b, CustomerInteger);
    }
  }

  /** The checks that fail: exactly the ones the body does not pass, in chain
      order and each once. */
  function OpportunityFailures(b: OpportunityBody): (failed: seq<OpportunityCheck>)
    ensures forall c :: c in failed <==> !OpportunityPasses(b, c)
    ensures failed == [] <==> OpportunityValid(b)
    ensures StrictlyRanked(failed, OpportunityRank)
  {
    OpportunityChainComplete();
    OpportunityValidAllPass(b);
    FilterRanked(OpportunityChain, OpportunityFails(b), OpportunityRank);
    var failed := Filter(OpportunityChain, OpportunityFails(b));
    assert failed != [] ==> failed[0] in failed;
    failed
  }

  /** The errors array of a refused body: the message of each failed check, in chain order. */
  function OpportunityErrors(b: OpportunityBody): (errors: seq<string>)
    ensures errors == [] <==> OpportunityValid(b)
    ensures |errors| == |OpportunityFailures(b)|
    ensures forall i :: 0 <= i < |errors| ==> errors[i] == OpportunityMessage(OpportunityFailures(b)[i])
  {
    Messages(OpportunityFailures(b), OpportunityMessage)
  }

  /** GET /, GET /stats, GET /:id, POST /, PUT /:id, DELETE /:id. */
  datatype OpportunityRoute = GetList | GetStats | GetOne | PostOne | PutOne | DeleteOne

  /** Every opportunity route authenticates first; create and update also validate. */
  function OpportunitySteps(r: OpportunityRoute): (steps: seq<Step>)
    ensures |steps| >= 2 && steps[0] == Authenticate && steps[|steps| - 1] == Handle
    ensures Validate in steps <==> r == PostOne || r == PutOne
  {
    if r == PostOne || r == PutOne then [Authenticate, Validate, Handle] else [Authenticate, Handle]
  }
}
