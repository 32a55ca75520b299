/** The interaction routes (backend/src/routes/interactions.ts). */
module InteractionRoutes {
  import opened Common
  import opened Collections
  import opened InteractionEntity

  /** The JSON body of POST and PUT /interactions. kind is the field "type", as sent. */
  datatype InteractionBody = InteractionBody(
    kind: Option<string>,
    subject: Option<string>,
    content: Option<string>,
    attachments: Option<string>,
    customerId: Option<int>,
    userId: Option<int>)

  /** The checks of interactionValidation, in the order the chain runs them. */
  datatype InteractionCheck = TypeKnown | SubjectGiven | ContentGiven | CustomerInteger

  /** The chain itself: every check once, in the order it runs. */
  const InteractionChain: seq<InteractionCheck> := [TypeKnown, SubjectGiven, ContentGiven, CustomerInteger]

  /** The position of a check in the chain. */
  function InteractionRank(c: InteractionCheck): (i: nat)
    ensures i < |InteractionChain| && InteractionChain[i] == c
  {
    match c
    case TypeKnown => 0
    case SubjectGiven => 1
    case ContentGiven => 2
    case CustomerInteger => 3
  }

  predicate InteractionPasses(b: InteractionBody, c: InteractionCheck) {
    match c
    case TypeKnown => b.kind.Some? && ParseInteractionType(b.kind.value).Some?
    case SubjectGiven => NotEmpty(b.subject)
    case ContentGiven => NotEmpty(b.content)
    case CustomerInteger => b.customerId.Some?
  }

  /** The message a failed check sends. */
  function InteractionMessage(c: InteractionCheck): string {
    match c
    case TypeKnown => "Tipo interazione non valido"
    case SubjectGiven => "Oggetto richiesto"
    case ContentGiven => "Contenuto richiesto"
    case CustomerInteger => "ID cliente richiesto"
  }

  /** interactionValidation holds: a type among call, email, meeting and note,
      a non-empty subject and content, and an integer customerId. */
  predicate InteractionValid(b: InteractionBody) {
    && b.kind.Some? && ParseInteractionType(b.kind.value).Some?
    && NotEmpty(b.subject)
    && NotEmpty(b.content)
    && b.customerId.Some?
  }

  function InteractionFails(b: InteractionBody): InteractionCheck -> bool {
    c => !InteractionPasses(b, c)
  }

  /** Every check is in the chain. */
  lemma InteractionChainComplete()
    ensures forall c :: c in InteractionChain
  {
    forall c ensures c in InteractionChain {
      assert InteractionChain[InteractionRank(c)] == c;
    }
  }

  /** interactionValidation holds iff the body passes every check of the chain. */
  lemma InteractionValidAllPass(b: InteractionBody)
    ensures InteractionValid(b) <==> forall c :: InteractionPasses(b, c)
  {
    if InteractionValid(b) {
      forall c ensures InteractionPasses(b, c) {
        assert c == InteractionChain[InteractionRank(c)];
      }
    } else {
      assert !InteractionPasses(b, TypeKnown) || !InteractionPasses(b, SubjectGiven) || !InteractionPasses(b, ContentGiven) || !InteractionPasses(b, CustomerInteger);
    }
  }

  /** The checks that fail: exactly the ones the body does not pass, in chain
      order and each once. */
  function InteractionFailures(b: InteractionBody): (failed: seq<InteractionCheck>)
    ensures forall c :: c in failed <==> !InteractionPasses(b, c)
    ensures failed == [] <==> InteractionValid(b)
    ensures StrictlyRanked(failed, InteractionRank)
  {
    InteractionChainComplete();
    InteractionValidAllPass(b);
    FilterRanked(InteractionChain, InteractionFails(b), InteractionRank);
    var failed := Filter(InteractionChain, InteractionFails(b));
    assert failed != [] ==> failed[0] in failed;
    failed
  }

  /** The errors array of a refused body: the message of each failed check, in chain order. */
  function InteractionErrors(b: InteractionBody): (errors: seq<string>)
    ensures errors == [] <==> InteractionValid(b)
    ensures |errors| == |InteractionFailures(b)|
    ensures forall i :: 0 <= i < |errors| ==> errors[i] == InteractionMessage(InteractionFailures(b)[i])
  {
    Messages(InteractionFailures(b), InteractionMessage)
  }

  /** GET /, GET /recent, GET /customer/:customerId, GET /:id, POST /, PUT /:id, DELETE /:id. */
  datatype InteractionRoute = GetList | GetRecent | GetByCustomer | GetOne | PostOne | PutOne | DeleteOne

  /** Every interaction route authenticates first; create and update also validate. */
  function InteractionSteps(r: InteractionRoute): (steps: seq<Step>)
    ensures |steps| >= 2 && steps[0] == Authenticate && steps[|steps| - 1] == Handle
    ensures Validate in steps <==> r == PostOne || r == PutOne
  {
    if r == PostOne || r == PutOne then [Authenticate, Validate, Handle] else [Authenticate, Handle]
  }
}
