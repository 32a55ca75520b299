/** The customer routes (backend/src/routes/customers.ts). */
module CustomerRoutes {
  import opened Common
  import opened Collections
  import opened CustomerEntity

  /** The JSON body of POST and PUT /customers. The status is not validated at this layer. */
  datatype CustomerBody = CustomerBody(
    name: Option<string>,
    company: Option<string>,
    industry: Option<string>,
    email: Option<string>,
    phone: Option<string>,
    address: Option<string>,
    city: Option<string>,
    country: Option<string>,
    status: Option<CustomerStatus>,
    notes: Option<string>)

  /** The checks of customerValidation, in the order the chain runs them. */
  datatype CustomerCheck = NameGiven | EmailValid | PhoneValid

  /** The chain itself: every check once, in the order it runs. */
  const CustomerChain: seq<CustomerCheck> := [NameGiven, EmailValid, PhoneValid]

  /** The position of a check in the chain. */
  function CustomerRank(c: CustomerCheck): (i: nat)
    ensures i < |CustomerChain| && CustomerChain[i] == c
  {
    match c
    case NameGiven => 0
    case EmailValid => 1
    case PhoneValid => 2
  }

  predicate CustomerPasses(lib: Library, b: CustomerBody, c: CustomerCheck) {
    match c
    case NameGiven => NotEmpty(b.name)
    case EmailValid => b.email.Some? ==> lib.isEmail(b.email.value)
    case PhoneValid => b.phone.Some? ==> lib.isMobilePhone(b.phone.value)
  }

  /** The message a failed check sends. */
  function CustomerMessage(c: CustomerCheck): string {
    match c
    case NameGiven => "Nome richiesto"
    case EmailValid => "Email non valida"
    case PhoneValid => "Numero di telefono non valido"
  }

  /** customerValidation holds: a non-empty name; an email, when sent, that
      isEmail accepts; a phone, when sent, that isMobilePhone accepts. */
  predicate CustomerValid(lib: Library, b: CustomerBody) {
    && NotEmpty(b.name)
    && (b.email.Some? ==> lib.isEmail(b.email.value))
    && (b.phone.Some? ==> lib.isMobilePhone(b.phone.value))
  }

  function CustomerFails(lib: Library, b: CustomerBody): CustomerCheck -> bool {
    c => !CustomerPasses(lib, b, c)
  }

  /** Every check is in the chain. */
  lemma CustomerChainComplete()
    ensures forall c :: c in CustomerChain
  {
    forall c ensures c in CustomerChain {
      assert CustomerChain[CustomerRank(c)] == c;
    }
  }

  /** customerValidation holds iff the body passes every check of the chain. */
  lemma CustomerValidAllPass(lib: Library, b: CustomerBody)
    ensures CustomerValid(lib, b) <==> forall c :: CustomerPasses(lib, b, c)
  {
    if CustomerValid(lib, b) {
      forall c ensures CustomerPasses(lib, b, c) {
        assert c == CustomerChain[CustomerRank(c)];
      }
    } else {
      assert !CustomerPasses(lib, b, NameGiven) || !CustomerPasses(lib, b, EmailValid) || !CustomerPasses(lib, b, PhoneValid);
    }
  }

  /** The checks that fail: exactly the ones the body does not pass, in chain
      order and each once. */
  function CustomerFailures(lib: Library, b: CustomerBody): (failed: seq<CustomerCheck>)
    ensures forall c :: c in failed <==> !CustomerPasses(lib, b, c)
    ensures failed == [] <==> CustomerValid(lib, b)
    ensures StrictlyRanked(failed, CustomerRank)
  {
    CustomerChainComplete();
    CustomerValidAllPass(lib, b);
    FilterRanked(CustomerChain, CustomerFails(lib, b), CustomerRank);
    var failed := Filter(CustomerChain, CustomerFails(lib, b));
    assert failed != [] ==> failed[0] in failed;
    failed
  }

  /** The errors array of a refused body: the message of each failed check, in chain order. */
  function CustomerErrors(lib: Library, b: CustomerBody): (errors: seq<string>)
    ensures errors == [] <==> CustomerValid(lib, b)
    ensures |errors| == |CustomerFailures(lib, b)|
    ensures forall i :: 0 <= i < |errors| ==> errors[i] == CustomerMessage(CustomerFailures(lib, b)[i])
  {
    Messages(CustomerFailures(lib, b), CustomerMessage)
  }

  /** GET /, GET /stats, GET /:id, POST /, PUT /:id, DELETE /:id. */
  datatype CustomerRoute = GetList | GetStats | GetOne | PostOne | PutOne | DeleteOne

  /** Every customer route authenticates first; create and update also validate. */
  function CustomerSteps(r: CustomerRoute): (steps: seq<Step>)
    ensures |steps| >= 2 && steps[0] == Authenticate && steps[|steps| - 1] == Handle
    ensures Validate in steps <==> r == PostOne || r == PutOne
  {
    if r == PostOne || r == PutOne then [Authenticate, Validate, Handle] else [Authenticate, Handle]
  }
}
