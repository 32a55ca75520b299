/** The Customer record (backend/src/entity/Customer.ts). */
module CustomerEntity {
  import opened Common

  datatype CustomerStatus = Prospect | Active | Inactive | Lost

  /** The string a status is stored and compared as. */
  function CustomerStatusName(s: CustomerStatus): string {
    match s
    case Prospect => "prospect"
    case Active => "active"
    case Inactive => "inactive"
    case Lost => "lost"
  }

  /** The column default of status. */
  const DefaultCustomerStatus: CustomerStatus := Prospect

  /** A stored customer: only name is required. Its opportunities and
      interactions are the rows of those tables whose customerId is its id. */
  datatype Customer = Customer(
    id: int,
    name: string,
    company: Option<string>,
    industry: Option<string>,
    email: Option<string>,
    phone: Option<string>,
    address: Option<string>,
    city: Option<string>,
    country: Option<string>,
    status: CustomerStatus,
    notes: Option<string>,
    createdAt: Instant,
    updatedAt: Instant)

  /** save() refreshes updatedAt only when an UPDATE is issued, that is when
      a column changed. */
  function SavedCustomer(before: Customer, after: Customer, now: Instant): Customer
  {
    if after == before then before else after.(updatedAt := now)
  }
}
