/** The Interaction record (backend/src/entity/Interaction.ts): a contact with a
    customer, logged by a user. It has a creation stamp and no update stamp. */
module InteractionEntity {
  import opened Common

  datatype InteractionType = Call | Email | Meeting | Note

  /** The string a type is stored and compared as. */
  function InteractionTypeName(t: InteractionType): string {
    match t
    case Call => "call"
    case Email => "email"
    case Meeting => "meeting"
    case Note => "note"
  }

  /** The type a request string names, if any. */
  function ParseInteractionType(s: string): (t: Option<InteractionType>)
    ensures t.Some? ==> InteractionTypeName(t.value) == s
    ensures t.None? ==> forall u :: InteractionTypeName(u) != s
  {
    if s == "call" then Some(Call)
    else if s == "email" then Some(Email)
    else if s == "meeting" then Some(Meeting)
    else if s == "note" then Some(Note)
    else None
  }

  /** A stored interaction. The JSON field "type" is called kind here;
      attachments is a JSON string of file paths. */
  datatype Interaction = Interaction(
    id: int,
    kind: InteractionType,
    subject: string,
    content: string,
    attachments: Option<string>,
    createdAt: Instant,
    customerId: int,
    userId: int)
}
