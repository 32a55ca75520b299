/** The User record (backend/src/entity/User.ts): a login of the CRM. */
module UserEntity {
  import opened Common

  datatype UserRole = Admin | Salesperson | Manager

  /** The string a role is stored and compared as. */
  function RoleName(r: UserRole): string {
    match r
    case Admin => "admin"
    case Salesperson => "salesperson"
    case Manager => "manager"
  }

  /** The column default of role. */
  const DefaultRole: UserRole := Salesperson

  /** The column default of isActive. */
  const DefaultIsActive: bool := true

  /** A stored user; password holds the bcrypt hash, never the password itself.
      The email column is unique (the store keeps that as an invariant). */
  datatype User = User(
    id: int,
    email: string,
    password: string,
    firstName: string,
    lastName: string,
    role: UserRole,
    isActive: bool,
    createdAt: Instant,
    updatedAt: Instant)
}
