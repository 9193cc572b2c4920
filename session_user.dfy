/** The authenticated identity the backend keeps in a session
    (backend-dotnet/Models/SessionUser.cs). */
module Models {
  import opened Common

  /** The two role tags of `SessionRoles`. */
  const RoleUser: string := "user"
  const RoleAdmin: string := "admin"

  /** The positional record `SessionUser(Id, Name, Role, PhoneNumber, Email)`.
      The raw constructor accepts any role string and any combination of the two
      optional fields; only the factories below guarantee the role invariant. */
  datatype SessionUser = SessionUser(
    id: string,
    name: string,
    role: string,
    phoneNumber: Option<string>,
    email: Option<string>)

  /** A record whose role is one of the two tags and whose contact field is the
      one that role calls for: a phone number for a user, an email for an admin. */
  predicate WellFormed(u: SessionUser) {
    || (u.role == RoleUser && u.phoneNumber.Some? && u.email.None?)
    || (u.role == RoleAdmin && u.email.Some? && u.phoneNumber.None?)
  }

  /** `SessionUser.CreateEndUser`: an end user reached by phone. */
  function CreateEndUser(id: string, name: string, phoneNumber: string): (u: SessionUser)
    ensures u.id == id && u.name == name
    ensures u.role == RoleUser && u.phoneNumber == Some(phoneNumber) && u.email == None
    ensures WellFormed(u)
  {
    SessionUser(id, name, RoleUser, Some(phoneNumber), None)
  }

  /** `SessionUser.CreateAdmin`: an administrator reached by email. */
  function CreateAdmin(id: string, name: string, email: string): (u: SessionUser)
    ensures u.id == id && u.name == name
    ensures u.role == RoleAdmin && u.email == Some(email) && u.phoneNumber == None
    ensures WellFormed(u)
  {
    SessionUser(id, name, RoleAdmin, None, Some(email))
  }

  /** The factories are exactly the well-formed records: every well-formed record
      is the output of one factory, selected by its role, and of no other. */
  lemma WellFormedIsFactoryOutput(u: SessionUser)
    ensures WellFormed(u) <==>
      (u.role == RoleUser && u.phoneNumber.Some? && u == CreateEndUser(u.id, u.name, u.phoneNumber.value)) ||
      (u.role == RoleAdmin && u.email.Some? && u == CreateAdmin(u.id, u.name, u.email.value))
  {
  }

  /** Exactly one contact field is present in a well-formed record, and the role
      says which one. */
  lemma WellFormedExactlyOneContact(u: SessionUser)
    requires WellFormed(u)
    ensures u.phoneNumber.Some? != u.email.Some?
    ensures u.phoneNumber.Some? <==> u.role == RoleUser
    ensures u.role in {RoleUser, RoleAdmin}
  {
  }

  /** Two records from different factories never coincide, whatever their fields. */
  lemma FactoriesDisjoint(id: string, name: string, phone: string, id': string, name': string, email: string)
    ensures CreateEndUser(id, name, phone) != CreateAdmin(id', name', email)
  {
  }
}
