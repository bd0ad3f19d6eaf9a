/** The stored records the services read: users and debts as the document
    store returns them, and the error a service can raise. */
module Records {
  import opened Wrappers

  /** A document id (`_id.toString()`), compared as a string. */
  type UserId = string

  /** Milliseconds since the epoch. */
  type Timestamp = int

  /** A user document, password hash included. */
  datatype User = User(id: UserId, name: string, email: string, password: string, isAdmin: bool)

  /** A user as it leaves the service: no password. */
  datatype PublicUser = PublicUser(id: UserId, name: string, email: string, isAdmin: bool)

  /** The fields `{ id, name, email, isAdmin }` of a user document. */
  function Public(u: User): PublicUser
  {
    PublicUser(u.id, u.name, u.email, u.isAdmin)
  }

  /** A debt document with its stored references to the debtor and the creditor. */
  datatype StoredDebt = StoredDebt(
    id: string,
    debtorId: UserId,
    creditorId: UserId,
    amount: real,
    description: string,
    dueDate: Timestamp,
    isSettled: bool,
    createdAt: Timestamp,
    updatedAt: Timestamp)

  /** The users collection, keyed by id, as `populate` consults it. */
  type Directory = map<UserId, User>

  /** `populate` finds both parties; otherwise the populated field is null. */
  predicate Populated(d: StoredDebt, users: Directory)
  {
    d.debtorId in users && d.creditorId in users
  }

  /** A service failure. Reading `_id` or `name` of a party that populate
      left null throws a TypeError. */
  datatype Fault = MissingParty

  datatype Result<T> = Success(value: T) | Failure(error: Fault)
}
