/** The one domain entity: a transaction owned by a user. */
module Domain {
  import opened Calendar

  /** The closed set of transaction types. */
  datatype TxType = Income | Expense

  /** The wire name of a type, as the enum in the schemas spells it. */
  function TypeName(k: TxType): (s: string)
    ensures s == "INCOME" || s == "EXPENSE"
  {
    match k
    case Income => "INCOME"
    case Expense => "EXPENSE"
  }

  /** The owning user's identifier, as the session reports it. */
  type UserId = string

  /**
   * A stored transaction row. The store's generated `id` and `createdAt`
   * columns are not part of this model.
   */
  datatype Transaction = Transaction(
    amount: real,
    description: string,
    kind: TxType,
    date: CalendarDate,
    userId: UserId)
}
