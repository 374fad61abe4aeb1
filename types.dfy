/** Shared values of the money-tracker backend: the transaction-type enum of the
    data model, the authenticated profile a bearer token carries, the rows of the
    two stores, and the error classes the handlers throw. */
module Types {

  datatype Option<+T> = None | Some(value: T)

  /** The `TransactionType` enum of the data model. */
  datatype TxType = Income | Expense

  /** The enum's wire spelling. */
  function TypeName(t: TxType): string
  {
    match t
    case Income => "INCOME"
    case Expense => "EXPENSE"
  }

  /** Reads a string as one of the enum's values, if it is one. */
  function TypeFromName(s: string): (r: Option<TxType>)
    ensures r.Some? <==> s == "INCOME" || s == "EXPENSE"
    ensures r.Some? ==> TypeName(r.value) == s
  {
    if s == "INCOME" then Some(Income)
    else if s == "EXPENSE" then Some(Expense)
    else None
  }

  lemma TypeNameRoundTrip(t: TxType)
    ensures TypeFromName(TypeName(t)) == Some(t)
  {
  }

  /** A point in time, in milliseconds; calendar and time-zone arithmetic is outside the model. */
  type Instant = int

  /** The claims of a verified token. `id` is `None` when the claim is absent. */
  datatype Profile = Profile(id: Option<int>, username: string)

  /** `user.id` when it is truthy: present and non-zero. */
  function TruthyId(user: Profile): (r: Option<int>)
    ensures r.Some? <==> user.id.Some? && user.id.value != 0
    ensures r.Some? ==> r.value == user.id.value && r.value != 0
  {
    if user.id.Some? && user.id.value != 0 then user.id else None
  }

  /** The handlers' sign-in check: the id of a present user whose id is truthy. */
  function SignedInId(user: Option<Profile>): (r: Option<int>)
    ensures r.Some? <==> user.Some? && user.value.id.Some? && user.value.id.value != 0
    ensures r.Some? ==> r.value != 0 && user.value.id == Some(r.value)
  {
    if user.Some? then TruthyId(user.value) else None
  }

  /** The thrown values: the two classes of the error module and a plain `Error`. */
  datatype AppError =
    | AuthenticationError(message: string)
    | BadRequestError(message: string)
    | PlainError(message: string)

  /** The messages the handlers put in the errors they throw. */
  const MsgPleaseSignIn: string := "Unauthorized: กรุณาเข้าสู่ระบบ"
  const MsgBadToken: string := "Unauthorized: Token ไม่ถูกต้อง"
  const MsgUnauthorized: string := "Unauthorized"

  /** What a store call gives back: the rows, or a failure (a thrown Prisma error). */
  datatype Reply<+T> = Rows(rows: T) | StoreFailure

  /** A query-string or body field that JavaScript treats as true: present and
      non-empty. It is also what a string schema with `minLength: 1` accepts. */
  predicate Truthy(s: Option<string>)
  {
    s.Some? && s.value != ""
  }

  /** A handler either returns a value or throws. */
  datatype Outcome<+T> = Done(value: T) | Thrown(error: AppError)

  /** A transaction row. */
  datatype Tx = Tx(
    id: int,
    title: string,
    amount: real,
    txType: TxType,
    date: Instant,
    note: Option<string>,
    userId: int,
    categoryId: int)

  /** A category row; (name, userId) is unique in the store. */
  datatype Category = Category(
    id: int,
    name: string,
    catType: TxType,
    userId: int,
    icon: string,
    color: string)
}
