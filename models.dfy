/** The record shapes of the two document collections the controllers work on. */
module Models {
  import opened Wrappers

  /** A document id (a MongoDB ObjectId), compared by value. */
  type UserId = string

  /** The part of a user document the friend controller reads and writes:
      the email it is looked up by and the three id arrays. */
  datatype User = User(
    email: string,
    friends: seq<UserId>,
    friendRequests: seq<UserId>,  // inbound, not yet answered
    sentRequests: seq<UserId>     // outbound, not yet answered
  )

  /** Expense ids are handed out by the store. */
  type ExpenseId = nat

  /** A point in time; never computed on here. */
  type Date = int

  /** A JavaScript number, stored and compared but never computed on here. */
  type Amount = real

  /** An expense document: the owning user, an optional title, a required amount,
      a category and a date. */
  datatype Expense = Expense(
    id: ExpenseId,
    user: UserId,
    title: Option<string>,
    amount: Amount,
    category: string,
    date: Date
  )

  /** What a controller answers: an HTTP status code and the message of the JSON body. */
  datatype Response = Response(status: int, message: string)

  /** The schema's default for a missing category. */
  const DefaultCategory: string := "others"
}
