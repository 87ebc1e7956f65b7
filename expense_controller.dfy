/** The expense controller: the owner-scoped store operations, and the filter
    and sort documents that the listing operations build from the query string. */
module ExpenseController {
  import opened Wrappers
  import opened Models

  datatype ExpenseError = ExpenseNotFound | CreateFailed

  /** The response for each error. */
  function ErrorResponse(e: ExpenseError): (r: Response)
    ensures r.status == 404 <==> e == ExpenseNotFound
    ensures r.status == 500 <==> e == CreateFailed
    ensures e == ExpenseNotFound ==> r.message == "Expense not found"
    ensures e == CreateFailed ==> r.message == "Failed to create expense"
  {
    match e
    case ExpenseNotFound => Response(404, "Expense not found")
    case CreateFailed => Response(500, "Failed to create expense")
  }

  /** The three store operations. */
  datatype StoreOperation = Create | Update | Delete

  /** The response each store operation gives when it succeeds. */
  function SuccessResponse(op: StoreOperation): (r: Response)
    ensures op == Create <==> r.status == 201
    ensures op != Create <==> r.status == 200
    ensures op == Create ==> r.message == "Expense created successfully"
    ensures op == Update ==> r.message == "Expense updated successfully"
    ensures op == Delete ==> r.message == "Expense deleted successfully"
  {
    match op
    case Create => Response(201, "Expense created successfully")
    case Update => Response(200, "Expense updated successfully")
    case Delete => Response(200, "Expense deleted successfully")
  }

  /** The fields a create request's body supplies; an absent one is `None`. */
  datatype ExpenseInput = ExpenseInput(
    title: Option<string>,
    amount: Option<Amount>,
    category: Option<string>,
    date: Option<Date>
  )

  /** The fields an update request's body carries. The body is applied as it is,
      so it may name a new owner. */
  datatype ExpensePatch = ExpensePatch(
    user: Option<UserId>,
    title: Option<string>,
    amount: Option<Amount>,
    category: Option<string>,
    date: Option<Date>
  )

  /** An update that names no field. */
  const EmptyPatch: ExpensePatch := ExpensePatch(None, None, None, None, None)

  /** The expense after an update: each field the patch carries replaces the stored one. */
  function Patched(e: Expense, p: ExpensePatch): (r: Expense)
    ensures r.id == e.id
    ensures p.user.Some? ==> r.user == p.user.value
    ensures p.user.None? ==> r.user == e.user
    ensures p.title.Some? ==> r.title == p.title
    ensures p.title.None? ==> r.title == e.title
    ensures p.amount.Some? ==> r.amount == p.amount.value
    ensures p.amount.None? ==> r.amount == e.amount
    ensures p.category.Some? ==> r.category == p.category.value
    ensures p.category.None? ==> r.category == e.category
    ensures p.date.Some? ==> r.date == p.date.value
    ensures p.date.None? ==> r.date == e.date
  {
    Expense(
      e.id,
      p.user.GetOr(e.user),
      if p.title.Some? then p.title else e.title,
      p.amount.GetOr(e.amount),
      p.category.GetOr(e.category),
      p.date.GetOr(e.date))
  }

  /** An update that names no field leaves the expense as it was. */
  lemma EmptyPatchChangesNothing(e: Expense)
    ensures Patched(e, EmptyPatch) == e
  {
  }

  /** Applying the same update twice is the same as applying it once. */
  lemma PatchIdempotent(e: Expense, p: ExpensePatch)
    ensures Patched(Patched(e, p), p) == Patched(e, p)
  {
  }

  /** An update body that names a user hands the expense to that user. */
  lemma PatchCanReassignOwner(e: Expense, p: ExpensePatch, other: UserId)
    requires p.user == Some(other)
    ensures Patched(e, p).user == other
  {
  }

  /** The expense collection, keyed by `_id`; `nextId` is the next id handed out. */
  class ExpenseDb {
    var expenses: map<ExpenseId, Expense>
    var nextId: ExpenseId

    ghost predicate Valid()
      reads this
    {
      forall id :: id in expenses ==> expenses[id].id == id && id < nextId
    }

    constructor ()
      ensures Valid() && expenses == map[]
    {
      expenses := map[];
      nextId := 0;
    }

    /** The query `{ _id: id, user: caller }` matches a stored expense. */
    predicate OwnedBy(id: ExpenseId, caller: UserId)
      reads this
    {
      id in expenses && expenses[id].user == caller
    }

    /** `createExpense`: a new expense owned by the caller. A missing amount fails the
        schema's `required` check; a missing category or date takes the schema's default,
        the date default being the clock's `now`. */
    method CreateExpense(caller: UserId, input: ExpenseInput, now: Date) returns (r: Result<Expense, ExpenseError>)
      requires Valid()
      modifies this
      ensures Valid()
      ensures input.amount.None? ==> r == Failure(CreateFailed) && expenses == old(expenses) && nextId == old(nextId)
      ensures input.amount.Some? ==>
                && r.Success?
                && r.value.id !in old(expenses)
                && expenses == old(expenses)[r.value.id := r.value]
                && nextId == old(nextId) + 1
                && r.value.user == caller
                && r.value.title == input.title
                && r.value.amount == input.amount.value
                && r.value.category == input.category.GetOr(DefaultCategory)
                && r.value.date == input.date.GetOr(now)
    {
      if input.amount.None? {
        return Failure(CreateFailed);
      }
      var e := Expense(nextId, caller, input.title, input.amount.value,
                       input.category.GetOr(DefaultCategory), input.date.GetOr(now));
      expenses := expenses[nextId := e];
      nextId := nextId + 1;
      r := Success(e);
    }

    /** `updateExpense`: applies the patch to the caller's expense `id`, answering the new document. */
    method UpdateExpense(caller: UserId, id: ExpenseId, patch: ExpensePatch) returns (r: Result<Expense, ExpenseError>)
      requires Valid()
      modifies this
      ensures Valid() && nextId == old(nextId)
      ensures old(OwnedBy(id, caller)) ==>
                && r == Success(Patched(old(expenses)[id], patch))
                && expenses == old(expenses)[id := r.value]
      ensures !old(OwnedBy(id, caller)) ==> r == Failure(ExpenseNotFound) && expenses == old(expenses)
    {
      if !OwnedBy(id, caller) {
        return Failure(ExpenseNotFound);
      }
      var updated := Patched(expenses[id], patch);
      expenses := expenses[id := updated];
      r := Success(updated);
    }

    /** `deleteExpense`: removes the caller's expense `id` and nothing else. */
    method DeleteExpense(caller: UserId, id: ExpenseId) returns (r: Outcome<ExpenseError>)
      requires Valid()
      modifies this
      ensures Valid() && nextId == old(nextId)
      ensures old(OwnedBy(id, caller)) ==> r == Pass && expenses == old(expenses) - {id}
      ensures !old(OwnedBy(id, caller)) ==> r == Fail(ExpenseNotFound) && expenses == old(expenses)
    {
      if !OwnedBy(id, caller) {
        return Fail(ExpenseNotFound);
      }
      expenses := expenses - {id};
      r := Pass;
    }
  }

  // ---------------------------------------------------------------------------
  // Query construction.

  /** The query-string parameters `filterExpenses` reads; an absent one is `None`. */
  datatype Query = Query(
    category: Option<string>,
    startDate: Option<string>,
    endDate: Option<string>,
    date: Option<string>,
    minAmount: Option<string>,
    maxAmount: Option<string>,
    groupByCategory: Option<string>,
    sortBy: Option<string>,
    order: Option<string>
  )

  /** A query with no parameter at all. */
  const NoParameters: Query := Query(None, None, None, None, None, None, None, None, None)

  /** JavaScript truthiness of a query parameter: present and not the empty string. */
  predicate Given(p: Option<string>) {
    p.Some? && p.value != ""
  }

  /** The date a filter document compares with: `new Date(text)`, the first or last
      millisecond of the day `text` falls on, or of the current day. */
  datatype DateValue = DateOf(text: string) | StartOfDayOf(text: string) | EndOfDayOf(text: string)
                     | StartOfToday | EndOfToday

  /** The number a filter document compares with: `parseFloat(text)`. */
  datatype NumberValue = FloatOf(text: string)

  /** A `{ $gte, $lte }` condition with either bound optional. */
  datatype Range<T> = Range(gte: Option<T>, lte: Option<T>)

  /** A filter document: the owner, and optional category, date and amount conditions. */
  datatype Filter = Filter(
    user: UserId,
    category: Option<string>,
    date: Option<Range<DateValue>>,
    amount: Option<Range<NumberValue>>
  )

  /** A sort document with a single key; direction 1 is ascending, -1 descending. */
  datatype SortKey = SortKey(field: string, direction: int)

  /** The category aggregation: match the filter, group by category, sort groups by total. */
  datatype Grouping = Grouping(filter: Filter, totalDirection: int)

  /** Everything `filterExpenses` sends to the store. */
  datatype FilterPlan = FilterPlan(filter: Filter, sort: SortKey, grouping: Option<Grouping>)

  /** Everything `getExpenses` sends to the store, and whether it answers a total. */
  datatype ListPlan = ListPlan(filter: Filter, sort: SortKey, withTotal: bool)

  /** `order === "desc" ? -1 : 1`. */
  function Direction(order: Option<string>): (d: int)
    ensures d == 1 || d == -1
    ensures d == -1 <==> order == Some("desc")
  {
    if order == Some("desc") then -1 else 1
  }

  /** The date condition: an explicit range wins over a single day, and start and end
      each contribute their own bound. */
  function DateFilter(q: Query): (r: Option<Range<DateValue>>)
    ensures Given(q.startDate) && Given(q.endDate) ==>
              r == Some(Range(Some(DateOf(q.startDate.value)), Some(DateOf(q.endDate.value))))
    ensures Given(q.startDate) && !Given(q.endDate) ==> r == Some(Range(Some(DateOf(q.startDate.value)), None))
    ensures !Given(q.startDate) && Given(q.endDate) ==> r == Some(Range(None, Some(DateOf(q.endDate.value))))
    ensures !Given(q.startDate) && !Given(q.endDate) ==>
              r == if Given(q.date) then Some(Range(Some(StartOfDayOf(q.date.value)), Some(EndOfDayOf(q.date.value))))
                   else None
    ensures r.Some? ==> r.value.gte.Some? || r.value.lte.Some?
  {
    if Given(q.startDate) && Given(q.endDate) then
      Some(Range(Some(DateOf(q.startDate.value)), Some(DateOf(q.endDate.value))))
    else if Given(q.startDate) then
      Some(Range(Some(DateOf(q.startDate.value)), None))
    else if Given(q.endDate) then
      Some(Range(None, Some(DateOf(q.endDate.value))))
    else if Given(q.date) then
      Some(Range(Some(StartOfDayOf(q.date.value)), Some(EndOfDayOf(q.date.value))))
    else
      None
  }

  /** The amount condition: each bound present exactly when its parameter is given,
      and no condition at all when neither is. */
  function AmountFilter(q: Query): (r: Option<Range<NumberValue>>)
    ensures r.None? <==> !Given(q.minAmount) && !Given(q.maxAmount)
    ensures r.Some? ==> (r.value.gte.Some? <==> Given(q.minAmount))
    ensures r.Some? ==> (r.value.lte.Some? <==> Given(q.maxAmount))
    ensures r.Some? && r.value.gte.Some? ==> r.value.gte.value == FloatOf(q.minAmount.value)
    ensures r.Some? && r.value.lte.Some? ==> r.value.lte.value == FloatOf(q.maxAmount.value)
  {
    if Given(q.minAmount) || Given(q.maxAmount) then
      Some(Range(if Given(q.minAmount) then Some(FloatOf(q.minAmount.value)) else None,
                 if Given(q.maxAmount) then Some(FloatOf(q.maxAmount.value)) else None))
    else
      None
  }

  /** The filter document of `filterExpenses`, always scoped to the caller. */
  function BuildFilter(caller: UserId, q: Query): (f: Filter)
    ensures f.user == caller
    ensures f.category.Some? <==> Given(q.category)
    ensures f.category.Some? ==> f.category == q.category
    ensures f.date == DateFilter(q) && f.amount == AmountFilter(q)
  {
    Filter(caller, if Given(q.category) then q.category else None, DateFilter(q), AmountFilter(q))
  }

  /** The sort document: one key in the requested direction, or newest first by default. */
  function SortFor(q: Query): (s: SortKey)
    ensures Given(q.sortBy) ==> s.field == q.sortBy.value && (s.direction == -1 <==> q.order == Some("desc"))
    ensures !Given(q.sortBy) ==> s == SortKey("date", -1)
    ensures s.direction == 1 || s.direction == -1
  {
    if Given(q.sortBy) then SortKey(q.sortBy.value, Direction(q.order)) else SortKey("date", -1)
  }

  /** `filterExpenses`: the filter, the sort and, when `groupByCategory === "true"`,
      the category aggregation over the same filter. */
  function FilterExpenses(caller: UserId, q: Query): (p: FilterPlan)
    ensures p.filter == BuildFilter(caller, q) && p.sort == SortFor(q)
    ensures p.grouping.Some? <==> q.groupByCategory == Some("true")
    ensures p.grouping.Some? ==>
              p.grouping.value.filter == p.filter && (p.grouping.value.totalDirection == -1 <==> q.order == Some("desc"))
  {
    var f := BuildFilter(caller, q);
    FilterPlan(f, SortFor(q), if q.groupByCategory == Some("true") then Some(Grouping(f, Direction(q.order))) else None)
  }

  /** `getExpenses`: the caller's expenses newest-created first; only `today === "true"`
      restricts them to the current day and adds a total. */
  function GetExpenses(caller: UserId, today: Option<string>): (p: ListPlan)
    ensures p.filter.user == caller && p.filter.category.None? && p.filter.amount.None?
    ensures p.withTotal <==> today == Some("true")
    ensures p.filter.date.Some? <==> today == Some("true")
    ensures p.filter.date.Some? ==> p.filter.date.value == Range(Some(StartOfToday), Some(EndOfToday))
    ensures p.sort == SortKey("createdAt", -1)
  {
    var isToday := today == Some("true");
    ListPlan(Filter(caller, None, if isToday then Some(Range(Some(StartOfToday), Some(EndOfToday))) else None, None),
             SortKey("createdAt", -1), isToday)
  }

  /** A single `date` only matters when neither end of a range is given. */
  lemma DateIgnoredWhenRangeGiven(q: Query, d: Option<string>)
    requires Given(q.startDate) || Given(q.endDate)
    ensures DateFilter(q.(date := d)) == DateFilter(q)
  {
  }

  /** A category or date parameter given as the empty string builds the same documents as an absent one. */
  lemma EmptyFilterParameterIsAbsent(caller: UserId, q: Query)
    ensures FilterExpenses(caller, q.(category := Some(""))) == FilterExpenses(caller, q.(category := None))
    ensures FilterExpenses(caller, q.(startDate := Some(""))) == FilterExpenses(caller, q.(startDate := None))
    ensures FilterExpenses(caller, q.(endDate := Some(""))) == FilterExpenses(caller, q.(endDate := None))
    ensures FilterExpenses(caller, q.(date := Some(""))) == FilterExpenses(caller, q.(date := None))
  {
  }

  /** An amount bound given as the empty string builds the same documents as an absent one. */
  lemma EmptyAmountParameterIsAbsent(caller: UserId, q: Query)
    ensures FilterExpenses(caller, q.(minAmount := Some(""))) == FilterExpenses(caller, q.(minAmount := None))
    ensures FilterExpenses(caller, q.(maxAmount := Some(""))) == FilterExpenses(caller, q.(maxAmount := None))
  {
  }

  /** A grouping or sort parameter given as the empty string builds the same documents as an absent one. */
  lemma EmptySortParameterIsAbsent(caller: UserId, q: Query)
    ensures FilterExpenses(caller, q.(groupByCategory := Some(""))) == FilterExpenses(caller, q.(groupByCategory := None))
    ensures FilterExpenses(caller, q.(sortBy := Some(""))) == FilterExpenses(caller, q.(sortBy := None))
    ensures FilterExpenses(caller, q.(order := Some(""))) == FilterExpenses(caller, q.(order := None))
  {
  }

  // ---------------------------------------------------------------------------
  // What a filter document selects.

  /** `x` satisfies the range, once its bounds are evaluated by `eval`. */
  predicate InDateRange(r: Range<DateValue>, x: Date, eval: DateValue -> Date) {
    && (r.gte.Some? ==> eval(r.gte.value) <= x)
    && (r.lte.Some? ==> x <= eval(r.lte.value))
  }

  /** `x` satisfies the range, once its bounds are evaluated by `eval`. */
  predicate InAmountRange(r: Range<NumberValue>, x: Amount, eval: NumberValue -> Amount) {
    && (r.gte.Some? ==> eval(r.gte.value) <= x)
    && (r.lte.Some? ==> x <= eval(r.lte.value))
  }

  /** The expense matches the filter document. What a date or number expression denotes
      depends on the clock, the time zone and number parsing, so it is a parameter. */
  predicate Admits(f: Filter, e: Expense, dateOf: DateValue -> Date, numberOf: NumberValue -> Amount) {
    && e.user == f.user
    && (f.category.Some? ==> e.category == f.category.value)
    && (f.date.Some? ==> InDateRange(f.date.value, e.date, dateOf))
    && (f.amount.Some? ==> InAmountRange(f.amount.value, e.amount, numberOf))
  }

  /** What `Expense.find(filter)` selects: the ids of the stored expenses the filter document admits. */
  function Selected(expenses: map<ExpenseId, Expense>, f: Filter, dateOf: DateValue -> Date, numberOf: NumberValue -> Amount)
    : (ids: set<ExpenseId>)
    ensures ids <= expenses.Keys
    ensures forall id :: id in ids ==> expenses[id].user == f.user
    ensures forall id :: id in ids && f.category.Some? ==> expenses[id].category == f.category.value
  {
    set id | id in expenses && Admits(f, expenses[id], dateOf, numberOf)
  }

  /** Whatever the query, `filterExpenses` selects only the caller's own expenses. */
  lemma FilterSelectsOnlyOwn(expenses: map<ExpenseId, Expense>, caller: UserId, q: Query,
                             dateOf: DateValue -> Date, numberOf: NumberValue -> Amount)
    ensures forall id :: id in Selected(expenses, BuildFilter(caller, q), dateOf, numberOf) ==>
              expenses[id].user == caller
  {
  }

  /** With no parameters, `filterExpenses` selects exactly the caller's expenses. */
  lemma NoParametersSelectsAllOwn(expenses: map<ExpenseId, Expense>, caller: UserId,
                                  dateOf: DateValue -> Date, numberOf: NumberValue -> Amount)
    ensures forall id :: id in Selected(expenses, BuildFilter(caller, NoParameters), dateOf, numberOf) <==>
              id in expenses && expenses[id].user == caller
  {
  }

  /** Without `today === "true"`, `getExpenses` selects exactly the caller's expenses. */
  lemma GetExpensesSelectsAllOwn(expenses: map<ExpenseId, Expense>, caller: UserId, today: Option<string>,
                                 dateOf: DateValue -> Date, numberOf: NumberValue -> Amount)
    requires today != Some("true")
    ensures forall id :: id in Selected(expenses, GetExpenses(caller, today).filter, dateOf, numberOf) <==>
              id in expenses && expenses[id].user == caller
  {
  }
}
