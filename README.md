# SpendWise: friend requests and expense queries in Dafny

This project models two controllers of the SpendWise expense tracker's server and proves properties of the model.

**The friend-request state machine** (`controllers/friendController.js`). Every user document carries three id arrays: `friends`, `friendRequests` (inbound, unanswered) and `sentRequests` (outbound, unanswered). Three operations change them:

- `sendRequest` looks the receiver up by email. It refuses when the sender is already among the receiver's requests or friends. Otherwise it appends the sender to the receiver's `friendRequests` and the receiver to the sender's `sentRequests`.
- `acceptRequest` refuses unless the sender is among the receiver's `friendRequests`. Otherwise it makes each user the other's friend and filters the pending edge out of both arrays.
- `rejectRequest` filters the pending edge out of both arrays, unconditionally.

Each operation is a pure transition on the user collection (`FriendController.SendTo`, `AcceptFrom`, `RejectFrom`). Each is also a method of the `FriendController.UserStore` class that updates the stored records step by step. The method's postcondition equates its result and new state with the transition. The lemmas prove three invariants preserved by every operation: friendship stays mutual, every pending request is recorded at both ends, and emails stay unique. They also prove that a repeated request is refused, that rejection is idempotent, and that the filtering keeps every other id in its original order and multiplicity. `Lists.Without` models `array.filter(id => id != x)`. `Lists.WithoutUnique` shows that order preservation plus the multiset of remaining ids determines its result.

**The expense controller** (`controllers/expenseController.js`). `ExpenseController.ExpenseDb` is a map-backed expense store with one method each for create, update and delete:

- create stamps the caller as owner and applies the schema's `required` check and defaults (`models/expenseModel.js`);
- update and delete act only when both `_id` and `user` match, and otherwise answer "Expense not found" and change nothing.

The listing operations are pure functions from the query-string parameters to the filter, sort and aggregation documents they send to the database (`FilterExpenses`, `GetExpenses`). `Admits` and `Selected` give a filter document its meaning over stored expenses. With them the model proves that a filter only ever selects the caller's own expenses, and selects all of them when no parameter narrows it.

The code is modelled as written. Two properties one might expect of a friend graph do not hold. A user can become their own friend (`SelfRequestMakesSelfFriend`). A user can be at once a friend and a pending requester of the same user (`CrossedRequestStaysPending`). The id lists are arrays, not sets: accepting both of two crossed requests lists the same friend twice. Shared expenses, settlement, an inbox and push notifications on them exist in no controller here, and the expense schema has no field for them, so they are not part of this model.

Modelling choices:

- Ids are compared by value. An id in an array equals the id a request names exactly when they denote the same document.
- A query parameter is `None` when absent. It counts as given, as JavaScript's truthiness has it, when present and non-empty.
- Dates, `parseFloat` results and day boundaries stay symbolic in the documents built (`DateValue`, `NumberValue`). `Admits` takes what they denote as function parameters.
- The clock's value for the schema's `Date.now` default is a parameter (`now`) of `CreateExpense`.
- Each `save` writes only the paths it changed, as Mongoose does. So both updates of an operation are applied in order to the current records. For two distinct users this is exactly what the code does. When sender and receiver are the same user, `sendRequest` fetches the sender after saving the receiver, so its second update does see the first. `acceptRequest` and `rejectRequest` instead fetch the one document twice before either save. Each save replaces an array, so Mongoose's version check would most likely reject the second save. The model applies both updates in that case too (see "## Left out").

## Model

| member | source | states |
|---|---|---|
| FriendController.SendResponse | controllers/friendController.js:8-23 | status 200 exactly for a sent request, 404 exactly for an unknown email, 400 exactly for an already-requested or befriended sender, each with the source's message |
| FriendController.AcceptResponse | controllers/friendController.js:33-46 | status 200 "Friend request accepted" exactly for an accepted request, 400 "No such request" exactly for a missing one |
| FriendController.SendTo | controllers/friendController.js:10-21 | refused with AlreadyRequestedOrFriends, nothing changed, iff the sender is in the receiver's requests or friends; on success, for every user, only the receiver's `friendRequests` gains the sender at the end and only the sender's `sentRequests` gains the receiver at the end; `friends` and emails unchanged |
| FriendController.AcceptFrom | controllers/friendController.js:33-44 | NoSuchRequest, nothing changed, iff the sender is not among the receiver's requests; on success each is in the other's `friends`, the edge is gone from both pending arrays, and every user's arrays change only at those two places |
| FriendController.RejectFrom | controllers/friendController.js:54-61 | the pending edge is gone from both arrays, every other id stays listed, no `friends` array or email changes, and other users' records are untouched |
| FriendController.SendTwiceRefused | controllers/friendController.js:10-16 | a request that was sent is refused when sent again, and the refusal changes nothing |
| FriendController.SendPreservesInvariants | controllers/friendController.js:16-21 | sending keeps friendship mutual, pending requests mirrored at both ends and emails unique |
| FriendController.AcceptPreservesInvariants | controllers/friendController.js:37-41 | accepting keeps friendship mutual, pending requests mirrored at both ends and emails unique |
| FriendController.RejectPreservesInvariants | controllers/friendController.js:57-58 | rejecting keeps friendship mutual, pending requests mirrored at both ends and emails unique |
| FriendController.RejectIdempotent | controllers/friendController.js:57-58 | a second identical rejection changes nothing |
| FriendController.RejectKeepsOtherIds | controllers/friendController.js:57-58 | the filtered arrays are order-preserving subsequences of the old ones holding every other id exactly as often as before |
| FriendController.AcceptKeepsOtherIds | controllers/friendController.js:38-41 | the same for the two pending arrays an accepted request filters |
| FriendController.SelfRequestMakesSelfFriend | controllers/friendController.js:10-41 | a user can send a request to themselves, accept it, and be listed among their own friends |
| FriendController.CrossedRequestStaysPending | controllers/friendController.js:10-41 | requests crossing in both directions are both recorded; accepting one leaves the other pending beside the new friendship, and accepting that one too lists the same friend twice |
| FriendController.UserStore.FindByEmail | controllers/friendController.js:7 | finds nothing iff no user has the email, otherwise a user with that email |
| FriendController.UserStore.SendRequest | controllers/friendController.js:3-24 | UserNotFound with no change iff no user has the email; otherwise outcome and new records are `SendTo` for that user; emails stay unique and both graph invariants are kept |
| FriendController.UserStore.AcceptRequest | controllers/friendController.js:26-47 | outcome and new records are `AcceptFrom`; both graph invariants are kept |
| FriendController.UserStore.RejectRequest | controllers/friendController.js:50-64 | new records are `RejectFrom`; both graph invariants are kept; the answer is always 200 "Friend request rejected" |
| Lists.Without | controllers/friendController.js:57-58 | exactly the elements other than `x` remain, it is no longer than the input, and removing an absent element is a no-op |
| Lists.WithoutIsSubsequence | controllers/friendController.js:57-58 | the filtered array keeps the remaining ids in their original relative order |
| Lists.WithoutCounts | controllers/friendController.js:57-58 | the filtered array holds every other id as often as before and `x` not at all |
| Lists.WithoutUnique | controllers/friendController.js:57-58 | any order-preserving selection with those counts is the filtered array |
| ExpenseController.ErrorResponse | controllers/expenseController.js:22-30 | exactly "Expense not found" is a 404 and exactly a failed create a 500 "Failed to create expense", the not-found answer of update and delete at lines 80-83 and 107 |
| ExpenseController.SuccessResponse | controllers/expenseController.js:15-20 | a successful create answers 201 "Expense created successfully", an update and a delete 200 with "Expense updated successfully" (line 86) and "Expense deleted successfully" (line 108) |
| ExpenseController.Patched | controllers/expenseController.js:75-79 | an update keeps the id; each of owner, title, amount, category and date takes the body's value when the body names it and keeps the stored one otherwise |
| ExpenseController.EmptyPatchChangesNothing | controllers/expenseController.js:75-79 | a body naming no field leaves the expense as it was |
| ExpenseController.PatchIdempotent | controllers/expenseController.js:75-79 | applying the same body twice equals applying it once |
| ExpenseController.PatchCanReassignOwner | controllers/expenseController.js:75-79 | names a consequence of `Patched`'s contract: since the body is applied unfiltered, a body naming `user` hands the expense to that user |
| ExpenseController.ExpenseDb.CreateExpense | controllers/expenseController.js:4-14 | without an amount it fails and nothing changes; otherwise exactly one expense with a fresh id is added, owned by the caller, with the given title and amount, the category defaulting to "others" and the date to now |
| ExpenseController.ExpenseDb.UpdateExpense | controllers/expenseController.js:72-88 | when `_id` and owner match, that expense alone is replaced by the patched one, which is answered; otherwise ExpenseNotFound and the store is unchanged |
| ExpenseController.ExpenseDb.DeleteExpense | controllers/expenseController.js:100-108 | when `_id` and owner match, that expense alone is removed; otherwise ExpenseNotFound and the store is unchanged |
| ExpenseController.Direction | controllers/expenseController.js:186 | -1 exactly when order is "desc", 1 otherwise |
| ExpenseController.DateFilter | controllers/expenseController.js:143-154 | start and end give both bounds, start alone a lower bound, end alone an upper bound; only without both does `date` give that day's bounds; no date condition is ever empty |
| ExpenseController.AmountFilter | controllers/expenseController.js:157-161 | `$gte` present iff minAmount is given, `$lte` iff maxAmount is given, each parsed from its own parameter; no amount condition when neither is given |
| ExpenseController.BuildFilter | controllers/expenseController.js:134-161 | the filter is scoped to the caller, has a category condition iff category is given, and carries the date and amount conditions |
| ExpenseController.SortFor | controllers/expenseController.js:184-189 | with sortBy, a single key on it, descending iff order is "desc"; without, date descending |
| ExpenseController.FilterExpenses | controllers/expenseController.js:120-191 | uses that filter and sort; the category aggregation is present iff groupByCategory is "true", matches the same filter and sorts totals descending iff order is "desc" |
| ExpenseController.GetExpenses | controllers/expenseController.js:33-61 | scoped to the caller and sorted by createdAt descending; the today's-date condition and the total are present iff today is "true" |
| ExpenseController.DateIgnoredWhenRangeGiven | controllers/expenseController.js:143-154 | when start or end is given, `date` has no effect on the date condition |
| ExpenseController.EmptyFilterParameterIsAbsent | controllers/expenseController.js:138-154 | each of category, startDate, endDate and date, given empty, builds the same documents as when absent |
| ExpenseController.EmptyAmountParameterIsAbsent | controllers/expenseController.js:157-161 | each of minAmount and maxAmount, given empty, builds the same documents as when absent |
| ExpenseController.EmptySortParameterIsAbsent | controllers/expenseController.js:165-189 | each of groupByCategory, sortBy and order, given empty, builds the same documents as when absent |
| ExpenseController.Selected | controllers/expenseController.js:191 | only stored expenses are selected, each owned by the filter's user and, under a category condition, in that category |
| ExpenseController.FilterSelectsOnlyOwn | controllers/expenseController.js:134-135 | whatever the query, only the caller's expenses are selected |
| ExpenseController.NoParametersSelectsAllOwn | controllers/expenseController.js:134-135 | with no parameter, exactly the caller's expenses are selected |
| ExpenseController.GetExpensesSelectsAllOwn | controllers/expenseController.js:36-48 | unless today is "true", exactly the caller's expenses are selected |

## Left out

- Missing users: `acceptRequest` and `rejectRequest` dereference a sender that may not exist, and `sendRequest` a sender fetched after the receiver was saved. The model requires both users to exist instead of modelling the crash or the half-applied write.
- Concurrency and persistence: each operation is one sequential transition. Interleaved requests and a crash between two `save` calls are not modelled.
- AcceptFrom and RejectFrom, when a user accepts or rejects their own request: the code holds two copies of the one document and saves both, and the second save most likely fails Mongoose's version check. The request would then get no answer, and the array the second copy changed would stay as it was (`sentRequests` keeping the id; for accept, also `friends` without the second entry). The model applies both updates instead.
- The user document's other fields (name, password, currency, daily limit, reset code) are not part of this model; the friend controller does not touch them.
- The sums in `getExpenses` and `filterExpenses` are floating-point folds over the query results. `count`, `total` and `totalAmount` are not computed here; `GetExpenses` only records whether a total is answered.
- The clock and time zone: `new Date()`, `setHours` and `new Date(text)` stay symbolic, as `DateValue` constructors.
- `parseFloat`: it stays symbolic, as `NumberValue`.
- The category aggregation pipeline and sorting itself: their semantics live in the database. The model keeps the shape of the documents sent, and gives only the filter document a meaning.
- `getExpenses` sorts by `createdAt`, which the expense schema does not define (it has no timestamps). The model records the sort key as sent.
- Failures of the database's own request handling are not modelled beyond the create path's missing amount: cast errors, invalid ids passed to `ObjectId`, and the generic 500 answers.
- A query parameter repeated in the query string is parsed by Express into an array. Only single values are modelled.
- An update body naming `_id`, or a field the schema does not know, is not modelled. `ExpensePatch` carries only the schema's own fields.
- Authentication, password reset, push notifications, routing and server bootstrap are not part of this model. `controllers/authController.js`, `utilities/sendPushNotification.js` and the route and server files belong to them.
