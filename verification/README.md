# Expense tracker: a Dafny model of its sequential logic

The system is a small income/expense tracker: an Express controller that
lists stored transactions (optionally filtered by type, category and a date
range, newest first), and a React/Redux dashboard that keeps a snapshot of the
list, shows income and expense totals in a pie chart, and offers one form for
adding and editing records.

This project models the four pieces of that system with rules in them, as
immutable datatypes and pure functions over sequences:

- `Transactions` (transactions.dfy): the records (`Transaction`), the form
  state (`Form`), an update body (`Body`) and the requests the client sends
  (`Request`: create, update and delete; the fetch is a plain GET and
  appears only as its fulfilled payload). The record's `type` field is called
  `kind` (`type` is a Dafny keyword) and `_id` is `id`. Amounts are integers (minor currency units),
  dates are integer timestamps.
- `TransactionSlice` (slice.dfy): the Redux slice: initial state, the reducer
  cases for fetch pending/fulfilled and add/update/delete fulfilled, and the
  payloads the update and delete thunks build.
- `Summary` (summary.dfy): the chart's income and expense totals, computed as
  the source does (filter, then a left-fold `reduce`), proved equal to
  item-by-item reference sums, and the two-entry chart data.
- `TransactionForm` (form.dfy) with `Strings` (strings.dfy): the three ordered
  validation checks (using JavaScript's `trim` white-space set), the add/update
  choice on submit, loading a record for editing, and the two resets.
- `TransactionQuery` (query.dfy): how `getTransactions` turns optional query
  criteria into a filter, an abstract store `find`, and the newest-first sort.
- `Wrappers` (wrappers.dfy) and `Sequences` (sequences.dfy): `Option` and an
  order-preserving subsequence predicate.

JavaScript truthiness is kept where the source relies on it: a form `id` that
is the empty string counts as no id (the add path is taken), and an empty
`type` or `category` query value counts as absent.

Facts about the program that shape the model:

- The dashboard table renders `items` unfiltered
  (frontend/src/pages/Dashboard.jsx:95); there is no client-side filter, so
  none is modelled.
- `kind` is a free string. The form's placeholder type is "select", and the
  totals ignore every value other than "income" and "expense".
- `fetchTransactions` issues a bare GET with no query criteria
  (frontend/src/redux/transactionSlice.js:10), so the server filter is
  modelled on its own and the client's fetch is `GetTransactions` with
  `NoCriteria`.
- There is no reducer case for a rejected fetch, so a failed fetch leaves the
  status at "loading" (`FailedFetchStaysLoading`).
- The cleared form after a save or cancel has type "expense", not the
  placeholder "select" of the first form (`CancelReturnsToAddMode`).

## Model

| member | source | states |
|---|---|---|
| TransactionSlice.InitialStateIsEmpty | frontend/src/redux/transactionSlice.js:45 | The slice starts with no items and status "idle". |
| TransactionSlice.Reduce | frontend/src/redux/transactionSlice.js:47-66 | Fetch-pending sets "loading" and keeps the items; fetch-fulfilled installs exactly the payload with "succeeded"; add puts the payload in front of the unchanged old items; update changes only the first item with the payload's id (nothing if there is none); delete leaves no item with the id, keeps every other item and is a no-op for an absent id; every other action leaves the state unchanged; no case touches the status except the two fetch cases. |
| TransactionSlice.FindIndex | frontend/src/redux/transactionSlice.js:60 | Returns -1 exactly when no item has the id, otherwise the first position holding it. |
| TransactionSlice.ReplaceFirstById | frontend/src/redux/transactionSlice.js:59-62 | Same length; the first item with the payload's id becomes the payload and all other positions are unchanged; with no such item the list is unchanged. |
| TransactionSlice.RemoveById | frontend/src/redux/transactionSlice.js:63-65 | The result holds exactly the items whose id differs, no item with the id remains, and an absent id changes nothing. |
| TransactionSlice.RemoveByIdKeepsOrder | frontend/src/redux/transactionSlice.js:64 | The surviving items keep their relative order (the result is a subsequence of the input). |
| TransactionSlice.RemoveByIdAppend | frontend/src/redux/transactionSlice.js:64 | Deleting from a concatenation deletes from each part in place. |
| TransactionSlice.RemoveByIdCount | frontend/src/redux/transactionSlice.js:64 | The length drops by exactly the number of items carrying the id. |
| TransactionSlice.DeleteTwiceIsDeleteOnce | frontend/src/redux/transactionSlice.js:63-65 | Reducing the same delete twice gives the same state as reducing it once. |
| TransactionSlice.FailedFetchStaysLoading | frontend/src/redux/transactionSlice.js:49-51 | A fetch that starts and then fails leaves the items and the status "loading". |
| TransactionSlice.UpdateWithUniqueIds | frontend/src/redux/transactionSlice.js:59-62 | When ids are unique the update replaces exactly the item carrying the payload's id. |
| TransactionSlice.ReducePreservesUniqueIds | frontend/src/redux/transactionSlice.js:52-65 | Unique ids survive every reducer case, given a fetched list with unique ids and an added record with a new id. |
| TransactionSlice.RemoveByIdKeepsUnique | frontend/src/redux/transactionSlice.js:64 | Filtering a list with unique ids leaves unique ids. |
| TransactionSlice.UpdateRequest | frontend/src/redux/transactionSlice.js:28-29 | The update request is addressed to the form's id and its body, with that id put back, is the form again. |
| TransactionSlice.DeleteThunkRemovesTarget | frontend/src/redux/transactionSlice.js:35-65 | `DeleteThunk` sends a DELETE at the id and is fulfilled with exactly that id; reducing it filters out the items carrying the id, so none is left. |
| Summary.FilterByKind | frontend/src/components/SummaryChart.jsx:7-8 | The filter keeps exactly the records of the given type, each as many times as it occurs in the input, and drops every other record. |
| Summary.ReduceAmounts | frontend/src/components/SummaryChart.jsx:7-8 | The left-fold `reduce` from a start value is that value plus the sum of the amounts. |
| Summary.FilterThenSumIsKindTotal | frontend/src/components/SummaryChart.jsx:7-8 | Summing the filtered list equals summing each record's contribution to the bucket. |
| Summary.TotalIncome | frontend/src/components/SummaryChart.jsx:7 | `income` is the sum of `amount` over the records of type "income", item by item. |
| Summary.TotalExpense | frontend/src/components/SummaryChart.jsx:8 | `expense` is the sum of `amount` over the records of type "expense", item by item. |
| Summary.TotalsOfEmpty | frontend/src/components/SummaryChart.jsx:7-8 | Both totals are 0 for an empty list. |
| Summary.KindTotalAppend | frontend/src/components/SummaryChart.jsx:7-8 | A bucket's total over a concatenation is the sum of the totals of the parts. |
| Summary.TotalsAfterAppend | frontend/src/components/SummaryChart.jsx:7-8 | Appending a record raises exactly its own bucket's total by its amount; a record of another type raises neither. |
| Summary.TotalsAfterAdd | frontend/src/redux/transactionSlice.js:56-58 | After the add case each total grows by the added record's contribution to it. |
| Summary.KindTotalRemove | frontend/src/components/SummaryChart.jsx:7-8 | Taking one record out removes exactly its contribution from a bucket's total. |
| Summary.KindTotalPermutation | frontend/src/components/SummaryChart.jsx:7-8 | A bucket's total is the same for any reordering of the records. |
| Summary.TotalsPermutation | frontend/src/components/SummaryChart.jsx:7-8 | Both chart totals are the same for any reordering of the items. |
| Summary.BucketsPartitionAmounts | frontend/src/components/SummaryChart.jsx:7-8 | The sum of all amounts is income plus expense plus the amounts of records of neither type. |
| Summary.UnbucketedTotalBounds | frontend/src/components/SummaryChart.jsx:7-8 | With non-negative amounts the amounts of neither-type records sum to at least 0, to 0 when every record is income or expense, and, with positive amounts, to 0 only then. |
| Summary.TotalsBoundedByAmounts | frontend/src/components/SummaryChart.jsx:7-8 | With non-negative amounts income plus expense is at most the sum of all amounts, equal when every type is "income" or "expense", and with positive amounts equal only then. |
| Summary.KindTotalNonNegative | frontend/src/components/SummaryChart.jsx:7-8 | With non-negative amounts a bucket's total is non-negative. |
| Summary.TwoRecordExample | frontend/src/components/SummaryChart.jsx:7-8 | An expense of 40 and an income of 60 give income 60 and expense 40. |
| Summary.ChartData | frontend/src/components/SummaryChart.jsx:10-13 | Exactly two entries, "Income" then "Expense", whose values are the income and expense sums. |
| Summary.TotalsOfFetchedSnapshot | frontend/src/components/SummaryChart.jsx:5-8 | After an unfiltered fetch succeeds, the chart totals equal the income and expense sums over the whole store. |
| Strings.TrimStart | frontend/src/components/TransactionForm.jsx:38 | Drops a white-space prefix and nothing more: the result is a suffix starting with a non-space (or empty). |
| Strings.TrimEnd | frontend/src/components/TransactionForm.jsx:38 | Drops a white-space suffix and nothing more: the result is a prefix ending with a non-space (or empty). |
| Strings.Trim | frontend/src/components/TransactionForm.jsx:38 | The trimmed category is empty exactly when every character is white space. |
| TransactionForm.Validate | frontend/src/components/TransactionForm.jsx:33-47 | Accepts exactly when amount > 0, the category is not blank and the type is not "select"; otherwise the one complaint is the first failing check in the order amount, category, type. |
| TransactionForm.MessagesDistinct | frontend/src/components/TransactionForm.jsx:35-43 | The three failures show three different messages. |
| TransactionForm.Submit | frontend/src/components/TransactionForm.jsx:49-61 | An invalid draft dispatches nothing and reports its complaint; a valid draft with an id sends an update addressed to that id whose body is the form minus its id; otherwise it sends a create of the form stamped with the given date. |
| TransactionForm.LoadForEdit | frontend/src/components/TransactionForm.jsx:21-31 | Editing copies the record's type, amount and category, turns a missing description into "", and takes the record's id; with no record the form stays. |
| TransactionForm.FreshFormsRejectAmount | frontend/src/components/TransactionForm.jsx:11-17 | The first form and the cleared form are in add mode with empty fields, differ only in the type, and are refused for the missing amount. |
| TransactionForm.AfterSubmit | frontend/src/components/TransactionForm.jsx:49-72 | The form after a submit: a refused draft or a failed save leaves it as it was; a valid draft that is saved clears it. |
| TransactionForm.PlaceholderTypeIsRefused | frontend/src/components/TransactionForm.jsx:42-45 | With a valid amount and category, the type complaint appears exactly when the type is the placeholder. |
| TransactionForm.EditThenSubmitUpdatesRecord | frontend/src/components/TransactionForm.jsx:21-57 | Editing a well-formed record and submitting sends an update of that record's id carrying its own type, amount, category and description. |
| TransactionForm.EditOfNonPositiveAmountIsRefused | frontend/src/components/TransactionForm.jsx:21-37 | A record with an amount of 0 or less loaded for editing cannot be submitted. |
| TransactionForm.CancelReturnsToAddMode | frontend/src/components/TransactionForm.jsx:74-77 | `Cancel` leaves edit mode; afterwards a positive amount and a category suffice to add, while the first form still needs a type. |
| TransactionQuery.BuildFilter | backend/controllers/transactionController.js:5-11 | A type or category constraint is present exactly when that criterion is given and non-empty, as an equality on its value; a date range is present exactly when both bounds are given; a record satisfies the filter exactly when it meets every given criterion, the range being inclusive. |
| TransactionQuery.MatchesConjunction | backend/controllers/transactionController.js:8-11 | `Matches`: a filter document holds exactly when each of its constraints holds on its own; a type or category constraint is an equality, and a date range includes both ends. |
| TransactionQuery.Find | backend/controllers/transactionController.js:13 | The store's find returns each record that satisfies the filter as many times as it is stored, and no other record. |
| TransactionQuery.FindEmptyFilter | backend/controllers/transactionController.js:6-13 | Finding with the empty filter returns the whole store. |
| TransactionQuery.PrependNewest | backend/controllers/transactionController.js:13 | A record no older than the head of a newest-first list can go in front and the list stays newest-first. |
| TransactionQuery.InsertByDate | backend/controllers/transactionController.js:13 | Inserting into a newest-first list keeps it newest-first and adds exactly the one record. |
| TransactionQuery.SortNewestFirst | backend/controllers/transactionController.js:13 | The sort returns a permutation of its input with non-increasing dates. |
| TransactionQuery.GetTransactions | backend/controllers/transactionController.js:5-13 | The result is a permutation of the matching records, newest first, and holds exactly the stored records that match. |
| TransactionQuery.NoCriteriaListsEverything | backend/controllers/transactionController.js:6-13 | With no criteria, or only empty strings and at most one date bound, the filter is empty, every record matches and every stored record is listed. |
| TransactionQuery.OneDateBoundIsIgnored | backend/controllers/transactionController.js:10-11 | With only one date bound the filter and the result are the same as with no date criterion. |
| TransactionQuery.FindMonotone | backend/controllers/transactionController.js:13 | A filter that lets fewer records through finds a sub-multiset. |
| TransactionQuery.NarrowingShrinksResult | backend/controllers/transactionController.js:8-13 | Adding a criterion or tightening the date range can only shrink the result. |

## Left out

- HTTP and persistence: the axios calls and API URL, Express routing, the
  Mongoose `find`/`create`/`findByIdAndUpdate`/`findByIdAndDelete` internals
  and `next(error)` propagation. The store's `find` is the abstract `Find`
  and its sort is `SortNewestFirst`; a request is the `Request` value a thunk
  would send, not a call.
- The create, update and delete controller handlers: they forward to the ORM
  and compute nothing.
- The asynchronous thunk lifecycle, the form's `loading` flag and races
  between overlapping dispatches: each action is one atomic reducer step, and
  whether a save succeeded is the `saved` parameter of `AfterSubmit`.
- The clock: the `new Date()` stamp on an added record is the `now` parameter.
- Floating-point money and the two-decimal display: amounts are integers.
- JavaScript coercion of the amount input string (and `NaN`): the form amount
  is `Option<int>`, `None` for an empty input. Parsing of date query strings,
  including invalid dates: a date bound is already an integer.
- BuildFilter: each query value is taken to be one string. A repeated or
  bracketed key (`?type=income&type=expense`, `?type[x]=y`) reaches the filter
  as an array or object, which the store does not read as one equality; that
  case is not modelled.
- GetTransactions: the order of records with equal dates is not specified by
  the store's sort; the model fixes one and its contract states only the
  newest-first order and the permutation.
- Toasts, the SweetAlert confirmation, `formatDate`, Recharts, styling and the
  store bootstrap: presentation only.
