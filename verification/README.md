# Finance tracker ledger, modelled in Dafny

This project models the transaction ledger at the heart of a browser-based
personal finance tracker (`FinanceTracker` and `FinanceAnalytics` in
`script.js`). The ledger is a newest-first list of records
`{id, description, amount, category, type}`. The form-submit path checks a
candidate record and prepends it to the list. Deletion removes the first record
that has a given id. The summary cards show income, expense and balance. The
list view filters by category and type, and each category has a display symbol.
The analytics helper totals expenses per category.

Every operation is a pure function over `seq<Transaction>`. The browser state
it reads or writes (DOM values, `localStorage`, the clock) becomes an explicit
parameter. The record's `type` field is called `kind` because `type` is a Dafny
keyword.

Files and modules:

- `wrappers.dfy` (`Wrappers`): `Option`, `Outcome` and `Result`.
- `text.dfy` (`Text`): `String.prototype.trim` over the ECMAScript whitespace
  and line-terminator code points.
- `transactions.dfy` (`Transactions`): the record, the ledger, the
  order-preserving `Where` (`Array.prototype.filter`), and subsequences.
- `validation.dfy` (`Validation`): `validateTransaction`'s four ordered checks.
- `ledger.dfy` (`LedgerOps`): building the candidate from the form, `findIndex`,
  `addTransaction`, `removeTransaction`, and the submit path.
- `summary.dfy` (`Summary`): `calculateSummary`.
- `filters.dfy` (`Filters`): `getFilteredTransactions`.
- `emoji.dfy` (`Emoji`): `getCategoryEmoji`.
- `analytics.dfy` (`Analytics`): `FinanceAnalytics.getCategorySpending`.
- `storage.dfy` (`Storage`): the fail-soft `loadFromStorage`, with the
  storage read and `JSON.parse` as parameters.
- `scenarios.dfy` (`Scenarios`): whole-flow facts. These are a zero or `NaN`
  amount being rejected, and a coffee-and-paycheck example.

Ids come from the clock in the source, so they are not assumed to be unique.
Removal is stated as deleting the FIRST record with the id. Later records that
share the id stay in place.

The code is followed where it is looser than the intended design:

- Validation only requires the type to be a non-empty string. Any non-empty
  label passes, not just "income" or "expense". Such a record counts towards
  neither total.
- The category is only required to be non-empty.
- Removing an absent id is a silent no-op, with no not-found result.

## Model

| member | source | states |
|---|---|---|
| Text.Trim | script.js:147 | `trim` returns a contiguous slice of its input. Only whitespace lies before and after the slice, and the slice neither starts nor ends with whitespace. |
| Text.TrimEmptyIffAllWhitespace | script.js:147 | `description.trim() === ''` holds exactly when every character of the description is whitespace, including the empty description. |
| Text.TrimIdempotent | script.js:117 | The description, already trimmed when the form is read, is unchanged by the second trim in validation. |
| Text.TrimKeepsVisible | script.js:147 | A description with a non-whitespace character still has one after trimming, so the trimmed description is not blank. |
| Transactions.Where | script.js:288 | `filter` keeps exactly the records its test accepts. It keeps them in ledger order, as a subsequence of the ledger. |
| Transactions.WhereCounts | script.js:288 | `filter` keeps each accepted record as many times as it occurs in the ledger, and no rejected record. Duplicate records, such as two records with the same clock id, are neither merged nor dropped. |
| Transactions.WhereFusion | script.js:286-295 | Two filters applied one after the other select the same list as one filter that applies both tests. |
| Validation.Validate | script.js:146-171 | The candidate passes only if none of the four checks fails. Otherwise the reported check fails, and every check earlier in the order (description, amount, category, type) passes: the first failure wins. |
| Validation.BlankIsTrimEmpty | script.js:147 | The description test `!description \|\| description.trim() === ''` is true exactly when the description is all whitespace (the empty description included). |
| Validation.PassesWhen | script.js:146-171 | A record whose description starts with a visible character, with a positive amount and a non-empty category and type, passes validation. |
| Validation.MessageIdentifiesCheck | script.js:146-168 | Each of the four checks shows its own toast text, so two failures show the same text only when they are the same check. |
| Validation.ValidMeans | script.js:146-171 | A record is valid exactly when its description has a non-whitespace character, its amount is positive, and its category and type are non-empty. |
| LedgerOps.Candidate | script.js:115-123 | The record built from the form carries the form's id and category. Its description is the raw description with the whitespace trimmed off both ends. Its amount is the parsed amount, or 0 for `NaN`. Its type is the checked radio's value, or empty when none is checked. |
| LedgerOps.Add | script.js:173-175 | `unshift` makes the new record the head and the old ledger the tail. The length grows by one, and the old ledger remains a subsequence. |
| LedgerOps.FindIndex | script.js:181 | `findIndex` returns -1 exactly when no record has the id. Otherwise it returns a position holding the id with no earlier match. |
| LedgerOps.Remove | script.js:180-188 | An absent id leaves the ledger unchanged. A present id deletes exactly the first matching record and keeps every other record in order, so the length drops by one. |
| LedgerOps.Submit | script.js:125-130 | A valid candidate is added. An invalid one reports the validation error and leaves the ledger unchanged. |
| LedgerOps.RemoveDeletesOneOccurrence | script.js:181-183 | After a removal, the id occurs exactly one time fewer, and every other id occurs as often as before. The id is still present afterwards exactly when it had a duplicate. |
| LedgerOps.AddThenRemove | script.js:173-183 | Removing by the id just added restores the previous ledger, even when that id already occurs further down. |
| LedgerOps.MutatorsPreserveValidity | script.js:126-130 | Submitting and removing keep every record of the ledger valid. |
| Summary.CalculateSummary | script.js:210-224 | Income is the sum of the "income" amounts and expense is the sum of the "expense" amounts, each against an independent recursive sum. The balance is income minus expense. |
| Summary.ReduceIsTotal | script.js:211-213 | The left-to-right `reduce` from an initial value ends at that value plus the sum of the amounts. |
| Summary.TotalOfKind | script.js:211-217 | Reducing the list filtered by a type gives the per-type reference sum. |
| Summary.SummaryAfterAdd | script.js:210-222 | Adding a record raises the total of its own type by its amount and leaves the other total unchanged. So an income raises the balance by its amount and an expense lowers it by its amount. |
| Summary.SummaryAfterRemove | script.js:210-222 | Removing a record takes its amount back out of its own type's total. The balance falls by a removed income and rises by a removed expense. A record of any other type changes nothing. |
| Summary.OtherKindsIgnored | script.js:211-217 | A record whose type is neither "income" nor "expense" changes no total. |
| Summary.TotalsNonNegative | script.js:153 | In a ledger of validated records (positive amounts), income and expense are both non-negative. |
| Summary.TotalsPartitionAmounts | script.js:210-222 | When every record is income or expense, income plus expense is the sum of all amounts. |
| Filters.GetFiltered | script.js:282-298 | The two-stage filter returns exactly the records that match both filters, in ledger order, as a subsequence. A filter value of "all" is a wildcard, and with both filters at "all" the whole ledger comes back. |
| Filters.TwoPassesAreOne | script.js:286-295 | Filtering by category and then by type, each skipped when "all", equals one pass with the combined test. |
| Filters.CategoryOnly | script.js:286-289 | Filtering by a single category returns only that category's records, in ledger order. |
| Emoji.CategoryEmoji | script.js:300-316 | A listed category gets its table symbol and any other label gets the memo-pad fallback. The result is always one of the table's symbols. |
| Emoji.SymbolIdentifiesCategory | script.js:301-314 | Only "Other" and unlisted labels get the fallback. The other eleven categories have pairwise distinct symbols. |
| Analytics.CategorySpending | script.js:501-509 | There is a key exactly for each category that has an expense record. Each key's value is the sum of that category's expense amounts, and income records are never counted. |
| Analytics.FoldSpec | script.js:505-507 | The `forEach` accumulation adds each record's amount under its category, creating keys only for the categories it meets. |
| Analytics.CategorySpendingSumsToExpense | script.js:501-509 | The per-category values add up to the summary's expense total. |
| Storage.Load | script.js:409-417 | A missing or empty stored blob gives the empty ledger. A non-empty blob gives its parsed ledger, and the empty ledger when it does not parse. |
| Storage.LoadAfterSave | script.js:400-412 | With a codec that reads back what it writes, loading the saved blob returns the saved ledger. |
| Scenarios.ZeroAmountRejected | script.js:118-128 | A form with a filled-in description and an empty, unparsable or zero amount is rejected for its amount, so nothing is added. |
| Scenarios.CoffeeIsValid | script.js:146-171 | A 4.50 "Coffee" expense in category "Food" passes all four checks. |
| Scenarios.PaycheckIsValid | script.js:146-171 | A 2000 "Paycheck" income in category "Salary" passes all four checks. |
| Scenarios.CoffeeThenPaycheck | script.js:125-130 | Submitting the coffee to an empty ledger and then the paycheck succeeds both times. The result is the ledger with the paycheck first and the coffee second. |
| Scenarios.CoffeeAndPaycheckTotals | script.js:210-224 | For those two records the summary is income 2000, expense 4.50 and balance 1995.50. |
| Scenarios.CoffeeAndPaycheckExpenseView | script.js:282-298 | With the type filter at "expense", only the coffee is listed. |
| Scenarios.DeleteCoffee | script.js:180-183 | Deleting by the coffee's id leaves only the paycheck. |

## Left out

- DOM access is not modelled. This covers element lookup, event wiring, rendering, modals, toasts, focus, theme and view toggling, keyboard shortcuts, animations and service-worker registration. It is presentation with no ledger logic. The toast texts of the validation errors appear only as `Validation.Message`.
- The delete-confirmation flow (`showDeleteModal`, `deleteTransaction`) is not modelled. It only holds the pending id for the modal before calling `removeTransaction`.
- `saveToStorage`, `localStorage` and `JSON.stringify`/`JSON.parse` are browser facilities whose code is not visible here. `Storage.Load` takes the stored text and a parse function as parameters. A quota failure on save is not modelled.
- `exportData` is not modelled. It builds a download with `Blob`, `URL` and the DOM.
- `formatCurrency`, date and locale formatting, `getMonthlySpending` and `getSpendingTrend` are not modelled. They depend on `Intl`, `Date` and the wall clock.
- The record's `date` and `timestamp` fields are clock readings. No modelled operation reads them, so the record omits them.
- Id generation from `Date.now()` is a clock read. Ids are opaque strings supplied by the caller, and they are not assumed to be unique.
- Amounts are exact reals, not IEEE doubles. So rounding in `reduce` and the `NaN` checks are not modelled. `parseFloat` is represented by its outcome, an `Option<real>`, where `None` stands for `NaN`.
- Strings are sequences of Unicode code points, not UTF-16 code units. So each category symbol is one character in the model, while its JavaScript `.length` is 2, since every symbol lies outside the Basic Multilingual Plane. No modelled operation depends on string length in UTF-16 units.
- The storage key `finance-tracker-data` is not modelled as a value. `Storage.Load` receives what that key holds.
- `service-worker.js` is not part of this model. It is asynchronous cache, network and notification plumbing with no ledger logic.
- Emoji.CategoryEmoji: treats the table lookup as a lookup of the table's own keys. In the source the object literal also inherits `Object.prototype` members. So a label such as "constructor" would return an inherited member instead of the fallback.
- Analytics.CategorySpending: has the same own-key limitation for the accumulator object. A category named after an `Object.prototype` member would start from the inherited value instead of 0.
- Storage.Load: assumes the parsed blob is a list of records. Stored JSON that parses to something else is outside the model.
