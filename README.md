# settlement2csv: the settlement-to-rows engine

This project is a Dafny model of the conversion core of `settlement2csv`. The
tool takes one merchant settlement from a payment processor and turns it into
14-column rows.

- **Transactions.** It walks four paginated collections in a fixed order:
  captures, payments, refunds, chargebacks. Each collection is read page by
  page. It drops every transaction without an id and every failed refund. Each
  remaining transaction becomes one row.
- **Captures.** A capture's description is built from the payment it captures.
  That payment is looked up; if it cannot be found, the run aborts.
- **Withheld fees.** After the transaction rows it adds one row per invoice
  reference. The amount is the withheld fee, computed from each month's cost
  breakdown.
- **Estimate.** Before collecting, it computes the expected number of
  transactions by adding up the revenue counts of every month.

Modules:

- `Wrappers`: `Option` and `Result`.
- `Settlement`: the settlement, its transactions and the page streams. It also
  defines the order in which the collections are walked.
- `Rows`: cells, rows, the header, and the two mappers (transaction to row,
  fee entry to row).
- `Collect`: the collection walk. It has a specification, `Kept` followed by
  `MapAll`, written as the single function `Walk`. The nested loops of the
  source are methods proved against `Walk`.
- `Fees`: the withheld-fee dictionary. It is an ordered map (`FeeTable`), so a
  key keeps its first position. `Aggregate` specifies it; the year, month and
  cost loops are methods proved against `Aggregate`.
- `Estimate`: the expected-count sum and the loops that compute it.
- `Convert`: the whole run, `Convert`, proved against the function `Export`,
  plus lemmas about the layout of its output.

Modelling choices:

- **Money.** Amounts are whole cents (`int`). So `round($amount, 2)` is the
  identity (`Round2`), and negating an amount is exact.
- **Payment lookup.** It is a map from payment id to payment description. A
  missing id gives `Failure(PaymentNotFound(id))`. This models the exception
  that escapes the run before any file is opened.
- **Pagination.** A collection is a `PageStream`: a first page plus the
  following pages. `Next(cursor)` stands for `next()`; `None` is its null.
- **Periods.** The year → month → monthly-settlement structure is a sequence
  of years, each a sequence of months, in the source's iteration order. The
  year and month keys are never read by the loops.

Summing the costs of every month that carries a reference would add those
months up. `src/Commands/ConvertCommand.php:91` instead resets the entry to 0
at every month. So when two months share an invoice reference, the later
month's fee replaces the earlier one, and the entry keeps its first position.
The model follows the code:

- `Fees.AggregateValue` proves that the amount is the fee of the last month
  carrying the reference.
- `Fees.LaterMonthReplacesEarlier` exhibits the difference.
- `Fees.AggregateAgreesWhenUnique` proves that both readings agree when each
  reference belongs to one month.

## Model

| member | source | states |
|---|---|---|
| Settlement.PageStream.Next | src/Commands/ConvertCommand.php:76 | `next()` gives a page exactly while pages remain, and the page it gives is the one after the cursor |
| Settlement.AllItemsOrder | src/Commands/ConvertCommand.php:60 | the walked transactions are the captures, then the payments, then the refunds, then the chargebacks |
| Settlement.StreamItemsPages | src/Commands/ConvertCommand.php:63-76 | a collection's transactions are its first page, always walked, followed by the pages `next()` gives |
| Rows.HeaderMatchesColumns | src/Commands/ConvertCommand.php:80 | the header has 14 names, and each of the 14 slots the mappers fill sits under its own title |
| Rows.TransactionRow | src/Commands/ConvertCommand.php:135-187 | mapping fails exactly for a capture whose payment the lookup lacks, with that payment id; otherwise the row has the header's 14 slots |
| Rows.TransactionRowSlots | src/Commands/ConvertCommand.php:135-187 | slot by slot: date, currency, status, id, settlement currency, amount, reference and refunded amount passed through; method by kind (Payment's method, "refund", "chargeback", null for captures); amount negated for refunds and chargebacks only; description by kind (own description, "Original payment: id - description" for captures, null for chargebacks); consumer slots from the details or null |
| Rows.FeeRow | src/Commands/ConvertCommand.php:189-221 | 14 slots: the settlement's date, "EUR" twice, the fee twice, "Withheld transaction fees " + reference, the settlement reference, null everywhere else |
| Rows.FeeRowIsNoTransactionRow | src/Commands/ConvertCommand.php:161 | the row of a transaction with an id never equals a fee row: the id slot tells them apart |
| Collect.Kept | src/Commands/ConvertCommand.php:66-70 | what the filter keeps is never longer than its input and holds only transactions with an id that are not failed refunds |
| Collect.KeptAppend | src/Commands/ConvertCommand.php:64-76 | filtering two pages one after the other is filtering their concatenation |
| Collect.KeptCounts | src/Commands/ConvertCommand.php:65-75 | a kept transaction occurs in the output as often as in the input, any other never: nothing is dropped or duplicated |
| Collect.MapAllRows | src/Commands/ConvertCommand.php:71 | mapping succeeds exactly when every transaction maps, and then row i is the row of transaction i |
| Collect.MapAllFailure | src/Commands/ConvertCommand.php:165-167 | a failed mapping names the first capture, in order, whose payment the lookup lacks; no earlier capture lacks its payment |
| Collect.WalkIsMapOfKept | src/Commands/ConvertCommand.php:59-77 | the walk that filters and maps item by item equals filtering everything, then mapping what is left |
| Collect.WalkFailureSticks | src/Commands/ConvertCommand.php:71 | once a lookup has failed, later transactions do not change the outcome |
| Collect.CollectRows | src/Commands/ConvertCommand.php:59-77 | the collection loop yields exactly the specified walk over all four collections |
| Collect.WalkCollections | src/Commands/ConvertCommand.php:60-77 | the loop over the collections yields the walk over their transactions in order, stopping at the first failure |
| Collect.DrainCollection | src/Commands/ConvertCommand.php:63-76 | the do-while over pages walks the first page, then every page `next()` gives, continuing the rows so far |
| Collect.WalkPage | src/Commands/ConvertCommand.php:65-75 | the loop over one page extends the walk by that page |
| Collect.WalkItem | src/Commands/ConvertCommand.php:66-74 | one item: skipped without an id or as a failed refund, otherwise its row appended or the lookup failure returned |
| Collect.LaterPagesAfterFailure | src/Commands/ConvertCommand.php:64-76 | once a page has aborted the walk, the remaining pages change nothing |
| Collect.CollectedOutcome | src/Commands/ConvertCommand.php:59-77 | collecting fails exactly when a kept capture refers to a payment the lookup lacks |
| Collect.CollectedRows | src/Commands/ConvertCommand.php:59-77 | a successful walk yields one row per kept transaction, in order, each carrying that transaction's id in slot 5 |
| Collect.PageBoundary | src/Commands/ConvertCommand.php:64-76 | a collection of two pages yields the kept transactions of the first page, then those of the second |
| Fees.Put | src/Commands/ConvertCommand.php:91 | assigning a key stores the value and leaves every other key and its amount unchanged; a known key keeps its position, a new key goes last |
| Fees.PutWellFormed | src/Commands/ConvertCommand.php:91 | assigning keeps each key listed once and the listed keys equal to the stored ones |
| Fees.WithheldFees | src/Commands/ConvertCommand.php:87-96 | the year/month/cost loops build exactly the specified fee dictionary of all months in order |
| Fees.AddYear | src/Commands/ConvertCommand.php:89-95 | the loop over one year's months extends the dictionary by those months |
| Fees.AddMonth | src/Commands/ConvertCommand.php:90-94 | one month: the reference's entry is reset to 0, then every gross cost subtracted; a new reference goes last; the dictionary after the earlier months becomes the dictionary after this one too |
| Fees.AggregateWellFormed | src/Commands/ConvertCommand.php:87-96 | the dictionary lists every key exactly once |
| Fees.AggregateKeys | src/Commands/ConvertCommand.php:91 | the dictionary holds a reference exactly when some month carries it |
| Fees.AggregateValue | src/Commands/ConvertCommand.php:91-94 | a reference's amount is the negated cost sum of the last month carrying it; such a month without costs gives 0 |
| Fees.AggregateOrder | src/Commands/ConvertCommand.php:91 | the references are listed in the order of the first month carrying each |
| Fees.AggregateAgreesWhenUnique | src/Commands/ConvertCommand.php:91-93 | for a reference carried by one month only, the amount is that month's fee, equal to the sum over all months carrying it |
| Fees.LaterMonthReplacesEarlier | src/Commands/ConvertCommand.php:91 | two months with one reference leave one entry holding the second month's fee, where summing would give both |
| Fees.OneMonthExample | src/Commands/ConvertCommand.php:91-93 | one month with gross costs 12.34 and 7.66 gives one entry of -20.00 |
| Estimate.CountTransactions | src/Commands/ConvertCommand.php:116-128 | the triple loop returns the sum of every revenue count over all years and months |
| Estimate.CountYear | src/Commands/ConvertCommand.php:120-126 | the loop over one year's months adds their revenue counts |
| Estimate.CountMonth | src/Commands/ConvertCommand.php:122-124 | the loop over one month's revenue lines adds their counts |
| Estimate.CountOverAppend | src/Commands/ConvertCommand.php:120-126 | counting months one after another adds their counts |
| Estimate.ExpectedAppend | src/Commands/ConvertCommand.php:119-127 | the estimate is additive over periods |
| Estimate.ExpectedOfEmptyYears | src/Commands/ConvertCommand.php:116-128 | periods without months give an estimate of 0 |
| Estimate.ExpectedNonNegative | src/Commands/ConvertCommand.php:116-128 | with no negative counts the estimate is never negative |
| Estimate.TwoMonthsExample | src/Commands/ConvertCommand.php:116-128 | two months with counts 3 and 5 give 8 |
| Convert.FeeRows | src/Commands/ConvertCommand.php:97-99 | one fee row per listed reference |
| Convert.FeeRowsAt | src/Commands/ConvertCommand.php:97-99 | fee row i is the fee row of the i-th reference with its rounded amount |
| Convert.Convert | src/Commands/ConvertCommand.php:52-99 | the run returns the estimate and exactly the specified export: transaction rows then fee rows, or the lookup failure |
| Convert.AppendFeeRows | src/Commands/ConvertCommand.php:97-99 | the loop over the dictionary appends one fee row per entry, in the dictionary's order |
| Convert.ExportOutcome | src/Commands/ConvertCommand.php:165-167 | the run fails exactly when a kept capture's payment is missing, and the error names the payment of the first such capture in walking order, where the lookup throws |
| Convert.ExportParts | src/Commands/ConvertCommand.php:81-99 | a successful run writes the collected rows, then the fee rows |
| Convert.ExportLayout | src/Commands/ConvertCommand.php:81-99 | a successful run writes one row per kept transaction in walking order, then one fee row per reference in dictionary order, nothing else |
| Convert.ExportIdSlots | src/Commands/ConvertCommand.php:81-99 | every row has 14 slots, and the id slot is empty exactly on the fee rows, which all follow the transaction rows |
| Convert.FeeRowsPerReference | src/Commands/ConvertCommand.php:97-99 | the fee rows name each invoice reference of the periods exactly once, and no other |

## Left out

- The API client, and reading the access token from the environment (`src/Commands/ConvertCommand.php:23-28`): these are a foreign library and environment access.
- `settlements->get` and `getLatestSettlementId` (`src/Commands/ConvertCommand.php:43`, `109-114`): these are network calls. The settlement is an input value instead.
- Network failures during pagination or the payment lookup: the only failure modelled is a payment the lookup lacks.
- File output: the `file_exists` check, `fopen`, `fwrite`, `fputcsv`, `fclose` and CSV quoting (`src/Commands/ConvertCommand.php:46-49`, `79-83`, `98-100`). The output is a sequence of rows. The header line written before them is the constant `Rows.Header`.
- The progress bar and console messages (`src/Commands/ConvertCommand.php:44`, `51`, `53`, `55-57`, `62`, `73`, `78`, `85`, `101-102`), and the unused `$counter`: these are display only. The estimate is computed and returned by `Convert.Convert`; the source only prints it (line 53) and hands it to the progress bar (line 56).
- The `json_decode(json_encode(...))` round-trip (`src/Commands/ConvertCommand.php:88`, `119`): the periods are taken directly as nested sequences.
- Rows.Round2: PHP rounds a float to 2 decimals. The model is the identity on whole cents, so sub-cent gross costs such as 12.345 are not representable.
- Rows.TransactionRow: decimal and float formatting of amounts is not modelled. This covers PHP turning the string `"10.00"` into the float `-10` when negating.
- Date formatting: `createdAt` is passed through as an opaque string.
- Invoice references that PHP turns into integer array keys: PHP stores a decimal-integer string such as "10000" under an int key; other numeric strings such as "2016.10000" stay string keys. Under `declare(strict_types=1)` (line 1), passing such an int key to `mapWithheldFeesToArray(string $invoiceReference, ...)` at line 98 throws a TypeError. By then the transaction rows are already written (lines 79-83), so the run aborts with a partial file. The model keeps every key a string and does not model this abort.
- A null or missing `invoiceReference` is stored by PHP under the key `""` at line 91. The model takes the reference as a string, so such a month must be given with `""`.
- `settlement2csv.php`: console bootstrap only, with no logic of its own.
