# kasir-api checkout engine, sales reports and category table in Dafny

This project models the core of kasir-api, a point-of-sale REST backend
written in Go over PostgreSQL. It covers three parts:

- **Checkout** (`checkout.dfy`). `Store` is the database: the products table
  (a map from product id to name, price and stock), the transactions table,
  the transaction_details table and the serial that numbers transactions.
  `Store.Checkout` models `CreateTransaction`. The first loop runs on a
  working copy of the catalog (`ApplyBasket`): it looks up each product,
  prices the line, adds the subtotal to the running total, decrements stock
  with no lower bound and records the line. Then the transaction row is
  inserted under a fresh id. The second loop (`InsertDetails`) stamps that
  id on every line and inserts the detail rows. Finally the commit replaces
  the tables. Any error returns before the commit, so nothing changes; this
  is the deferred rollback.
- **Sales reports** (`sales_report.dfy`). `GetSalesSummaryToday` and
  `GetSalesSummaryByDateRange` become `Summarize`, a function of the rows and
  a `Window`: `Today(day)` or `Between(start, end)`. Revenue is the sum of
  totals (0 when empty) and count is the number of selected transactions.
  The best seller is a product with the largest quantity summed over the
  detail rows joined to the selected transactions and to the products
  table. It is absent when no row joins.
- **Category table** (`categories.dfy`). `CategoryTable` holds the global
  slice of categories in `main.go`. Its methods are the lookup, update,
  delete and create that the HTTP handlers perform on it.
- **Connection string** (`connection_string.dfy`). `Normalize` is the
  rewriting at the top of `InitDB` that selects pgx's simple query protocol.

Record types are in `models.dfy`; `Option` and `Result` are in `outcomes.dfy`.

Modelling choices:

- Errors of the database driver are a parameter. `Fault` names the one call
  that fails, if any: begin, the product query or stock update of line k,
  the transaction insert, the insert of detail row k, or commit. Every other
  call succeeds. A failing product query is a driver error even when the
  product is also missing.
- The transaction id is the store's `nextId`, which is larger than every id
  already stored. The day of creation (`created_at`) and "today" are integer
  day numbers given as parameters.
- The code has no empty-basket, stock or quantity check, and the model
  follows the code. An empty basket commits a transaction with total 0 and
  no details. Stock can become negative (the
  example in `Checkout.CheckoutExample` drives it to -6).
- The persisted detail row has no product name. Only the returned
  transaction carries it.
- A detail row's join to transactions is counted with multiplicity
  (`JoinCount`), so the best-seller model does not rely on transaction ids
  being unique. The best seller's name is the product's current name.
- Category ids are not unique after a delete followed by a create.
  `Categories.DeleteThenCreateDuplicatesId` shows two categories with id 3.

## Model

| member | source | states |
|---|---|---|
| `ConnectionString.Normalize` | database/database.go:14-20 | the input is a prefix of the result; the result always contains `default_query_exec_mode`; the result equals the input exactly when the input already contains it; otherwise the added text is `&` (if the input has `?`) or `?`, followed by `default_query_exec_mode=simple_protocol` |
| `ConnectionString.NormalizeCases` | database/database.go:14-18 | the three outcomes: unchanged; input + `&default_query_exec_mode=simple_protocol`; input + `?default_query_exec_mode=simple_protocol` |
| `ConnectionString.NormalizeIdempotent` | database/database.go:14-20 | normalising twice gives the same string as normalising once |
| `Categories.IndexOfId` | main.go:46-52 | the position of the first category with the id, or -1 exactly when no category has it |
| `Categories.CategoryTable.constructor` | main.go:27-31 | the initial table holds Makanan, Minuman and Snack with ids 1, 2, 3 in that order |
| `Categories.CategoryTable.GetById` | main.go:46-58 | returns the first category whose id matches; reports not found exactly when no id matches |
| `Categories.CategoryTable.UpdateById` | main.go:84-98 | with a match, the first matching entry becomes the payload with its id forced to the path id, the rest and the length unchanged, and that entry is returned; without a match the table is unchanged and not found is reported |
| `Categories.CategoryTable.DeleteById` | main.go:113-128 | with a match, exactly the first matching entry is removed and the others keep their order; without a match the table is unchanged and not found is reported |
| `Categories.CategoryTable.Create` | main.go:230-231 | the payload gets id = old length + 1 and is appended last; all earlier entries are unchanged |
| `Categories.LookupAfterUpdate` | main.go:84-91 | after an update, a lookup of the id finds the updated entry at the same position |
| `Categories.LookupAfterDelete` | main.go:113-115 | after a delete, a lookup of the id finds the next entry that carried it, if any |
| `Categories.LookupAfterCreate` | main.go:230-231 | a created category is found by its id only when no earlier category already has that id |
| `Checkout.FirstMissing` | repositories/transaction_repository.go:28-35 | how many leading basket lines name existing products; the line after them names a missing product |
| `Checkout.ApplyBasket` | repositories/transaction_repository.go:25-54 | succeeds exactly when every line's product exists and no lookup or update fails; otherwise reports the driver error or `ProductNotFound` of the first missing id; on success one line per basket line in order, copying product id and quantity, taking the name from the product, with subtotal = price * quantity, a total equal to the sum of the subtotals, and stock decreased by the summed quantity of each product |
| `Checkout.InsertDetails` | repositories/transaction_repository.go:62-69 | fails exactly when a detail insert fails; otherwise every line carries the new transaction id and one persisted row per line is produced, in order, without the product name |
| `Checkout.Store.Checkout` | repositories/transaction_repository.go:18-80 | succeeds exactly when every product exists and no database call fails; a failure is `ProductNotFound` of the first missing id or a storage error, and leaves products, transactions, details and the serial exactly as they were (earlier lines included); on success the returned id is fresh and stamped on every line, total = sum of subtotals, subtotal = price * quantity, stock of each product drops by its summed basket quantity with no lower bound, and one transaction row and its detail rows are appended |
| `Checkout.UntouchedProductUnchanged` | repositories/transaction_repository.go:43 | a product that no basket line names keeps its row unchanged |
| `Checkout.SuccessiveDecrementsCompose` | repositories/transaction_repository.go:43 | two checkouts in a row decrement stock as one checkout of both baskets would |
| `Checkout.DecrementKeepsPrice` | repositories/transaction_repository.go:43 | stock updates leave names and prices as they were |
| `SalesReport.InWindow` | repositories/transaction_repository.go:125-129 | the selection holds each transaction whose day matches the window as many times as the table does, and no other |
| `SalesReport.SoldIds` | repositories/transaction_repository.go:136-145 | the groups of the best-seller query: exactly the product ids of detail rows that join a selected transaction and an existing product |
| `SalesReport.TopSeller` | repositories/transaction_repository.go:142-144 | a group whose summed quantity is at least that of every group |
| `SalesReport.Summarize` | repositories/transaction_repository.go:136-153 | the best seller is absent exactly when no detail row joins the window; otherwise it is the name and summed quantity of a product with rows in the window whose summed quantity is maximal |
| `SalesReport.SummaryTotals` | repositories/transaction_repository.go:125-129 | revenue is the sum of totals, and count the number, of transactions whose day matches the window |
| `SalesReport.CommittedSaleCounted` | repositories/transaction_repository.go:87-91 | a sale committed today adds its total to today's revenue and one to today's count |
| `SalesReport.TodayIsOneDayRange` | repositories/transaction_repository.go:83-118 | the today summary equals the range summary with start = end = today |
| `SalesReport.ReversedRangeIsEmpty` | repositories/transaction_repository.go:121-156 | a range whose start is after its end gives revenue 0, count 0 and no best seller |
| `SalesReport.EmptyStoreToday` | repositories/transaction_repository.go:83-118 | on an empty store today's summary is revenue 0, count 0 and no best seller |

## Left out

- HTTP dispatch, JSON encoding and decoding, status codes, the `strconv.Atoi` path parsing in main.go, and the list branch of `/api/categories` (it only encodes the slice). The operations take parsed ids and records.
- `main()` in main.go: configuration loading, the `.env` check, route registration, the root and health responses and `ListenAndServe`. All of these are I/O.
- `sql.Open`, `Ping` and the pool settings in database/database.go. These are calls into the driver. Only the connection-string rewriting is modelled.
- handlers/transaction_handler.go is not part of this model.
- The services, models and product-repository packages are not part of this model. The record types are inferred from the fields the core uses.
- Storage isolation, concurrent checkouts racing on stock, and time zones. A checkout is one atomic step on the store.
- Concurrent category requests race on the unguarded global slice in main.go. Each `CategoryTable` method is modelled as one atomic step.
- The serial that numbers transactions is restored on rollback here. PostgreSQL does not roll back a sequence, so a failed checkout can consume an id in the real system.
- Errors of the report queries (the `err != nil` returns) are not modelled. `Summarize` always returns a summary.
- Date strings are not parsed. Days are integers, and a malformed date, which the database would reject, is not represented.
- Go `int` overflow in `price * quantity`, the running total and the sums. All arithmetic is unbounded.
- The text of the error "product id N not found" is represented by `ProductNotFound(N)`. Driver errors are one `StorageError`.
- `CreatedAt` of the returned transaction is not set by the code and is not modelled.
- SalesReport.TopSeller: it breaks ties by taking the first maximal group in detail-row order. The source leaves ties to the database, so the contracts only promise some maximal group.
