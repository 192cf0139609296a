# Personal budget tracker — verified model of the ledger

The program is a small terminal budget tracker. Its ledger is a `BudgetTracker`
that owns a list of `Transaction` records and an id counter `nextID`:

- `AddTransaction` stamps a new record with the counter and the current time,
  appends it and advances the counter. It checks nothing: zero or negative
  amounts, empty categories and unknown types are all stored as given.
- `CalculateTotal` adds up the amounts of the records whose type equals its
  argument exactly. Matching is case-sensitive.
- `SaveToCSV` writes a fixed header and then one five-field record per
  transaction, in order.

This project models that ledger in Dafny in two modules:

- `Strconv` (`strconv.dfy`) renders integers in decimal, as `strconv.Itoa`
  does for the ID column. It also has a parser for such fields, so that the
  rendering is proved to read back to the same integer.
- `Budget` (`budget.dfy`) holds the `Transaction` datatype with its getters
  `GetAmount`/`GetType` and the `BudgetTracker` class. The class has the
  fields `transactions: seq<Transaction>` and `nextID: int`.
  - `AddTransaction` is a `modifies this` method.
  - `CalculateTotal` is a loop proved equal to the pure total `Total`.
  - `CsvRecords` builds the export records in a loop and is proved equal to
    the pure `Records`.

Its lemmas relate these to reference definitions and to each other.

Modelling choices:

- Amounts are `real`, an exact idealisation of Go's `float64`.
- The clock reading `time.Now()` becomes a parameter `now: Instant` of
  `AddTransaction`. The model never inspects an `Instant`.
- The export's amount formatter (`%.2f`) and date formatter
  (`Format("2006-01-02")`) are function parameters `formatAmount` and
  `formatDate` of the record builder. The model says where their output goes,
  not what it is.
- The zero value `BudgetTracker{}` that `main` starts from is the class
  constructor. The object invariant `Valid()` says two things: the counter
  equals the number of records, and each record's ID is its position.
  `AddTransaction` does not require `Valid()`, because the Go method has no
  precondition. Instead it promises that it preserves `Valid()`.

## Model

| member | source | states |
|---|---|---|
| `Strconv.Itoa` | main.go:82 | the ID field is non-empty; it starts with '-' exactly when the ID is negative, and a non-negative ID is rendered with digits only |
| `Strconv.NatDigits` | main.go:82 | the decimal digits of a natural number are non-empty, all digits, and have no leading zero (the first digit is '0' exactly for 0) |
| `Strconv.NatDigitsValue` | main.go:82 | the digits of n denote n |
| `Strconv.ItoaRoundTrip` | main.go:82 | parsing the decimal rendering of any integer gives that integer back |
| `Strconv.ItoaInjective` | main.go:82 | distinct IDs are rendered as distinct strings |
| `Budget.Total` | main.go:57-65 | the per-type total that `CalculateTotal` computes: what it equals is stated by `TotalIsSumOfMatching` (the sum over exactly the matching records), `TotalAppend` (how one more record changes it) and `TotalNoMatch` (0 when nothing matches); its own contract says that when no amount is negative the total of one type lies between 0 and the sum of all amounts |
| `Budget.Matching` | main.go:59-60 | the records kept for a type all carry exactly that type, and each record of the ledger with that type is kept exactly as many times as it occurs there (equal multisets on the matching records, none of the others) |
| `Budget.TotalIsSumOfMatching` | main.go:57-65 | the total for a type equals the sum of the amounts of exactly the records whose type matches it |
| `Budget.TotalAppend` | main.go:57-65 | appending a record raises the total for its own type by its amount and leaves the total for every other type unchanged |
| `Budget.TotalNoMatch` | main.go:57-65 | a type that no record carries (including any type on an empty ledger) totals 0 |
| `Budget.TotalsPartition` | main.go:132-134 | when every record is typed with one of two distinct types, the two totals add up to the sum of all amounts |
| `Budget.SumAmountsAppend` | main.go:132-134 | one more record adds its amount to the sum of all amounts |
| `Budget.OtherTypesEscapeBothTotals` | main.go:132-134 | for any ledger, appending a record whose type is neither "income" nor "expenses" leaves both totals unchanged and adds its amount to the sum of all amounts; so if the two totals made up the whole sum before and the amount is non-zero, they no longer do |
| `Budget.IdsIncreasing` | main.go:39 | IDs that equal positions are unique and strictly increasing in insertion order |
| `Budget.RowsAppend` | main.go:80-87 | one more transaction adds exactly one record at the end of the exported rows |
| `Budget.Record` | main.go:81-87 | the record built for one transaction has five fields; its ID field reads back as the transaction's ID; category and type are copied verbatim (all five fields are listed in `RecordsShape`) |
| `Budget.Rows` | main.go:80-87 | there is one row per transaction, and row i is the record built from transaction i |
| `Budget.Records` | main.go:78-87 | the export is one record longer than the ledger: the fixed header first, then row j is the record built from transaction j-1 (field by field in `RecordsShape`) |
| `Budget.RecordsShape` | main.go:78-87 | the export has one record more than there are transactions: the header ID, Amount, Category, Date, Type comes first, then row j has five fields: the decimal ID of transaction j-1, its formatted amount, its category verbatim, its formatted date and its type verbatim |
| `Budget.ExportedIdsReadBack` | main.go:82 | on a ledger whose IDs are positions, the ID field of export row j reads back as j-1 |
| `Budget.BudgetTracker.constructor` | main.go:99 | the zero-valued tracker has no records and counter 0, and satisfies the invariant |
| `Budget.BudgetTracker.AddTransaction` | main.go:37-47 | exactly one record is appended at the end, with the old counter as its ID and the amount, category, instant and type stored as given; earlier records are unchanged; the counter grows by one; the invariant is preserved; the total for the new type grows by the amount and every other total is unchanged |
| `Budget.BudgetTracker.CalculateTotal` | main.go:57-65 | the returned value is the total of the amounts of the records whose type equals the argument exactly; the method has no modifies clause, so it changes nothing |
| `Budget.BudgetTracker.CsvRecords` | main.go:78-87 | the records built for the CSV writer are exactly the header followed by one record per transaction in order (shape in `RecordsShape`) |
| `Budget.Session` | main.go:99-127 | starting from the zero-valued tracker, a run of additions gives a valid tracker with one record per request, in order, the i-th having ID i and the request's amount, category, instant and type |
| `Budget.TwoEntryScenario` | main.go:99-134 | after adding 1500.00 "Salary" "income" and then 42.50 "Groceries" "expenses", the income total is 1500.00, the expense total is 42.50, and the tracker lists exactly two records: IDs 0 and 1, holding the given amounts, categories, instants and types |

## Left out

- The interactive menu loop and all terminal input and output in `main` (main.go:100-150) are user interface. `Session` and `TwoEntryScenario` stand in for runs of menu choices.
- `DisplayTransactions` (main.go:49-55) only prints the records. Its output is not modelled.
- File handling in `SaveToCSV` is I/O and is not modelled: `os.Create` and its error, the deferred `Close`/`Flush`, the error return of each `writer.Write`, and the final message (main.go:68-76, main.go:88-95). The model stops at the list of records handed to the writer.
- CSV quoting and escaping of fields happen inside Go's `encoding/csv`, which is not part of this model. Records are lists of unquoted strings.
- `%.2f` formatting of amounts and `Format("2006-01-02")` of dates are library formatters. Both are parameters of the record builder.
- `time.Now()` is a clock, so the creation instant is a parameter of `AddTransaction`.
- The `FinancialRecord` interface (main.go:24-27) has one implementation. Its two getters are the datatype members `Transaction.GetAmount` and `Transaction.GetType`, which `Share` uses. Each only returns one field, so they carry no contract.
- Budget.BudgetTracker.CalculateTotal: sums exact reals. It does not model `float64` rounding, so the non-associativity of floating-point summation is not captured.
- Budget.BudgetTracker.AddTransaction: the counter is an unbounded integer. Wrap-around of Go's 64-bit `int` after 2^63 additions is not modelled.
