/**
 * The in-memory ledger of the personal budget tracker: `Transaction` records,
 * the `BudgetTracker` that owns them and its id counter, the per-type total,
 * and the list of string records written to the CSV export.
 *
 * Amounts are `real` (an idealised `float64`); the creation instant is an
 * opaque `Instant` handed in by the caller instead of read from a clock; the
 * amount and date formatters of the export are parameters.
 */
module Budget {
  import opened Strconv

  /** The instant a transaction was recorded. The model never inspects it. */
  datatype Instant = Instant(nanos: int)

  datatype Transaction = Transaction(
    id: int,
    amount: real,
    category: string,
    date: Instant,
    transactionType: string)
  {
    function GetAmount(): real { amount }
    function GetType(): string { transactionType }
  }

  /** What one transaction adds to the total for `tType`: exact, case-sensitive match. */
  function Share(t: Transaction, tType: string): real {
    if t.GetType() == tType then t.GetAmount() else 0.0
  }

  /**
   * The total for `tType` over a sequence of transactions. When no amount is
   * negative, the total of one type lies between zero and the sum of all amounts.
   */
  function Total(s: seq<Transaction>, tType: string): (r: real)
    ensures (forall i :: 0 <= i < |s| ==> s[i].amount >= 0.0) ==> 0.0 <= r <= SumAmounts(s)
  {
    if s == [] then 0.0 else Share(s[0], tType) + Total(s[1..], tType)
  }

  /** Reference definition of the total: keep the matching transactions, then add them all up. */
  function Matching(s: seq<Transaction>, tType: string): (r: seq<Transaction>)
    ensures |r| <= |s|
    ensures forall t :: t in r ==> t in s && t.transactionType == tType
    ensures forall t :: t in s && t.transactionType == tType ==> t in r
    ensures forall t :: multiset(r)[t] == if t.transactionType == tType then multiset(s)[t] else 0
  {
    if s == [] then []
    else
      assert s == [s[0]] + s[1..];
      if s[0].transactionType == tType then [s[0]] + Matching(s[1..], tType)
      else Matching(s[1..], tType)
  }

  function SumAmounts(s: seq<Transaction>): real {
    if s == [] then 0.0 else s[0].amount + SumAmounts(s[1..])
  }

  /** Each transaction's ID is its position: IDs are 0, 1, 2, ... in insertion order. */
  ghost predicate IdsArePositions(s: seq<Transaction>) {
    forall i :: 0 <= i < |s| ==> s[i].id == i
  }

  /** The fixed header record of the export. */
  const Header: seq<string> := ["ID", "Amount", "Category", "Date", "Type"]

  /**
   * The five fields exported for one transaction, in column order: its ID
   * field reads back as the ID, and category and type are copied verbatim.
   */
  function Record(t: Transaction, formatAmount: real -> string, formatDate: Instant -> string): (r: seq<string>)
    ensures |r| == 5
    ensures ParseDecimal(r[0]) == Some(t.id)
    ensures r[2] == t.category && r[4] == t.transactionType
  {
    ItoaRoundTrip(t.id);
    [Itoa(t.id), formatAmount(t.amount), t.category, formatDate(t.date), t.transactionType]
  }

  /** One record per transaction, in order. */
  function Rows(s: seq<Transaction>, formatAmount: real -> string, formatDate: Instant -> string): (r: seq<seq<string>>)
    ensures |r| == |s|
    ensures forall i :: 0 <= i < |s| ==> r[i] == Record(s[i], formatAmount, formatDate)
  {
    if s == [] then [] else [Record(s[0], formatAmount, formatDate)] + Rows(s[1..], formatAmount, formatDate)
  }

  /** Everything the export writes: the header, then the transaction rows. */
  function Records(s: seq<Transaction>, formatAmount: real -> string, formatDate: Instant -> string): (r: seq<seq<string>>)
    ensures |r| == |s| + 1 && r[0] == Header
    ensures forall j :: 1 <= j < |r| ==> r[j] == Record(s[j - 1], formatAmount, formatDate)
  {
    [Header] + Rows(s, formatAmount, formatDate)
  }

  // ---------------------------------------------------------------- totals

  /** Appending a transaction adds its share to every total and nothing else. */
  lemma {:induction false} TotalAppend(s: seq<Transaction>, t: Transaction, tType: string)
    ensures Total(s + [t], tType) == Total(s, tType) + (if t.transactionType == tType then t.amount else 0.0)
  {
    if s == [] {
      assert s + [t] == [t];
    } else {
      assert (s + [t])[1..] == s[1..] + [t];
      TotalAppend(s[1..], t, tType);
    }
  }

  /** The total is the sum of the amounts of exactly the matching transactions. */
  lemma {:induction false} TotalIsSumOfMatching(s: seq<Transaction>, tType: string)
    ensures Total(s, tType) == SumAmounts(Matching(s, tType))
  {
    if s != [] {
      TotalIsSumOfMatching(s[1..], tType);
      if s[0].transactionType == tType {
        assert ([s[0]] + Matching(s[1..], tType))[1..] == Matching(s[1..], tType);
      }
    }
  }

  /** A type that no transaction carries (an empty ledger, a typo) totals zero. */
  lemma {:induction false} TotalNoMatch(s: seq<Transaction>, tType: string)
    requires forall i :: 0 <= i < |s| ==> s[i].transactionType != tType
    ensures Total(s, tType) == 0.0
  {
    if s != [] {
      TotalNoMatch(s[1..], tType);
    }
  }

  /**
   * Only when every transaction carries one of two distinct types do the two
   * totals add up to the sum of all amounts.
   */
  lemma {:induction false} TotalsPartition(s: seq<Transaction>, income: string, expenses: string)
    requires income != expenses
    requires forall i :: 0 <= i < |s| ==> s[i].transactionType in {income, expenses}
    ensures Total(s, income) + Total(s, expenses) == SumAmounts(s)
  {
    if s != [] {
      TotalsPartition(s[1..], income, expenses);
    }
  }

  lemma {:induction false} SumAmountsAppend(s: seq<Transaction>, t: Transaction)
    ensures SumAmounts(s + [t]) == SumAmounts(s) + t.amount
  {
    if s == [] {
      assert s + [t] == [t];
    } else {
      assert (s + [t])[1..] == s[1..] + [t];
      SumAmountsAppend(s[1..], t);
    }
  }

  /**
   * A record whose type is neither "income" nor "expenses" leaves both totals
   * unchanged while adding its amount to the sum of all amounts; so a ledger
   * whose two totals made up the whole sum no longer does once such a record
   * with a non-zero amount is added.
   */
  lemma OtherTypesEscapeBothTotals(s: seq<Transaction>, t: Transaction)
    requires t.transactionType != "income" && t.transactionType != "expenses"
    ensures Total(s + [t], "income") == Total(s, "income")
    ensures Total(s + [t], "expenses") == Total(s, "expenses")
    ensures SumAmounts(s + [t]) == SumAmounts(s) + t.amount
    ensures Total(s, "income") + Total(s, "expenses") == SumAmounts(s) && t.amount != 0.0 ==>
      Total(s + [t], "income") + Total(s + [t], "expenses") != SumAmounts(s + [t])
  {
    TotalAppend(s, t, "income");
    TotalAppend(s, t, "expenses");
    SumAmountsAppend(s, t);
  }

  // ---------------------------------------------------------------- ids

  /** IDs that are positions are unique and strictly increasing in insertion order. */
  lemma IdsIncreasing(s: seq<Transaction>)
    requires IdsArePositions(s)
    ensures forall i, j :: 0 <= i < j < |s| ==> s[i].id < s[j].id
  {
  }

  // ---------------------------------------------------------------- export

  /** One more transaction adds exactly its record at the end of the rows. */
  lemma RowsAppend(s: seq<Transaction>, t: Transaction, formatAmount: real -> string, formatDate: Instant -> string)
    ensures Rows(s + [t], formatAmount, formatDate) == Rows(s, formatAmount, formatDate) + [Record(t, formatAmount, formatDate)]
  {
  }

  /**
   * The export has one record more than there are transactions: the header
   * first, then for each transaction in order its ID in decimal, the formatted
   * amount, the category verbatim, the formatted date and the type verbatim.
   */
  lemma RecordsShape(s: seq<Transaction>, formatAmount: real -> string, formatDate: Instant -> string)
    ensures var r := Records(s, formatAmount, formatDate);
      && |r| == |s| + 1
      && r[0] == ["ID", "Amount", "Category", "Date", "Type"]
      && forall j :: 1 <= j < |r| ==>
           && |r[j]| == 5
           && r[j][0] == Itoa(s[j - 1].id)
           && r[j][1] == formatAmount(s[j - 1].amount)
           && r[j][2] == s[j - 1].category
           && r[j][3] == formatDate(s[j - 1].date)
           && r[j][4] == s[j - 1].transactionType
  {
  }

  /** Reading back the ID column of an export of a well-formed ledger gives each row's position. */
  lemma ExportedIdsReadBack(s: seq<Transaction>, formatAmount: real -> string, formatDate: Instant -> string)
    requires IdsArePositions(s)
    ensures var r := Records(s, formatAmount, formatDate);
      |r| == |s| + 1 && forall j :: 1 <= j < |r| ==> |r[j]| == 5 && ParseDecimal(r[j][0]) == Some(j - 1)
  {
  }

  // ---------------------------------------------------------------- the tracker

  class BudgetTracker {
    var transactions: seq<Transaction>
    var nextID: int

    /** The counter equals the number of records and each record's ID is its position. */
    ghost predicate Valid()
      reads this
    {
      nextID == |transactions| && IdsArePositions(transactions)
    }

    /** The zero-valued tracker `BudgetTracker{}`. */
    constructor ()
      ensures transactions == [] && nextID == 0
      ensures Valid()
    {
      transactions := [];
      nextID := 0;
    }

    /**
     * Records a transaction stamped with the current counter and the instant
     * `now`, storing amount, category and type as given, and advances the counter.
     */
    method AddTransaction(amount: real, category: string, transactionType: string, now: Instant)
      modifies this
      ensures transactions == old(transactions) + [Transaction(old(nextID), amount, category, now, transactionType)]
      ensures nextID == old(nextID) + 1
      ensures old(Valid()) ==> Valid()
      ensures forall u :: (Total(transactions, u) ==
        Total(old(transactions), u) + (if u == transactionType then amount else 0.0))
    {
      ghost var before := transactions;
      var newTransaction := Transaction(nextID, amount, category, now, transactionType);
      transactions := transactions + [newTransaction];
      nextID := nextID + 1;
      forall u
        ensures Total(transactions, u) == Total(before, u) + (if u == transactionType then amount else 0.0)
      {
        TotalAppend(before, newTransaction, u);
      }
    }

    /** Sums the amounts of the transactions whose type is exactly `tType`; changes nothing. */
    method CalculateTotal(tType: string) returns (total: real)
      ensures total == Total(transactions, tType)
    {
      total := 0.0;
      for i := 0 to |transactions|
        invariant total == Total(transactions[..i], tType)
      {
        var transaction := transactions[i];
        assert transactions[..i + 1] == transactions[..i] + [transaction];
        TotalAppend(transactions[..i], transaction, tType);
        if transaction.transactionType == tType {
          total := total + transaction.amount;
        }
      }
      assert transactions[..|transactions|] == transactions;
    }

    /** The records `SaveToCSV` hands to the CSV writer, built one transaction at a time. */
    method CsvRecords(formatAmount: real -> string, formatDate: Instant -> string) returns (records: seq<seq<string>>)
      ensures records == Records(transactions, formatAmount, formatDate)
    {
      records := [["ID", "Amount", "Category", "Date", "Type"]];
      for i := 0 to |transactions|
        invariant records == Records(transactions[..i], formatAmount, formatDate)
      {
        var t := transactions[i];
        var record := [Itoa(t.id), formatAmount(t.amount), t.category, formatDate(t.date), t.transactionType];
        assert transactions[..i + 1] == transactions[..i] + [t];
        RowsAppend(transactions[..i], t, formatAmount, formatDate);
        records := records + [record];
      }
      assert transactions[..|transactions|] == transactions;
    }
  }

  // ---------------------------------------------------------------- sessions

  /** The inputs of one "Add Transaction" menu choice, with the instant it happened. */
  datatype Request = Request(amount: real, category: string, transactionType: string, now: Instant)

  /**
   * Starting from the zero-valued tracker, a run of additions yields one
   * record per request, in order, with ID equal to its position.
   */
  method Session(requests: seq<Request>) returns (bt: BudgetTracker)
    ensures fresh(bt) && bt.Valid()
    ensures |bt.transactions| == |requests|
    ensures forall i :: 0 <= i < |requests| ==>
      bt.transactions[i] == Transaction(i, requests[i].amount, requests[i].category, requests[i].now, requests[i].transactionType)
  {
    bt := new BudgetTracker();
    for k := 0 to |requests|
      invariant bt.Valid() && |bt.transactions| == k
      invariant forall i :: 0 <= i < k ==>
        bt.transactions[i] == Transaction(i, requests[i].amount, requests[i].category, requests[i].now, requests[i].transactionType)
    {
      var r := requests[k];
      bt.AddTransaction(r.amount, r.category, r.transactionType, r.now);
    }
  }

  /** Two additions, then the income and expense totals and the listed records. */
  method TwoEntryScenario(salaryDay: Instant, groceryDay: Instant) returns (income: real, expenses: real, listed: seq<Transaction>)
    ensures income == 1500.0 && expenses == 42.5
    ensures listed == [Transaction(0, 1500.0, "Salary", salaryDay, "income"),
                       Transaction(1, 42.5, "Groceries", groceryDay, "expenses")]
  {
    var bt := new BudgetTracker();
    bt.AddTransaction(1500.0, "Salary", "income", salaryDay);
    bt.AddTransaction(42.5, "Groceries", "expenses", groceryDay);
    income := bt.CalculateTotal("income");
    expenses := bt.CalculateTotal("expenses");
    listed := bt.transactions;
  }
}
