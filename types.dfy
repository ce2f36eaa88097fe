/** The records the application stores and the shapes its analytics
    return. A stored record carries its identifier (`_id`) as `id`. */
module Types {
  import opened Common
  import opened Calendar

  /** A recorded expense. `category` is optional in the record type; the
      handlers always fill it, but a record stored otherwise may lack it. */
  datatype Transaction = Transaction(
    id: string,
    amount: real,
    date: Date,
    description: string,
    category: Option<string>,
    createdAt: Date,
    updatedAt: Date)

  /** A spending limit for one category in one month (`month` is `YYYY-MM`). */
  datatype Budget = Budget(
    id: string,
    category: string,
    monthlyLimit: real,
    month: string,
    createdAt: Date,
    updatedAt: Date)

  datatype MonthlyExpense = MonthlyExpense(month: string, total: real)

  /** One row of the category breakdown. The group key of transactions
      without a category is `null`, hence the option. */
  datatype CategoryExpense = CategoryExpense(category: Option<string>, total: real, percentage: real)

  datatype DashboardSummary = DashboardSummary(
    totalExpenses: real,
    categoryBreakdown: seq<CategoryExpense>,
    recentTransactions: seq<Transaction>,
    monthlyExpenses: seq<MonthlyExpense>)

  datatype Status = Under | Over | OnTrack

  /** The wire names of the three statuses. */
  function StatusName(s: Status): (name: string)
    ensures name in {"under", "over", "on-track"}
  {
    match s
    case Under => "under"
    case Over => "over"
    case OnTrack => "on-track"
  }

  lemma StatusNamesDistinct(a: Status, b: Status)
    ensures StatusName(a) == StatusName(b) <==> a == b
  {
  }

  datatype BudgetComparison = BudgetComparison(
    category: string,
    budgeted: real,
    actual: real,
    percentage: real,
    status: Status)

  const PredefinedCategories: seq<string> := [
    "Food & Dining",
    "Transportation",
    "Shopping",
    "Entertainment",
    "Bills & Utilities",
    "Healthcare",
    "Education",
    "Travel",
    "Personal Care",
    "Other"
  ]

  /** The default category every write falls back to. */
  const DefaultCategory: string := "Other"

  lemma PredefinedCategoriesWellFormed()
    ensures |PredefinedCategories| == 10
    ensures forall i, j :: 0 <= i < j < 10 ==> PredefinedCategories[i] != PredefinedCategories[j]
    ensures DefaultCategory in PredefinedCategories
  {
    assert PredefinedCategories[9] == DefaultCategory;
  }
}
