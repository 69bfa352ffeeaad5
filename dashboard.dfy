/**
 * One session of the dashboard: the two ledgers the script loads and then
 * rebinds when a form is submitted, and one pass over them that computes
 * what the page shows.
 */
module Dashboard {
  import opened Wrappers
  import opened Records
  import opened Weekly
  import opened Portfolio
  import opened Breakdown
  import opened Feedback

  /** What one pass of the script derives from the ledgers. */
  datatype View = View(
    weekly: seq<Expense>,
    totalSpent: real,
    remainingBudget: real,
    savings: real,
    rows: seq<Holding>,
    totalValue: real,
    feedback: Option<FeedbackContext>)

  class Session {
    /** The expense ledger, in insertion order. */
    var expenses: seq<Expense>
    /** The investment ledger, in insertion order. */
    var investments: seq<Investment>

    /** The ledgers as loaded; a failed load yields an empty ledger. */
    constructor (expenses: seq<Expense>, investments: seq<Investment>)
      ensures this.expenses == expenses && this.investments == investments
    {
      this.expenses := expenses;
      this.investments := investments;
    }

    /** The expense form's submission: the new row goes at the end, nothing else changes. */
    method AddExpense(date: int, category: Category, amount: real)
      modifies this
      ensures expenses == old(expenses) + [Expense(date, category, amount)]
      ensures |expenses| == |old(expenses)| + 1
      ensures expenses[|expenses| - 1] == Expense(date, category, amount)
      ensures expenses[..|old(expenses)|] == old(expenses)
      ensures investments == old(investments)
    {
      expenses := expenses + [Expense(date, category, amount)];
    }

    /**
     * The investment form's submission: ignored when the symbol is empty;
     * otherwise the row with the upper-cased symbol goes at the end.
     */
    method AddInvestment(symbol: string, amountInvested: real)
      modifies this
      ensures symbol == [] ==> investments == old(investments)
      ensures symbol != [] ==> investments == old(investments) + [Investment(Upper(symbol), amountInvested)]
      ensures symbol != [] ==> investments[..|old(investments)|] == old(investments)
      ensures expenses == old(expenses)
    {
      if symbol != [] {
        investments := investments + [Investment(Upper(symbol), amountInvested)];
      }
    }

    /**
     * One rendering pass for day `today`: the weekly view and its metrics,
     * the valuation loop, and the feedback step.
     */
    method Refresh(today: int, quote: Quote, show: real -> string) returns (view: View)
      ensures view.weekly == WeeklyView(expenses, today)
      ensures view.totalSpent == Total(view.weekly)
      ensures view.remainingBudget == view.savings == Budget - view.totalSpent
      ensures view.rows == PricedRows(investments, quote)
      ensures view.totalValue == SumCurrent(view.rows)
      ensures view.feedback.Some? <==> view.weekly != []
      ensures view.feedback.Some? ==> view.feedback.value.investmentSummary == InvestmentSummary(investments, show)
      ensures view.feedback.Some? ==> view.feedback.value.totalPortfolioValue == view.totalValue
      ensures view.feedback.Some? ==> view.feedback.value.totalSpent == view.totalSpent
      ensures view.feedback.Some? ==> view.feedback.value.savings == view.savings
      ensures view.feedback.Some? ==> view.feedback.value.byCategory.Keys == CategoriesOf(view.weekly)
      ensures view.feedback.Some? ==> SumValues(view.feedback.value.byCategory) == view.totalSpent
      ensures view.feedback.Some? ==>
        forall c :: Get(view.feedback.value.byCategory, c) == Total(OfCategory(view.weekly, c))
    {
      var weekly := WeeklyView(expenses, today);
      var totalSpent := Total(weekly);
      var savings := Savings(totalSpent);
      var rows, totalValue := Valuate(investments, quote);
      TotalIsSumOfRows(investments, quote);
      var feedback := FeedbackRequest(weekly, totalSpent, savings, investments, totalValue, show);
      forall c | weekly != []
        ensures Get(feedback.value.byCategory, c) == Total(OfCategory(weekly, c))
      {
        FeedbackBreakdown(weekly, totalSpent, savings, investments, totalValue, show, c);
      }
      view := View(weekly, totalSpent, RemainingBudget(totalSpent), savings, rows, totalValue, feedback);
    }
  }
}
