/**
 * The per-category breakdown of the weekly expenses:
 * `expenses.groupby("category")["amount"].sum()`.
 */
module Breakdown {
  import opened Records
  import opened Weekly

  /** The amount recorded for a category, 0 when the category has no key. */
  function Get(m: map<Category, real>, c: Category): real {
    if c in m then m[c] else 0.0
  }

  /** Groups the rows by category and sums each group; absent categories get no key. */
  function ByCategory(expenses: seq<Expense>): (m: map<Category, real>)
    ensures m.Keys == CategoriesOf(expenses)
  {
    if expenses == [] then map[]
    else
      var rest := ByCategory(expenses[1..]);
      var e := expenses[0];
      assert CategoriesOf(expenses) == {e.category} + CategoriesOf(expenses[1..]) by {
        assert expenses == [e] + expenses[1..];
      }
      rest[e.category := e.amount + Get(rest, e.category)]
  }

  /** The categories that occur in the rows. */
  function CategoriesOf(expenses: seq<Expense>): set<Category> {
    set i | 0 <= i < |expenses| :: expenses[i].category
  }

  /** The rows of one category, in ledger order. */
  function OfCategory(expenses: seq<Expense>, c: Category): seq<Expense> {
    if expenses == [] then []
    else (if expenses[0].category == c then [expenses[0]] else []) + OfCategory(expenses[1..], c)
  }

  /** The sum of a breakdown's values over all five categories. */
  function SumValues(m: map<Category, real>): real {
    Get(m, Food) + Get(m, Rent) + Get(m, Gym) + Get(m, Fun) + Get(m, Other)
  }

  /** Each group's value is the total of the rows of that category; absent ones count as 0. */
  lemma {:induction false} ByCategoryValue(expenses: seq<Expense>, c: Category)
    ensures Get(ByCategory(expenses), c) == Total(OfCategory(expenses, c))
  {
    if expenses != [] {
      var e := expenses[0];
      ByCategoryValue(expenses[1..], c);
      TotalConcat(if e.category == c then [e] else [], OfCategory(expenses[1..], c));
    }
  }

  /** The values of the breakdown add up to the total spent. */
  lemma {:induction false} ByCategorySum(expenses: seq<Expense>)
    ensures SumValues(ByCategory(expenses)) == Total(expenses)
  {
    if expenses != [] {
      var rest := ByCategory(expenses[1..]);
      var e := expenses[0];
      ByCategorySum(expenses[1..]);
      assert ByCategory(expenses) == rest[e.category := e.amount + Get(rest, e.category)];
      UpdateSum(rest, e.category, e.amount + Get(rest, e.category));
    }
  }

  /** Setting one key changes the sum by the difference at that key only. */
  lemma UpdateSum(m: map<Category, real>, c: Category, v: real)
    ensures SumValues(m[c := v]) == SumValues(m) - Get(m, c) + v
  {
  }

  /** With non-negative amounts every group's value is non-negative. */
  lemma ByCategoryNonNegative(expenses: seq<Expense>, c: Category)
    requires NonNegative(expenses)
    ensures c in ByCategory(expenses) ==> ByCategory(expenses)[c] >= 0.0
  {
    ByCategoryValue(expenses, c);
    OfCategoryNonNegative(expenses, c);
  }

  lemma {:induction false} OfCategoryNonNegative(expenses: seq<Expense>, c: Category)
    requires NonNegative(expenses)
    ensures NonNegative(OfCategory(expenses, c))
  {
    if expenses != [] {
      OfCategoryNonNegative(expenses[1..], c);
    }
  }
}
