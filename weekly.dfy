/**
 * The weekly view of the expense ledger and the budget metrics derived from it.
 */
module Weekly {
  import opened Records
  import opened Positions

  /** An expense belongs to the week ending `today` when it is dated on or after `today - 7`. */
  predicate InWindow(e: Expense, today: int) {
    e.date >= today - WindowDays
  }

  /** `expenses[expenses['date'] >= seven_days_ago]`: keeps the in-window rows, in ledger order. */
  function WeeklyView(expenses: seq<Expense>, today: int): (w: seq<Expense>)
    ensures |w| <= |expenses|
    ensures forall i :: 0 <= i < |w| ==> InWindow(w[i], today)
  {
    if expenses == [] then []
    else (if InWindow(expenses[0], today) then [expenses[0]] else []) + WeeklyView(expenses[1..], today)
  }

  /** `weekly['amount'].sum()`: the sum of the amounts, 0 for no rows. */
  function Total(expenses: seq<Expense>): (t: real)
    ensures expenses == [] ==> t == 0.0
    ensures NonNegative(expenses) ==> t >= 0.0
  {
    if expenses == [] then 0.0 else expenses[0].amount + Total(expenses[1..])
  }

  /** `BUDGET - total_spent`, shown as the remaining budget; no floor at zero. */
  function RemainingBudget(totalSpent: real): (r: real)
    ensures r < 0.0 <==> totalSpent > Budget
    ensures r == 0.0 <==> totalSpent == Budget
  {
    Budget - totalSpent
  }

  /** `savings = BUDGET - total_spent`: the same quantity as the remaining budget. */
  function Savings(totalSpent: real): (s: real)
    ensures s == RemainingBudget(totalSpent)
  {
    Budget - totalSpent
  }

  /** Filtering distributes over concatenation of ledgers. */
  lemma {:induction false} WeeklyViewConcat(a: seq<Expense>, b: seq<Expense>, today: int)
    ensures WeeklyView(a + b, today) == WeeklyView(a, today) + WeeklyView(b, today)
  {
    if a == [] {
      assert a + b == b;
    } else {
      assert (a + b)[0] == a[0] && (a + b)[1..] == a[1..] + b;
      WeeklyViewConcat(a[1..], b, today);
    }
  }

  /** Sums distribute over concatenation. */
  lemma {:induction false} TotalConcat(a: seq<Expense>, b: seq<Expense>)
    ensures Total(a + b) == Total(a) + Total(b)
  {
    if a == [] {
      assert a + b == b;
    } else {
      assert (a + b)[0] == a[0] && (a + b)[1..] == a[1..] + b;
      TotalConcat(a[1..], b);
    }
  }

  /** An expense is in the weekly view exactly when it is in the ledger and in the window. */
  lemma {:induction false} WeeklyMembership(expenses: seq<Expense>, today: int, e: Expense)
    ensures e in WeeklyView(expenses, today) <==> e in expenses && InWindow(e, today)
  {
    if expenses != [] {
      WeeklyMembership(expenses[1..], today, e);
      assert expenses == [expenses[0]] + expenses[1..];
    }
  }

  /** The weekly view keeps every in-window copy of a row and no out-of-window one. */
  lemma {:induction false} WeeklyMultiplicity(expenses: seq<Expense>, today: int, e: Expense)
    ensures multiset(WeeklyView(expenses, today))[e]
         == if InWindow(e, today) then multiset(expenses)[e] else 0
  {
    if expenses != [] {
      var head := if InWindow(expenses[0], today) then [expenses[0]] else [];
      WeeklyMultiplicity(expenses[1..], today, e);
      assert expenses == [expenses[0]] + expenses[1..];
      assert multiset(expenses) == multiset([expenses[0]]) + multiset(expenses[1..]);
      assert multiset(WeeklyView(expenses, today)) == multiset(head) + multiset(WeeklyView(expenses[1..], today));
    }
  }

  /**
   * The weekly view is the order-preserving subsequence of the ledger made of
   * exactly the in-window positions: `idx` lists those positions, increasing.
   */
  lemma {:induction false} WeeklySelection(expenses: seq<Expense>, today: int) returns (idx: seq<nat>)
    ensures |idx| == |WeeklyView(expenses, today)|
    ensures forall i :: 0 <= i < |idx| ==> idx[i] < |expenses| && WeeklyView(expenses, today)[i] == expenses[idx[i]]
    ensures Increasing(idx)
    ensures forall k :: 0 <= k < |expenses| ==> (k in idx <==> InWindow(expenses[k], today))
  {
    if expenses == [] {
      idx := [];
    } else {
      var rest := WeeklySelection(expenses[1..], today);
      var keep := InWindow(expenses[0], today);
      idx := Extend(keep, rest);
      ExtendProperties(keep, rest, |expenses|);
      SelectionStepElements(expenses, today, rest);
      SelectionStepPositions(expenses, today, rest);
    }
  }

  /** The positions of the tail's weekly rows, extended to the whole ledger, pick the whole ledger's weekly rows. */
  lemma {:induction false} SelectionStepElements(expenses: seq<Expense>, today: int, rest: seq<nat>)
    requires expenses != []
    requires |rest| == |WeeklyView(expenses[1..], today)|
    requires forall i :: 0 <= i < |rest| ==> rest[i] < |expenses[1..]| && WeeklyView(expenses[1..], today)[i] == expenses[1..][rest[i]]
    ensures |Extend(InWindow(expenses[0], today), rest)| == |WeeklyView(expenses, today)|
    ensures forall i :: 0 <= i < |rest| + Skip(InWindow(expenses[0], today)) ==>
      Extend(InWindow(expenses[0], today), rest)[i] < |expenses|
      && WeeklyView(expenses, today)[i] == expenses[Extend(InWindow(expenses[0], today), rest)[i]]
  {
  }

  /** The extended positions are exactly the whole ledger's in-window positions. */
  lemma {:induction false} SelectionStepPositions(expenses: seq<Expense>, today: int, rest: seq<nat>)
    requires expenses != []
    requires Increasing(rest)
    requires forall k :: 0 <= k < |expenses[1..]| ==> (k in rest <==> InWindow(expenses[1..][k], today))
    ensures forall k :: 0 <= k < |expenses| ==> (k in Extend(InWindow(expenses[0], today), rest) <==> InWindow(expenses[k], today))
  {
    var keep := InWindow(expenses[0], today);
    ExtendProperties(keep, rest, |expenses|);
    forall k | 1 <= k < |expenses|
      ensures k in Extend(keep, rest) <==> InWindow(expenses[k], today)
    {
      assert expenses[k] == expenses[1..][k - 1];
    }
  }

  /** The window's boundary: a row dated `today - 7` is kept, one dated `today - 8` is not. */
  lemma WindowBoundary(today: int, c: Category, amount: real)
    ensures WeeklyView([Expense(today - 7, c, amount)], today) == [Expense(today - 7, c, amount)]
    ensures WeeklyView([Expense(today - 8, c, amount)], today) == []
  {
  }

  /**
   * Appending an expense changes the weekly total by exactly its amount if it is
   * in the window and not at all otherwise; with a non-negative amount the
   * total never decreases.
   */
  lemma AppendTotal(expenses: seq<Expense>, e: Expense, today: int)
    ensures Total(WeeklyView(expenses + [e], today))
         == Total(WeeklyView(expenses, today)) + (if InWindow(e, today) then e.amount else 0.0)
    ensures e.amount >= 0.0 ==> Total(WeeklyView(expenses + [e], today)) >= Total(WeeklyView(expenses, today))
  {
    WeeklyViewConcat(expenses, [e], today);
    TotalConcat(WeeklyView(expenses, today), WeeklyView([e], today));
  }

  /** Spending more than the budget makes savings negative: there is no clamping. */
  lemma SavingsUnclamped(today: int)
    ensures Savings(Total(WeeklyView([Expense(today, Rent, 1200.0)], today))) == -200.0
  {
  }
}
