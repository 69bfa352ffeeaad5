/**
 * What the feedback step hands to the advice generator: the weekly figures,
 * the category breakdown of the weekly view and the investment summary line.
 */
module Feedback {
  import opened Wrappers
  import opened Records
  import opened Weekly
  import opened Breakdown

  /** `sep.join(parts)`. */
  function Join(parts: seq<string>, sep: string): string {
    if parts == [] then ""
    else if |parts| == 1 then parts[0]
    else parts[0] + sep + Join(parts[1..], sep)
  }

  /** Where part `i` starts in `Join(parts, sep)`. */
  function Offset(parts: seq<string>, sep: string, i: nat): nat
    requires i <= |parts|
  {
    if i == 0 then 0 else |parts[0]| + |sep| + Offset(parts[1..], sep, i - 1)
  }

  /** Each next part starts after the previous part and one separator. */
  lemma {:induction false} OffsetStep(parts: seq<string>, sep: string, i: nat)
    requires i < |parts|
    ensures Offset(parts, sep, i + 1) == Offset(parts, sep, i) + |parts[i]| + |sep|
  {
    if i > 0 {
      OffsetStep(parts[1..], sep, i - 1);
    }
  }

  /** Parts occur in the joined text in their order: an earlier part ends before a later one starts. */
  lemma {:induction false} OffsetOrder(parts: seq<string>, sep: string, i: nat, j: nat)
    requires i < j < |parts|
    ensures Offset(parts, sep, i) + |parts[i]| + |sep| <= Offset(parts, sep, j)
    decreases j - i
  {
    OffsetStep(parts, sep, i);
    if i + 1 < j {
      OffsetOrder(parts, sep, i + 1, j);
    }
  }

  /** A slice of the right operand of a concatenation, seen through the concatenation. */
  lemma SliceOfConcat(a: string, b: string, x: nat, y: nat)
    requires x <= y <= |b|
    ensures (a + b)[|a| + x..|a| + y] == b[x..y]
  {
  }

  /** The joined text holds part `i` verbatim at `Offset(parts, sep, i)`. */
  lemma {:induction false} JoinPart(parts: seq<string>, sep: string, i: nat)
    requires i < |parts|
    ensures Offset(parts, sep, i) + |parts[i]| <= |Join(parts, sep)|
    ensures Join(parts, sep)[Offset(parts, sep, i)..Offset(parts, sep, i) + |parts[i]|] == parts[i]
  {
    if |parts| > 1 {
      var head := parts[0] + sep;
      var rest := Join(parts[1..], sep);
      assert Join(parts, sep) == head + rest;
      if i == 0 {
        assert (head + rest)[..|parts[0]|] == parts[0];
      } else {
        JoinPart(parts[1..], sep, i - 1);
        var o := Offset(parts[1..], sep, i - 1);
        assert parts[1..][i - 1] == parts[i];
        SliceOfConcat(head, rest, o, o + |parts[i]|);
      }
    }
  }

  /** Between part `i` and part `i + 1` stands exactly one separator. */
  lemma {:induction false} JoinSeparator(parts: seq<string>, sep: string, i: nat)
    requires i + 1 < |parts|
    ensures Offset(parts, sep, i) + |parts[i]| + |sep| <= |Join(parts, sep)|
    ensures Join(parts, sep)[Offset(parts, sep, i) + |parts[i]|..Offset(parts, sep, i) + |parts[i]| + |sep|] == sep
  {
    var head := parts[0] + sep;
    var rest := Join(parts[1..], sep);
    assert Join(parts, sep) == head + rest;
    if i == 0 {
      assert (head + rest)[|parts[0]|..|parts[0]| + |sep|] == sep;
    } else {
      JoinSeparator(parts[1..], sep, i - 1);
      var o := Offset(parts[1..], sep, i - 1);
      assert parts[1..][i - 1] == parts[i];
      SliceOfConcat(head, rest, o + |parts[i]|, o + |parts[i]| + |sep|);
    }
  }

  /** The last part ends the joined text. */
  lemma {:induction false} JoinEnd(parts: seq<string>, sep: string)
    requires parts != []
    ensures Offset(parts, sep, |parts| - 1) + |parts[|parts| - 1]| == |Join(parts, sep)|
  {
    if |parts| > 1 {
      JoinEnd(parts[1..], sep);
    }
  }

  /** `f"{symbol} (€{amount_invested})"`, the amount rendered by `show`. */
  function EntryText(inv: Investment, show: real -> string): (t: string)
    ensures |inv.symbol| < |t| && t[..|inv.symbol|] == inv.symbol
    ensures t[|inv.symbol|..] == " (€" + show(inv.amountInvested) + ")"
  {
    inv.symbol + " (€" + show(inv.amountInvested) + ")"
  }

  /** One entry per investment row, in ledger order. */
  function Entries(investments: seq<Investment>, show: real -> string): (es: seq<string>)
    ensures |es| == |investments|
    ensures forall i :: 0 <= i < |es| ==> es[i] == EntryText(investments[i], show)
  {
    seq(|investments|, i requires 0 <= i < |investments| => EntryText(investments[i], show))
  }

  /** The investment summary: all investment rows, priced or not, joined with ", ". */
  function InvestmentSummary(investments: seq<Investment>, show: real -> string): string {
    Join(Entries(investments, show), ", ")
  }

  /** Every investment row, priced or not, appears verbatim in the summary at its offset. */
  lemma SummaryListsEveryInvestment(investments: seq<Investment>, show: real -> string, i: nat)
    requires i < |investments|
    ensures var es := Entries(investments, show);
      Offset(es, ", ", i) + |es[i]| <= |InvestmentSummary(investments, show)|
      && InvestmentSummary(investments, show)[Offset(es, ", ", i)..Offset(es, ", ", i) + |es[i]|]
         == EntryText(investments[i], show)
  {
    JoinPart(Entries(investments, show), ", ", i);
  }

  /** Entries come in ledger order: an earlier entry and its separator end before a later entry starts. */
  lemma SummaryInLedgerOrder(investments: seq<Investment>, show: real -> string, i: nat, j: nat)
    requires i < j < |investments|
    ensures var es := Entries(investments, show);
      Offset(es, ", ", i) + |es[i]| + 2 <= Offset(es, ", ", j)
  {
    OffsetOrder(Entries(investments, show), ", ", i, j);
  }

  /** The figures of one week, as the feedback prompt states them. */
  datatype FeedbackContext = FeedbackContext(
    totalSpent: real,
    savings: real,
    byCategory: map<Category, real>,
    investmentSummary: string,
    totalPortfolioValue: real)

  /**
   * The feedback step: nothing is asked for when the weekly view is empty;
   * otherwise the context is built from the weekly view's breakdown and the
   * summary of all investments.
   */
  function FeedbackRequest(weekly: seq<Expense>, totalSpent: real, savings: real,
                           investments: seq<Investment>, totalValue: real,
                           show: real -> string): (r: Option<FeedbackContext>)
    ensures r.Some? <==> weekly != []
    ensures r.Some? ==> r.value.byCategory.Keys == CategoriesOf(weekly)
    ensures r.Some? ==> SumValues(r.value.byCategory) == Total(weekly)
    ensures r.Some? ==> r.value.investmentSummary == InvestmentSummary(investments, show)
    ensures r.Some? ==> r.value.totalSpent == totalSpent
    ensures r.Some? ==> r.value.savings == savings
    ensures r.Some? ==> r.value.totalPortfolioValue == totalValue
  {
    if weekly == [] then None
    else
      ByCategorySum(weekly);
      Some(FeedbackContext(totalSpent, savings, ByCategory(weekly), InvestmentSummary(investments, show), totalValue))
  }

  /** The feedback context's breakdown gives each category the total of that category's weekly rows. */
  lemma FeedbackBreakdown(weekly: seq<Expense>, totalSpent: real, savings: real,
                          investments: seq<Investment>, totalValue: real,
                          show: real -> string, c: Category)
    requires weekly != []
    ensures var r := FeedbackRequest(weekly, totalSpent, savings, investments, totalValue, show);
      r.Some? && Get(r.value.byCategory, c) == Total(OfCategory(weekly, c))
  {
    ByCategoryValue(weekly, c);
  }
}
