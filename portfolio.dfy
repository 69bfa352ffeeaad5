/**
 * The investment tracker: one quote per investment row, in ledger order; a
 * row whose quote fails is skipped and the others are unaffected.
 */
module Portfolio {
  import opened Wrappers
  import opened Records
  import opened Positions

  /**
   * The latest closing price of a ticker, or None when the quote call raises
   * (unknown symbol, network error, empty price history).
   */
  type Quote = string -> Option<real>

  /** One row of the tracker table. */
  datatype Holding = Holding(symbol: string, invested: real, price: real, currentValue: real)

  /** The table row for an investment at a price; the current value is the price itself. */
  function RowOf(inv: Investment, price: real): (h: Holding)
    ensures h.symbol == inv.symbol && h.invested == inv.amountInvested
    ensures h.price == price && h.currentValue == price
  {
    Holding(inv.symbol, inv.amountInvested, price, price)
  }

  /** The rows the loop appends: one per investment whose quote succeeds, in order. */
  function PricedRows(investments: seq<Investment>, quote: Quote): seq<Holding> {
    if investments == [] then []
    else
      QuotedRow(investments[0], quote) + PricedRows(investments[1..], quote)
  }

  /** The sum of the current values of some rows. */
  function SumCurrent(rows: seq<Holding>): real {
    if rows == [] then 0.0 else rows[0].currentValue + SumCurrent(rows[1..])
  }

  /** Reference total: every investment's fetched price, a failed fetch contributing nothing. */
  function FetchedTotal(investments: seq<Investment>, quote: Quote): real {
    if investments == [] then 0.0
    else quote(investments[0].symbol).GetOr(0.0) + FetchedTotal(investments[1..], quote)
  }

  /**
   * The loop over `investments.iterrows()`: asks for each symbol's price,
   * skips the row on failure, otherwise appends its row and adds its current
   * value to the running total.
   */
  method Valuate(investments: seq<Investment>, quote: Quote) returns (rows: seq<Holding>, totalValue: real)
    ensures rows == PricedRows(investments, quote)
    ensures totalValue == FetchedTotal(investments, quote)
  {
    rows := [];
    totalValue := 0.0;
    for i := 0 to |investments|
      invariant rows == PricedRows(investments[..i], quote)
      invariant totalValue == FetchedTotal(investments[..i], quote)
    {
      var inv := investments[i];
      assert investments[..i + 1] == investments[..i] + [inv];
      PricedRowsConcat(investments[..i], [inv], quote);
      FetchedTotalConcat(investments[..i], [inv], quote);
      var price := quote(inv.symbol);
      if price.None? {
        continue;
      }
      var currentValue := price.value;
      rows := rows + [RowOf(inv, price.value)];
      totalValue := totalValue + currentValue;
    }
    assert investments[..|investments|] == investments;
  }

  lemma {:induction false} PricedRowsConcat(a: seq<Investment>, b: seq<Investment>, quote: Quote)
    ensures PricedRows(a + b, quote) == PricedRows(a, quote) + PricedRows(b, quote)
  {
    if a == [] {
      assert a + b == b;
    } else {
      assert (a + b)[0] == a[0] && (a + b)[1..] == a[1..] + b;
      PricedRowsConcat(a[1..], b, quote);
    }
  }

  lemma {:induction false} FetchedTotalConcat(a: seq<Investment>, b: seq<Investment>, quote: Quote)
    ensures FetchedTotal(a + b, quote) == FetchedTotal(a, quote) + FetchedTotal(b, quote)
  {
    if a == [] {
      assert a + b == b;
    } else {
      assert (a + b)[0] == a[0] && (a + b)[1..] == a[1..] + b;
      FetchedTotalConcat(a[1..], b, quote);
    }
  }

  lemma {:induction false} SumCurrentConcat(a: seq<Holding>, b: seq<Holding>)
    ensures SumCurrent(a + b) == SumCurrent(a) + SumCurrent(b)
  {
    if a == [] {
      assert a + b == b;
    } else {
      assert (a + b)[0] == a[0] && (a + b)[1..] == a[1..] + b;
      SumCurrentConcat(a[1..], b);
    }
  }

  /** The portfolio total is the sum of the current values of exactly the rows shown. */
  lemma {:induction false} TotalIsSumOfRows(investments: seq<Investment>, quote: Quote)
    ensures FetchedTotal(investments, quote) == SumCurrent(PricedRows(investments, quote))
  {
    if investments != [] {
      var head := QuotedRow(investments[0], quote);
      TotalIsSumOfRows(investments[1..], quote);
      SumCurrentConcat(head, PricedRows(investments[1..], quote));
    }
  }

  /**
   * The rows are the successfully quoted investments, in ledger order:
   * `idx` lists their positions, increasing, and row i is built from the
   * investment at `idx[i]` and its quoted price.
   */
  lemma {:induction false} PricedSelection(investments: seq<Investment>, quote: Quote) returns (idx: seq<nat>)
    ensures |idx| == |PricedRows(investments, quote)|
    ensures forall i :: 0 <= i < |idx| ==> PricedAt(investments, quote, idx[i], PricedRows(investments, quote)[i])
    ensures Increasing(idx)
    ensures forall k :: 0 <= k < |investments| ==> (k in idx <==> quote(investments[k].symbol).Some?)
  {
    if investments == [] {
      idx := [];
    } else {
      var rest := PricedSelection(investments[1..], quote);
      var keep := quote(investments[0].symbol).Some?;
      idx := Extend(keep, rest);
      ExtendProperties(keep, rest, |investments|);
      PricedStepRows(investments, quote, rest);
      PricedStepPositions(investments, quote, rest);
    }
  }

  /** The positions of the tail's rows, extended to the whole ledger, give the whole ledger's rows. */
  lemma {:induction false} PricedStepRows(investments: seq<Investment>, quote: Quote, rest: seq<nat>)
    requires investments != []
    requires |rest| == |PricedRows(investments[1..], quote)|
    requires forall i :: 0 <= i < |rest| ==> PricedAt(investments[1..], quote, rest[i], PricedRows(investments[1..], quote)[i])
    ensures |Extend(quote(investments[0].symbol).Some?, rest)| == |PricedRows(investments, quote)|
    ensures forall i :: 0 <= i < |rest| + Skip(quote(investments[0].symbol).Some?) ==>
      PricedAt(investments, quote, Extend(quote(investments[0].symbol).Some?, rest)[i], PricedRows(investments, quote)[i])
  {
  }

  /** The extended positions are exactly the whole ledger's successfully quoted positions. */
  lemma {:induction false} PricedStepPositions(investments: seq<Investment>, quote: Quote, rest: seq<nat>)
    requires investments != []
    requires Increasing(rest)
    requires forall k :: 0 <= k < |investments[1..]| ==> (k in rest <==> quote(investments[1..][k].symbol).Some?)
    ensures forall k :: 0 <= k < |investments| ==>
      (k in Extend(quote(investments[0].symbol).Some?, rest) <==> quote(investments[k].symbol).Some?)
  {
    var keep := quote(investments[0].symbol).Some?;
    ExtendProperties(keep, rest, |investments|);
    forall k | 1 <= k < |investments|
      ensures k in Extend(keep, rest) <==> quote(investments[k].symbol).Some?
    {
      assert investments[k] == investments[1..][k - 1];
    }
  }

  /** The row an investment contributes: its row at the quoted price, or none on failure. */
  function QuotedRow(inv: Investment, quote: Quote): (r: seq<Holding>)
    ensures |r| <= 1
    ensures r != [] <==> quote(inv.symbol).Some?
    ensures r != [] ==> r[0] == RowOf(inv, quote(inv.symbol).value)
  {
    match quote(inv.symbol)
    case Some(p) => [RowOf(inv, p)]
    case None => []
  }

  /** Row `h` is the row of the investment at position `k`, whose quote succeeded. */
  predicate PricedAt(investments: seq<Investment>, quote: Quote, k: nat, h: Holding) {
    k < |investments| && quote(investments[k].symbol).Some?
    && h == RowOf(investments[k], quote(investments[k].symbol).value)
  }

  /** A failed quote for one investment removes only that investment's row. */
  lemma {:induction false} FailureIsolation(before: seq<Investment>, failed: Investment, after: seq<Investment>, quote: Quote)
    requires quote(failed.symbol).None?
    ensures PricedRows(before + [failed] + after, quote) == PricedRows(before + after, quote)
    ensures FetchedTotal(before + [failed] + after, quote) == FetchedTotal(before + after, quote)
  {
    assert PricedRows([failed], quote) == [] by {
      assert [failed][1..] == [];
    }
    assert FetchedTotal([failed], quote) == 0.0 by {
      assert [failed][1..] == [];
    }
    PricedRowsConcat(before + [failed], after, quote);
    PricedRowsConcat(before, [failed], quote);
    assert PricedRows(before + [failed], quote) == PricedRows(before, quote);
    PricedRowsConcat(before, after, quote);
    FetchedTotalConcat(before + [failed], after, quote);
    FetchedTotalConcat(before, [failed], quote);
    FetchedTotalConcat(before, after, quote);
  }

  /** When every quote fails (or there are no investments) nothing is shown and the total is 0. */
  lemma {:induction false} AllFailed(investments: seq<Investment>, quote: Quote)
    requires forall i :: 0 <= i < |investments| ==> quote(investments[i].symbol).None?
    ensures PricedRows(investments, quote) == []
    ensures FetchedTotal(investments, quote) == 0.0
  {
    if investments != [] {
      AllFailed(investments[1..], quote);
    }
  }
}
