/**
 * The two kinds of ledger rows and the configuration constants of the
 * dashboard. Dates are day numbers, money is exact (`real`).
 */
module Records {

  /** The weekly budget (main.py, `BUDGET`). */
  const Budget: real := 1000.0

  /** Length of the weekly window in days: `today - timedelta(days=7)`. */
  const WindowDays: int := 7

  /** The fixed choices of the expense form's category select box. */
  datatype Category = Food | Rent | Gym | Fun | Other

  /** One expense row: columns `date, category, amount`. */
  datatype Expense = Expense(date: int, category: Category, amount: real)

  /** One investment row: columns `symbol, amount_invested`. */
  datatype Investment = Investment(symbol: string, amountInvested: real)

  /** Every amount in a ledger is non-negative, as the amount widget enforces. */
  predicate NonNegative(expenses: seq<Expense>) {
    forall i :: 0 <= i < |expenses| ==> expenses[i].amount >= 0.0
  }

  predicate IsLowerAscii(c: char) {
    'a' <= c <= 'z'
  }

  /** Upper-casing of one character, restricted to ASCII letters. */
  function UpperChar(c: char): (u: char)
    ensures !IsLowerAscii(u)
    ensures IsLowerAscii(c) ==> 'A' <= u <= 'Z' && u as int + 32 == c as int
    ensures !IsLowerAscii(c) ==> u == c
  {
    if IsLowerAscii(c) then (c as int - 32) as char else c
  }

  /** `str.upper()`: the same string with every lower-case letter capitalised. */
  function Upper(s: string): (r: string)
    ensures |r| == |s|
    ensures forall i :: 0 <= i < |r| ==> !IsLowerAscii(r[i])
    ensures forall i :: 0 <= i < |s| && !IsLowerAscii(s[i]) ==> r[i] == s[i]
    ensures forall i :: 0 <= i < |s| && IsLowerAscii(s[i]) ==> r[i] as int + 32 == s[i] as int
  {
    seq(|s|, i requires 0 <= i < |s| => UpperChar(s[i]))
  }

  /** Upper-casing twice is upper-casing once. */
  lemma UpperIdempotent(s: string)
    ensures Upper(Upper(s)) == Upper(s)
  {
  }
}
