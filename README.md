# Personal finance tracker: ledger and derived metrics

This project models the core of the personal finance dashboard in `main.py`. The dashboard keeps two ledgers:

- An **expense ledger** of `(date, category, amount)` rows.
- An **investment ledger** of `(symbol, amount_invested)` rows.

A form submission appends one row to a ledger. Each pass of the script then derives these values from the ledgers:

- The **weekly view**: expenses dated on or after `today - 7`.
- The weekly **total spent**.
- The **remaining budget** and **savings**, both `BUDGET - total_spent`.
- The **category breakdown** of the weekly view.
- The **portfolio tracker** loop: it quotes each symbol, skips a symbol whose quote fails, and sums the current values of the rest.
- The **feedback context**: the figures, the breakdown and a comma-joined summary of every investment. It is built only when the weekly view is non-empty.

Modules, one per component of the script:

- `Records` (records.dfy): row types, the `BUDGET` constant, the categories and upper-casing of symbols.
- `Weekly` (weekly.dfy): the weekly filter, the total, the remaining budget and savings.
- `Breakdown` (breakdown.dfy): the group-by-category sum.
- `Portfolio` (portfolio.dfy): the valuation loop, written as a method against the function `PricedRows`.
- `Feedback` (feedback.dfy): the `", ".join` summary and the non-empty guard.
- `Dashboard` (dashboard.dfy): class `Session`. It holds the two ledgers that the script rebinds, the two form handlers and one rendering pass.
- `Positions` (positions.dfy) and `Wrappers` (wrappers.dfy): helpers.

Modelling choices:

- Dates are day numbers (`int`).
- Amounts and prices are exact `real`s. The source uses floats, but only adds and subtracts them.
- The clock (`today`) is a parameter of `Refresh` and of the weekly functions.
- The quote provider is a parameter `quote: string -> Option<real>`. `None` stands for any exception raised by the quote call.
- The rendering of a float inside the summary text is a parameter `show: real -> string`.
- A failed load of a ledger is the caller passing an empty sequence to the `Session` constructor.

Two facts about the valuation loop:

- A failed quote yields no row: the loop skips to the next investment (`continue`, main.py:101-102).
- The current value is the price itself (main.py:93). No share count is computed, so the portfolio total is the sum of the fetched prices.

## Model

| member | source | states |
|---|---|---|
| Records.UpperChar | main.py:78 | an ASCII lower-case letter becomes its capital (code point minus 32); every other character is unchanged (ASCII only); the result is never an ASCII lower-case letter |
| Records.Upper | main.py:78 | `symbol.upper()` keeps the length, leaves no lower-case ASCII letter, capitalises each lower-case letter and keeps every other character |
| Records.UpperIdempotent | main.py:78 | upper-casing an already upper-cased symbol changes nothing |
| Weekly.WeeklyView | main.py:57-59 | the weekly view is no longer than the ledger, and every row in it is dated on or after `today - 7` |
| Weekly.WeeklyMembership | main.py:57-59 | a row is in the weekly view if and only if it is in the ledger and dated on or after `today - 7` |
| Weekly.WeeklyMultiplicity | main.py:59 | the weekly view holds every copy of an in-window row the ledger holds, and no copy of an out-of-window row |
| Weekly.WeeklySelection | main.py:59 | the weekly view is the order-preserving subsequence of the ledger taken at exactly the in-window positions: an increasing list of positions picks its rows, and a position is listed iff its row is in the window |
| Weekly.WindowBoundary | main.py:58-59 | the lower bound is inclusive: a row dated `today - 7` is kept, one dated `today - 8` is dropped |
| Weekly.WeeklyViewConcat | main.py:51-59 | the weekly view of a concatenated ledger is the concatenation of the weekly views |
| Weekly.Total | main.py:60 | the total of rows whose amounts are all non-negative is non-negative |
| Weekly.TotalConcat | main.py:60 | the total of a concatenation is the sum of the totals |
| Weekly.AppendTotal | main.py:47-60 | appending an expense raises the weekly total by exactly its amount when it is in the window and leaves it unchanged otherwise; with a non-negative amount the total never decreases |
| Weekly.RemainingBudget | main.py:61-65 | the remaining budget is negative exactly when spending exceeds `BUDGET`, and zero exactly when it equals `BUDGET` (no floor) |
| Weekly.Savings | main.py:61-65 | savings equal the remaining budget for every total spent |
| Weekly.SavingsUnclamped | main.py:61 | a week with 1200 spent has savings of -200: savings are not clamped at zero |
| Breakdown.ByCategory | main.py:112 | the breakdown's keys are exactly the categories occurring in the rows; absent categories get no key |
| Breakdown.ByCategoryValue | main.py:112 | each category's value is the total of that category's rows |
| Breakdown.ByCategorySum | main.py:112 | the breakdown's values add up to the total of the rows |
| Breakdown.ByCategoryNonNegative | main.py:112 | with non-negative amounts every value in the breakdown is non-negative |
| Portfolio.RowOf | main.py:93-99 | a tracker row carries the investment's symbol and invested amount, the quoted price, and a current value equal to that price |
| Portfolio.QuotedRow | main.py:91-102 | an investment contributes one row when its quote succeeds and none when it fails |
| Portfolio.Valuate | main.py:85-102 | the loop's rows are `PricedRows` of the investments, and its total is the sum of the fetched prices with a failed fetch contributing nothing |
| Portfolio.PricedRowsConcat | main.py:87-102 | the rows for a concatenation of ledgers are the concatenation of their rows; each investment is priced independently |
| Portfolio.PricedSelection | main.py:87-102 | the rows are built from the successfully quoted investments, in ledger order: an increasing list of positions picks them, and a position is listed iff its quote succeeds |
| Portfolio.FailureIsolation | main.py:101-102 | an investment whose quote fails removes its own row and nothing else; rows and total are as if it were absent |
| Portfolio.TotalIsSumOfRows | main.py:100-105 | the portfolio total equals the sum of the current values of exactly the rows shown |
| Portfolio.AllFailed | main.py:85-103 | with no investments, or when every quote fails, there are no rows and the total is 0 |
| Feedback.JoinPart | main.py:113-116 | the joined text holds each part verbatim at its offset |
| Feedback.JoinSeparator | main.py:113 | exactly one separator stands between consecutive parts |
| Feedback.JoinEnd | main.py:113-116 | the last part ends the joined text |
| Feedback.OffsetOrder | main.py:113-116 | earlier parts end, followed by a separator, before later parts start |
| Feedback.EntryText | main.py:114 | an investment's entry is its symbol followed by " (€", the rendered invested amount and ")" |
| Feedback.Entries | main.py:113-116 | there is one entry per investment row, in ledger order |
| Feedback.SummaryListsEveryInvestment | main.py:113-116 | every investment, priced or not and including the last one, appears verbatim in the summary at its offset |
| Feedback.SummaryInLedgerOrder | main.py:113-116 | an earlier investment's entry and the ", " after it end before a later investment's entry starts |
| Feedback.FeedbackRequest | main.py:110-139 | a feedback context exists iff the weekly view is non-empty; it carries the given total spent, savings and portfolio value; its breakdown has keys the weekly categories and values summing to the weekly total; its summary covers every investment |
| Feedback.FeedbackBreakdown | main.py:112 | in the feedback context, each category's value is the total of that category's weekly rows |
| Dashboard.Session.constructor | main.py:21-36 | the session starts with the loaded ledgers |
| Dashboard.Session.AddExpense | main.py:49-51 | the ledger grows by exactly one row at the end, the submitted one; earlier rows and the investment ledger are unchanged |
| Dashboard.Session.AddInvestment | main.py:77-79 | an empty symbol changes nothing; otherwise exactly one row `(Upper(symbol), amount)` is appended and earlier rows are unchanged |
| Dashboard.Session.Refresh | main.py:57-139 | one pass gives the weekly view, its total, remaining budget equal to savings equal to `BUDGET - total`, the priced rows and their total, and feedback exactly when the week is non-empty, carrying the week's total spent, savings and per-category totals, the summary of all investments and the portfolio total |

## Left out

- Streamlit page layout, forms, widgets, metrics, spinner and tables (main.py:17-18, 39-48, 63-66, 69-76, 84, 103-105, 138-142): presentation only. The amount widget's `min_value=0.0` is kept as the `NonNegative` hypothesis of the lemmas that need it.
- Reading and writing the CSV files (main.py:21-33, 52, 80): file I/O. A failed load is the caller passing an empty ledger to the constructor.
- Records.Upper, Records.UpperChar: model ASCII upper-casing only; a non-ASCII lower-case letter (such as `é`) is left unchanged, because Python's `str.upper` follows full Unicode case mapping, which can change the length (for example `ß` becomes `SS`).
- The quote call (main.py:90-92): a network client. It is the `quote` parameter. Being a function, it answers the same way for repeated symbols within one pass.
- The chat-completion call and its fallback text (main.py:126-135): a foreign network API. The model stops at the context handed to it (`FeedbackRequest`).
- The exact wording of the prompt (main.py:118-124) and the rendering of floats inside the summary: formatting. Amounts in the summary are rendered by the `show` parameter.
- The order of the keys in the printed category dictionary: a `map` has no order.
- Rounding to two decimals and the `€` display formatting (main.py:64-66, 97-98, 105): display only. The model uses exact arithmetic, so float rounding error in the sums is not modelled.
- `SAVINGS_GOAL` (main.py:9) and the API key (main.py:10): display text and configuration.
- The `float(row['amount_invested'])` conversion (main.py:89): the model's rows are already typed, so a malformed loaded value that would raise is not modelled.
