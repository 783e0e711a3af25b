# tastyworks-pnl: the FIFO ledger and the per-row step, in Dafny

`tw-pnl.py` reads the transaction history that the Tastyworks broker exports
and computes the figures a German tax return needs:
- realized gains and losses of stocks, and everything else together;
- option term losses;
- dividends and withholding tax, interest, fees and withdrawals;
- the currency gains on the USD cash itself.

Every amount is converted to EUR with the Bundesbank reference rate of its
day. Open positions are kept per asset as a FIFO queue of lots. Each row of
the history (oldest first) is checked against closed vocabularies, then
booked: it always moves USD cash, and then it is either a money movement or
a trade matched against the lots of its asset.
`tastytradehelper.py` adds a predicate telling whether a symbol is a
cash-settled index product.

The model:

| file | module | what it holds |
|---|---|---|
| `outcomes.dfy` | `Outcomes` | optional cells, NaN-or-number cells, the named failures, `Result` |
| `lots.dfy` | `Lots` | `fifo_add` as values: `Match` (the matching loop as recursion), `FifoAdd`, `IsLong`, `Sign`, and the ledger's properties |
| `ledger.dfy` | `Ledger` | the ledger as the program keeps it: class `FifoLedger` with the mutable dictionary, `Add` and the imperative loop `MatchLots`, proved equal to `FifoAdd` |
| `rates.dfy` | `Rates` | the walk-back of `get_eurusd` over empty rate cells, as a function and as the program's loop |
| `validation.dfy` | `Validation` | `check_tcode`, `check_param`, `check_trade` (with `math.isclose`), `is_stock` |
| `asset_keys.dfy` | `AssetKeys` | the option asset key `"SYM C/P strike yy-mm-dd"` and the text of its strike |
| `processing.dfy` | `Processing` | rows, totals and the carried state; `Step`, one iteration of `check`; `Run` over all rows; `Finish` |
| `step_properties.dfy` | `StepProperties` | what a step and a whole run guarantee |
| `check_loop.dfy` | `CheckLoop` | the loop of `check` as the program runs it, on one mutable `FifoLedger`, proved equal to `Run` and `Finish` |
| `cash_settled.dfy` | `CashSettled` | `is_symbol_cash_settled` |

Prices, amounts and rates are exact `real`s. Quantities are `int`.
A failing check, which raises in the program and ends the run, is an `Err`
naming the check. The command-line switches `--usd` and
`--assume-individual-stock` become the fields `convertCurrency` and
`assumeStock` of `Env`. The rate table is `Env.rates`: a map from day number
to a cell that may be NaN. Each row carries its day number beside its
timestamp.

## Model

| member | source | states |
|---|---|---|
| Lots.Sign | tw-pnl.py:139-142 | the result is 1 or -1, and it is 1 exactly when the argument is not negative (zero counts as long) |
| Lots.IsOption | tw-pnl.py:158 | no contract of its own: it is the length test of line 158; `AssetKeys.OptionKeyIsOption` shows every option key passes it, and `Lots.FifoAdd` states the term-loss rule in its terms |
| Lots.LossOf | tw-pnl.py:177-202 | the term loss of a closed portion is never negative: a positive loss is booked whole, and anything else books nothing |
| Lots.Closing | tw-pnl.py:173-202 | closing a matched portion never books a negative term loss; only an option sell books one, namely the loss of the portion (`LossOf` of minus its gain); an option sell and a stock realize the price difference of the units held; an option buy realizes only its closing price |
| Lots.Match | tw-pnl.py:163-212 | on an empty queue or one with the incoming direction, the quantity is appended as a lot, with no term loss; the P&L is the premium for a sold option and 0 otherwise; the term loss is never negative and is 0 for non-options |
| Lots.FifoAdd | tw-pnl.py:148-216 | quantity 0 returns (0, 0) and leaves the map alone; no other asset's queue changes; the asset's net quantity grows by exactly the quantity; a well-formed ledger stays well formed (nonempty queues of nonzero lots of one sign); an appended lot goes to the tail with the P&L of the append rule; the term loss is never negative and is 0 for non-options |
| Lots.FifoAddDropsEmptied | tw-pnl.py:160-190 | a booking never leaves an empty queue behind: the asset afterwards has open lots or no entry at all |
| Lots.FifoAddIsMatch | tw-pnl.py:148-216 | for a nonzero quantity, the asset's new queue, the P&L and the term loss are those of one matching pass over its old queue, so every `Match*` lemma applies to `fifo_add` |
| Lots.IsLong | tw-pnl.py:220-221 | fails exactly when the asset has no lots (the KeyError); on a well-formed ledger it answers true exactly when the net position is long, and false exactly when it is short |
| Lots.MatchConserves | tw-pnl.py:163-209 | the new queue holds the old net position plus the incoming quantity |
| Lots.MatchKeepsQueueOk | tw-pnl.py:168-169 | a queue without zero lots and with one direction keeps both properties |
| Lots.MatchIsFifo | tw-pnl.py:173-207 | strict FIFO: the k oldest lots whose total stays below the quantity are consumed whole; lot k is reduced by the rest and dropped at zero, keeping its direction; all later lots are kept unchanged; a quantity larger than the whole queue leaves its remainder as the only lot |
| Lots.SplitPoint | tw-pnl.py:163-207 | every well-formed queue met by an opposite quantity has a FIFO split point: k lots whose total stays below the quantity while k + 1 do not (or the whole queue), which is what `MatchIsFifo` and `MatchRealizesFifo` take |
| Lots.SameSignSum | tw-pnl.py:220-221 | in a well-formed queue the net position is nonzero and has the direction of the oldest lot, so the head lot tells long from short |
| Lots.MatchRealizes | tw-pnl.py:177-198 | for a non-option asset, realized P&L = unrealized P&L of the queue before minus after, at the trade price |
| Lots.MatchRealizesFifo | tw-pnl.py:173-207 | for a non-option asset, realized P&L is the full gain of every lot consumed whole plus the gain of the portion taken from the lot that absorbs the rest |
| Lots.OptionBuyPaysClose | tw-pnl.py:174-175 | buying an option against short lots realizes minus the closing price of the matched size only, and no term loss |
| Lots.OptionSellIncome | tw-pnl.py:173-212 | selling an option realizes the stock-like P&L of the matched long lots, plus the premium of whatever part opens a short position |
| Lots.Losses | tw-pnl.py:177-202 | the lot-by-lot term losses of closing lots by an option sell are never negative |
| Lots.OptionSellLosses | tw-pnl.py:173-207 | the term loss of an option sell is, lot by lot, the loss of every long lot consumed whole plus the loss of the part taken from the lot that absorbs the rest |
| Ledger.FifoLedger.Add | tw-pnl.py:148-216 | the in-place update of the dictionary: new dictionary, P&L and term loss equal `FifoAdd`; a valid ledger stays valid; after a nonzero booking the asset has lots or no entry, so the deque created at line 161 is never left empty |
| Ledger.MatchLots | tw-pnl.py:163-212 | the `while` loop over the deque (popleft, reducing the head lot, appending) yields exactly the queue, P&L and term loss of `Match` |
| Rates.RateOn | tw-pnl.py:56-63 | a result is found only for a day in the table; the only failure is a missing day |
| Rates.GetEurUsd | tw-pnl.py:56-63 | the loop that steps back one day per empty cell returns exactly `RateOn` |
| Rates.RateOnFound | tw-pnl.py:56-63 | if every day after `found` up to `day` has an empty cell and `found` has rate v, the walk returns v |
| Rates.RateOnMissing | tw-pnl.py:56-63 | if the walk reaches a day missing from the table, it fails |
| Rates.RateOnSource | tw-pnl.py:56-63 | a rate that is found is the cell of a day at or before `day` reached through empty cells only |
| Validation.CheckTcode | tw-pnl.py:79-98 | passes exactly when the code and subcode are in the vocabulary and the description is the one required for Balance Adjustment, Assignment and Exercise; reports an unknown code or subcode exactly when that is the case |
| Validation.CheckParam | tw-pnl.py:100-106 | passes exactly when buy/sell, open/close and call/put are each empty or one of their words ("nan" included); reports a bad buy/sell cell exactly when it is bad |
| Validation.IsClose | tw-pnl.py:110-111 | a NaN is close to nothing, and every number is close to itself; `Validation.IsCloseSymmetric` and `Validation.IsCloseWithinTolerance` give the tolerances |
| Validation.CheckTrade | tw-pnl.py:108-117 | other trades pass exactly when the check amount is close to the amount; expiration, assignment and exercise pass exactly when both amounts are zero or missing |
| Validation.IsCloseSymmetric | tw-pnl.py:110-111 | `math.isclose` does not depend on the order of its arguments |
| Validation.IsCloseWithinTolerance | tw-pnl.py:110-111 | amounts within 0.00001 are close; amounts farther apart than both tolerances allow are not |
| Validation.CheckTradeExact | tw-pnl.py:108-112 | an exact amount passes; a missing amount fails |
| Validation.IsStock | tw-pnl.py:121-137 | every listed ETF is not a stock, M, AAPL and TSLA are stocks, and any other symbol is a stock under the override flag and an error without it |
| Validation.TablesDisjoint | tw-pnl.py:123-130 | no known stock is in the ETF list |
| Validation.AssumeStockOnlyWidens | tw-pnl.py:131-137 | the override flag never changes an answer given without it, and with it no symbol is rejected |
| AssetKeys.Trunc | tw-pnl.py:309 | Python's `int()` of a number: truncation toward zero |
| AssetKeys.NatText | tw-pnl.py:392-394 | the text is a nonempty string of decimal digits, starting with 0 only for 0 |
| AssetKeys.NatTextValue | tw-pnl.py:392-394 | the digits spell the number back |
| AssetKeys.IntText | tw-pnl.py:392-394 | `str()` of an integer: nonempty, with a leading minus sign exactly for a negative number |
| AssetKeys.IntTextValue | tw-pnl.py:392-394 | the text reads back as the integer: an optional minus sign, then digits without a leading zero that spell its magnitude |
| AssetKeys.DecimalText | tw-pnl.py:392-394 | a strike that is not whole keeps its decimal point, and its minus sign exactly when negative |
| AssetKeys.StrikeText | tw-pnl.py:392-393 | a whole strike is written as an integer, without a decimal point |
| AssetKeys.OptionKey | tw-pnl.py:394 | the key is as long as its fields plus the two spaces, and a space follows the symbol; `AssetKeys.OptionKeyLayout` places every field |
| AssetKeys.OptionKeyLayout | tw-pnl.py:394 | the key starts with the symbol, then a space, the call/put marker and the strike, and ends with a space and the expiry |
| AssetKeys.OptionKeyIsOption | tw-pnl.py:158 | an option key with a `yy-mm-dd` expiry is longer than ten characters and is not the cash key, so `fifo_add` applies the option rules to it |
| AssetKeys.WholeStrikes | tw-pnl.py:392-394 | strikes 150.0 and 5.0 are written "150" and "5" |
| AssetKeys.HalfStrike | tw-pnl.py:392-394 | strike 152.5 is written "152.5" |
| Processing.Take | tw-pnl.py:276-277 | `s[:n]` is the first n characters, or all of a shorter string |
| Processing.Drop | tw-pnl.py:274 | `s[n:]` is what follows `s[:n]` |
| Processing.EnterYear | tw-pnl.py:278-287 | the row's year becomes current; leaving a year appends its summary (year, accumulators, account total, open lots) and restarts the accumulators; the account total runs on |
| Processing.CheckAccount | tw-pnl.py:290-293 | the first row fixes the account reference; a row passes exactly when its reference is present and equal to the fixed one |
| Processing.Admit | tw-pnl.py:274-293 | a row is admitted exactly when its timestamp ends in ":00", its code and parameters pass their checks, and its account reference passes |
| Processing.Usd2Eur | tw-pnl.py:72-77 | converting keeps the sign of an amount under a positive rate, the converted amount times the rate is the USD amount, and without conversion it is the identity |
| Processing.CashUnits | tw-pnl.py:300-301 | the net cash of a row in 1/10000 USD, truncated toward zero as `int()` does: within one unit of the exact value, and, unless it truncates to 0, positive exactly when the amount exceeds the fees |
| Processing.Accrue | tw-pnl.py:295-302 | the account total grows by the net amount; the fees in EUR and the USD currency gains are added to their accumulators; nothing else changes |
| Processing.ParseQuantity | tw-pnl.py:306-311 | an empty quantity is 1; a fractional one fails; a whole one is kept |
| Processing.ParsePrice | tw-pnl.py:313-316 | an empty price is 0; a negative one fails; the result is never negative |
| Processing.BookMoneyMovement | tw-pnl.py:326-386 | fails exactly when a row other than a transfer carries fees, or when a fee or a withdrawal does not take money out; a transfer is labelled "transfer", keeps its description, has an empty P&L cell and changes no accumulator; credit interest goes to interest received when positive and to interest paid otherwise; deposits, credit interest and dividends with another description go to dividends ("dividends for" the symbol) when positive and to withholding tax ("withholding tax for" the symbol) otherwise; balance adjustments and fees go to fee adjustments and total fees; withdrawals go to withdrawals ("dividends paid for" the symbol); any other subcode changes no accumulator; every other P&L cell is the EUR amount, and no trade accumulator changes |
| Processing.TradeKey | tw-pnl.py:388-397 | an option is booked under its option key at 100 times the price and never as a stock, and a missing strike fails; anything else is booked under its symbol, and is a stock as `is_stock` says |
| Processing.Direction | tw-pnl.py:401-403 | a sell is negated; an expiration, assignment or exercise of an asset with no lots fails; otherwise it is negated exactly when the position is long; any other trade keeps its quantity |
| Processing.UnitPrice | tw-pnl.py:407-408 | the unit price of a trade: its units at that price cost exactly the absolute net amount, in EUR times the rate when converting and in USD otherwise; never negative under a positive rate |
| Processing.PlaceOrder | tw-pnl.py:388-408 | an order fails exactly when the key fails, the direction fails, the amount check fails or the signed quantity is 0; an order that goes through has a nonzero quantity, and its key, direction and passing amount check are those of the row; its price is the `UnitPrice` of the net amount over that quantity, so its units cost exactly the net amount |
| Processing.BookTrade | tw-pnl.py:410-424 | the term loss is added to the term losses; a stock's P&L goes to gains when positive and to losses otherwise, leaving the other stock accumulator and `pnl` alone; other P&L goes to `pnl`, leaving both stock accumulators alone; the three together grow by the P&L; no other accumulator changes |
| Processing.Step | tw-pnl.py:274-429 | no contract of its own: one iteration of the loop; `StepProperties.Step*` state what it guarantees and `CheckLoop.ProcessRow` is proved equal to it |
| Processing.Book | tw-pnl.py:294-429 | no contract of its own: the part of an iteration after admission; `StepProperties.Book*` state what it guarantees and `CheckLoop.BookRow` is proved equal to it |
| Processing.Run | tw-pnl.py:268-429 | no contract of its own: the loop over all rows, oldest first; `StepProperties.Run*` state what it guarantees |
| Processing.Finish | tw-pnl.py:268-435 | no contract of its own: the loop and the last yearly summary; `CheckLoop.Check` is proved equal to it |
| StepProperties.StepIsBook | tw-pnl.py:274-297 | a step that goes through has admitted its row, found a nonzero rate for its day and booked the row; admission enters the row's year and fixes the account reference |
| StepProperties.BookOut | tw-pnl.py:294-429 | a booking appends one output row with the row's minute, amounts and symbol and the new total, which grew by the net amount |
| StepProperties.BookKeeps | tw-pnl.py:294-429 | a booking keeps the year, the account reference and the closed years |
| StepProperties.BookKeepsLedgerOk | tw-pnl.py:300-409 | both `fifo_add` calls of a booking keep the lots well formed |
| StepProperties.BookCashLots | tw-pnl.py:300-386 | a money movement changes the lots only through the USD cash `fifo_add` and books no term loss |
| StepProperties.BookTradeLots | tw-pnl.py:388-429 | a trade is booked under its order's key and signed quantity with a P&L cell; the key is the symbol without an expiry and the option key with one |
| StepProperties.CallPutPrints | tw-pnl.py:100-106 | a call/put cell that passes `check_param` prints as nonempty text |
| StepProperties.StepRecordsRow | tw-pnl.py:297-429 | an accepted row appends one output row with its minute, amounts and symbol and the new account total; the total grows by the net amount |
| StepProperties.StepYear | tw-pnl.py:278-287 | after a row its year is current; leaving a year appends exactly that year's summary |
| StepProperties.StepAccount | tw-pnl.py:290-293 | an accepted row has a reference, and it is the one fixed by the first row |
| StepProperties.StepKeepsLedgerOk | tw-pnl.py:300-409 | a step keeps every queue nonempty, of one sign and without zero lots |
| StepProperties.StepMoneyMovement | tw-pnl.py:300-386 | a money movement changes only the USD cash lots, whose net quantity grows by the row's net cash in 1/10000 USD, and books no term loss |
| StepProperties.StepTrade | tw-pnl.py:388-424 | a trade changes only the cash lots and its asset's lots, by the net cash and by its signed, nonzero quantity; an option is booked under a key `fifo_add` treats as an option; anything else under its symbol |
| StepProperties.StepSettlement | tw-pnl.py:398-403 | an expiration, assignment or exercise not marked as a sell needs an open position, and a positive quantity is booked against its direction |
| StepProperties.BookingKeepsSigns | tw-pnl.py:326-386 | under a positive rate a money movement keeps dividends, interest received ≥ 0 and withholding tax, interest paid and withdrawals ≤ 0 |
| StepProperties.BookKeepsSigns | tw-pnl.py:294-424 | under a positive rate, a booking keeps the accumulators on their sides of zero |
| StepProperties.BookCashKeepsSigns | tw-pnl.py:326-386 | the same for a money movement |
| StepProperties.BookTradeKeepsSigns | tw-pnl.py:388-424 | the same for a trade |
| StepProperties.BookTradeTotals | tw-pnl.py:296-424 | after a trade, the fees and currency gains have touched only their own accumulators, and the trade's P&L and nonnegative term loss are booked |
| StepProperties.TradeKeepsSigns | tw-pnl.py:410-424 | booking a P&L and a nonnegative term loss keeps the signs of every accumulator |
| StepProperties.StepKeepsSigns | tw-pnl.py:278-424 | under positive rates a step keeps stock gains, term losses, dividends and interest received ≥ 0, and stock losses, withholding tax, interest paid and withdrawals ≤ 0, in the current year and in every closed one |
| StepProperties.RunRecordsRows | tw-pnl.py:268-429 | a run writes one output row per input row, and its account total is the net cash of all rows |
| StepProperties.RunRowOrder | tw-pnl.py:268-429 | output row k was written for row k from the end of the file (the rows are visited oldest first) |
| StepProperties.RunAccount | tw-pnl.py:290-293 | all rows of a run that goes through carry the same account reference |
| StepProperties.RunKeepsLedgerOk | tw-pnl.py:268-429 | the lots stay well formed over a whole run |
| StepProperties.RunSigns | tw-pnl.py:268-429 | under positive rates, the accumulators of every year of a run have their signs |
| StepProperties.RunAbort | tw-pnl.py:268-429 | the first failing row, counted from the oldest, stops the run with its error |
| CheckLoop.ProcessRow | tw-pnl.py:268-298 | the loop body on the mutable ledger gives the ledger and carry of `Step`, or its error |
| CheckLoop.BookRow | tw-pnl.py:296-429 | the two in-place `fifo_add` calls and the booking give the ledger and carry of `Book`, or its error |
| CheckLoop.Check | tw-pnl.py:255-435 | the loop over the rows, oldest first, on a fresh ledger, with the final summary, returns exactly `Finish` |
| CashSettled.SkipSpace | tastytradehelper.py:18 | the result is a suffix of the input; everything removed is whitespace; it starts with a non-space character |
| CashSettled.TakeWord | tastytradehelper.py:18 | the result is the longest whitespace-free prefix |
| CashSettled.FirstToken | tastytradehelper.py:18 | there is no first token exactly when the symbol is all whitespace; a token is nonempty and has no whitespace; `CashSettled.WordFirst` and `CashSettled.LeadingSpaceIgnored` say which word it is |
| CashSettled.AnyPrefix | tastytradehelper.py:19 | true exactly when some listed prefix starts the text |
| CashSettled.NoRootPrefix | tastytradehelper.py:19 | a token that starts with neither S nor V has none of the index roots as a prefix |
| CashSettled.IsSymbolCashSettled | tastytradehelper.py:2-19 | fails exactly for an all-whitespace symbol; otherwise true exactly when the first token starts with SPXW, SPX or VIXW |
| CashSettled.OnlyFirstTokenMatters | tastytradehelper.py:18 | anything after whitespace following the first token does not change the answer |
| CashSettled.WordFirst | tastytradehelper.py:18 | a leading whitespace-free word followed by nothing or by whitespace is the first token |
| CashSettled.LeadingSpaceIgnored | tastytradehelper.py:18 | leading whitespace changes neither the first token nor the answer, so the token is the word after the leading whitespace, ending at whitespace or at the end |
| CashSettled.TakeWordOf | tastytradehelper.py:18 | such a word is exactly what `TakeWord` takes |
| CashSettled.RootsAreCashSettled | tests/tastytradehelper_test.py:12-13 | "SPX" and "VIXW" are cash settled |
| CashSettled.OptionSymbolIsCashSettled | tests/tastytradehelper_test.py:15 | "SPXW  240919C05710000" is cash settled |
| CashSettled.StockIsNotCashSettled | tests/tastytradehelper_test.py:17 | "AAPL" is not cash settled |
| CashSettled.BlankHasNoToken | tastytradehelper.py:18 | every symbol made only of whitespace, the empty one included, fails (IndexError) |
| CashSettled.NoTokenSymbols | tastytradehelper.py:18 | the empty symbol and a symbol of blanks and a tab fail (IndexError) |

## Left out

- Reading the CSV through pandas, downloading the Bundesbank rates, and the CSV/Excel export (tw-pnl.py:47-54, 431-446). These are file and network I/O; the rows and the rate table are inputs.
- `main` and its option parsing (tw-pnl.py:449-495). The two switches the core reads are fields of `Env`.
- All printing: the yearly summary, `print_fifos`, the debug output, and the notice for assignments and exercises of long options. The yearly summary is recorded as a `YearSummary` value holding exactly what it prints from.
- The `'%.2f'`/`'%.4f'` text of the output cells. `OutRow` holds the numbers themselves.
- IEEE floating point. Amounts, prices and rates are exact reals, so `math.isclose` and `int((amount - fees) * 10000)` are computed on exact values.
- Date arithmetic: `strptime`/`strftime` and the one-day step of `get_eurusd`. Rates are keyed by consecutive day numbers; a row carries its day number; an expiry is given already written as `yy-mm-dd`.
- A NaN amount or fee: `Row.amount` and `Row.fees` are reals. `CheckTrade` itself takes possibly-NaN cells.
- A NaN symbol on a trade row. `Row.symbol` is a string.
- `eur2usd` (tw-pnl.py:65-70) is not called by the core.
- AssetKeys.DecimalText: as for `AssetKeys.StrikeText` below, the digits after the point are the exact decimal expansion, not Python's float `repr`.
- AssetKeys.StrikeText: a strike that is not a whole number is written as its exact decimal expansion, cut at 17 digits. It matches Python's `repr` for strikes with a short decimal form, such as 152.5, but not the shortest round-trip text of arbitrary floats.
- CheckLoop.ProcessRow: on an error it does not describe the ledger. The program has then already fed the USD cash lots, but the run stops, so that state is never used.
- CheckLoop.BookRow: the same holds for it: on an error it does not describe the ledger, which the stopped run never uses.

An empty account reference cell is NaN in the program, and NaN equals nothing, so such a row always fails the account check (`CheckAccount`).
