# ActiveDCA strategy and backtest, modelled in Dafny

This project models the core of ActiveDCA, a rule-based Bitcoin accumulation and exit strategy, and the backtest that drives it over a historical series. All numbers are exact Dafny `real`s.

- `strategy.dfy`, module `Strategy`. The `ActiveDCA` class holds six parameters fixed at construction and a mutable `(cash, position)` pair. `ExecuteStrategy` is the two-phase decision table.
  - Phase 1 takes exactly one of these paths: Buy, Hold with saving, Sell of the whole position, or nothing.
  - Phase 2 is the dip overlay. It runs unconditionally after phase 1 and replaces whatever phase 1 reported.
  - The method is proved equal to the pure function `Step` (`PhaseTwo` after `PhaseOne`). The branch properties are lemmas about `Step`.
  - `Execute` models the optional-argument entry point: price and indicator default to `None`, as in the source. The external indicator provider becomes a parameter: an `Option<Reading>`, where `None` means the provider failed.
- `backtest.dfy`, module `Backtesting`. The `Backtest` class holds the strategy, the list of daily records and the initial cash.
  - `RunBacktest` is the per-row loop. Its loop invariant ties the records written so far and the strategy state to two recursive functions over the prefix of the samples: `Ledger` and `StateAfter`. Together they form a left fold.
  - `CumulativeInvestment` is the running total used for the cumulative-investment chart. It is specified by the recursive function `Invested`.
  - `PortfolioValue` models `calculate_portfolio_value` (backtest.py:48-56). It is a single expression with no contract of its own; what it states is carried by `LedgerValuation`.

Preconditions and how they relate to the code:
- Price and indicator must be positive. The source divides by the indicator before any branching and by the price in every buy. It checks neither, so the model makes both a precondition.
- The source does not validate the thresholds, and neither does the model. `UnorderedThresholdsSellThenDipBuy` shows what happens when the dip line is above both the stop-investing and the sell lines.
- A Buy or DipBuy is meant to increase the position. Within `NonNegativeRegime`, the code fails to guarantee this only when the dip line is above both the stop-investing and the sell lines. (Outside that regime a negative `weight_coefficient` alone makes a Buy lower the position, as the last bullet below says.) Within the regime, only then can one call reach the Sell branch (which needs the indicator at or above both lines, because every indicator below the stop line takes the Buy branch) and still fire the dip overlay, selling the whole position and dip-buying a fraction back. The model follows the code: `BuyingRaisesPosition` requires `NonNegativeRegime` and the dip line to be at most the sell line or at most the stop-investing line, and then holds from any starting state. `DipAboveSellBelowStop` shows a dip line above the sell line but below the stop line where the position still grows.
- Zero amounts give no strict increase, so the lemma states `>=` in general and `>` whenever the reported amount is positive.
- The code does not check the sign of `daily_investment` or `weight_coefficient`. Non-negativity of cash and position needs `0 <= invest_percentage <= 1`, `daily_investment >= 0` and also `weight_coefficient >= 0`. A negative weight makes a Buy shrink the position. This set of conditions is `NonNegativeRegime`.

## Model

| member | source | states |
|---|---|---|
| `Strategy.ActiveDCA.constructor` | active_dca_strategy.py:50-58 | the six parameters are stored unchanged (defaults 1.10, 1.85, 0.6, 0.7, 100, 1.0), position is 0, and cash is the given initial cash |
| `Strategy.ActiveDCA.ExecuteStrategy` | active_dca_strategy.py:119-144 | the new (cash, position) and the returned (action, amount) are exactly `Step` of the parameters and the old (cash, position) |
| `Strategy.ActiveDCA.Execute` | active_dca_strategy.py:105-144 | with both inputs given, it behaves as `Step` on them; with an input missing and the provider failing, it returns None and leaves the state untouched; with an input missing and a reading available, it behaves as `Step` on the reading |
| `Strategy.BuyBranch` | active_dca_strategy.py:119-126 | below the stop-investing line, phase 1 raises position by `daily_investment * (weight / indicator) / price` and leaves cash alone; without a dip the call reports Buy with that dynamic amount |
| `Strategy.HoldBranch` | active_dca_strategy.py:127-129 | between the stop-investing and sell lines, cash grows by exactly `daily_investment`, position is unchanged, and without a dip the report is (Hold, 0) |
| `Strategy.SellBranch` | active_dca_strategy.py:130-135 | at or above the sell line, not below the stop-investing line, and with a positive position, everything is sold: position 0, cash up by position × price, and that increase is the reported amount (unless a dip follows) |
| `Strategy.FallthroughBranch` | active_dca_strategy.py:120-130 | at or above the sell line, not below the stop-investing line, with no positive position and no dip, the result is (Hold, 0) and neither cash nor position changes |
| `Strategy.DipOverlay` | active_dca_strategy.py:137-142 | when the indicator is below the dip line and cash after phase 1 is positive, cash becomes cash × (1 − invest_percentage), position gains that cash × invest_percentage / price on top of phase 1's change, and the report is DipBuy with that amount whatever phase 1 reported |
| `Strategy.NoDipOverlay` | active_dca_strategy.py:137-144 | when the overlay does not fire, the call's result is phase 1's result unchanged |
| `Strategy.DipBuyReportedIff` | active_dca_strategy.py:137-142 | the reported action is DipBuy if and only if the overlay condition holds on the state left by phase 1 |
| `Strategy.StepNonNegative` | active_dca_strategy.py:123-142 | with 0 ≤ invest_percentage ≤ 1, daily_investment ≥ 0, weight ≥ 0, positive price and indicator, and a non-negative state, cash, position and the reported amount stay non-negative |
| `Strategy.BuyingRaisesPosition` | active_dca_strategy.py:123-142 | in the regime of `NonNegativeRegime`, from any starting state, and unless the dip line is above both the stop-investing and the sell lines, a Buy or DipBuy report never comes with a lower position, and comes with a strictly higher one whenever the reported amount is positive |
| `Strategy.BuyReported` | active_dca_strategy.py:123-126 | whenever the reported action is Buy, cash is unchanged and the position grew by exactly the reported amount over the price |
| `Strategy.SellReported` | active_dca_strategy.py:130-135 | whenever the reported action is Sell, the position is 0, cash grew by the old position times the price, and that is the reported amount |
| `Strategy.DipAboveSellBelowStop` | active_dca_strategy.py:123-142 | with dip 3.0 above sell 2.0 but below stop 5.0, an indicator of 2.5 takes the Buy branch (40 worth), then the dip-buy spends 5 of 10 cash: position 1 → 5.5, DipBuy 5.0 reported |
| `Strategy.UnorderedThresholdsSellThenDipBuy` | active_dca_strategy.py:130-142 | with unvalidated thresholds (dip 3.0 above both sell 2.0 and stop 1.0), one call sells 1 unit at 10 and dip-buys back only 0.5, reporting DipBuy 5.0 |
| `Strategy.ScenarioBuy` | active_dca_strategy.py:119-126 | defaults, cash 10000, price 50000, indicator 0.9: Buy of 1000/9, position 1/450, cash 10000 |
| `Strategy.ScenarioHold` | active_dca_strategy.py:127-129 | defaults, cash 10000, price 50000, indicator 1.5: Hold, cash 10100, position 0 |
| `Strategy.ScenarioSell` | active_dca_strategy.py:130-135 | defaults, position 1, price 60000, indicator 2.0: Sell of 60000, cash up by 60000, position 0 |
| `Strategy.ScenarioDipBuy` | active_dca_strategy.py:119-142 | defaults, cash 1000, price 50000, indicator 0.5: both phases buy (200 and 700 worth), cash 300, and only DipBuy 700 is reported |
| `Backtesting.Backtest.constructor` | backtest.py:9-12 | the runner holds the given strategy, has no records, and its initial cash is the strategy's cash at that moment (a constant afterwards) |
| `Backtesting.Backtest.RecordAction` | backtest.py:33-46 | exactly one record is appended, carrying the row's inputs, the strategy's current cash and position, the action, the amount and the value |
| `Backtesting.Backtest.RunBacktest` | backtest.py:21-29 | the records appended are `Ledger` of the samples from the strategy's starting state, and the strategy ends in `StateAfter` of the samples |
| `Backtesting.LedgerLength` | backtest.py:21-29 | the ledger has exactly one record per input row |
| `Backtesting.LedgerAt` | backtest.py:21-29 | record i is the entry for row i computed by one strategy step from the state left by rows 0..i−1 (a left fold, in input order) |
| `Backtesting.StateAfterSnoc` | backtest.py:21-29 | processing one more row is one more strategy step from the state already reached, and appends exactly its record |
| `Backtesting.LedgerRecordsPostDecisionState` | backtest.py:22-45 | record i copies row i's date, price and indicator, and its cash and position are the state after row i's decision |
| `Backtesting.LedgerValuation` | backtest.py:48-56 | record i's value is `calculate_portfolio_value` (cash + position × price) of its own post-decision cash and position at its own row's price, as computed at line 28 |
| `Backtesting.RunNonNegative` | backtest.py:21-29 | in the non-negative regime, every state the run reaches and every record has non-negative cash, position and amount |
| `Backtesting.CumulativeInvestment` | backtest.py:90-97 | one value per record; value i is the initial cash plus the amounts of the Buy records among records 0..i; when Buy amounts are non-negative the series never drops below the initial cash and never decreases |
| `Backtesting.InvestedMonotone` | backtest.py:90-97 | with non-negative Buy amounts, the cumulative investment after a longer prefix is at least that after a shorter one |
| `Backtesting.InvestedWithoutBuys` | backtest.py:93-97 | records that are not Buy leave the cumulative investment at the initial cash |
| `Backtesting.LedgerBuyAmountsNonNegative` | backtest.py:37-46 | every Buy record of a run in the non-negative regime has a non-negative amount, so that run's cumulative investment is non-decreasing |
| `Backtesting.FreshRun` | main.py:15-23 | constructing a strategy with default parameters and a runner, then running a series, yields exactly the fold from (cash, 0); replaying the same series always gives the same ledger; the final state is non-negative when the starting cash is |

## Left out

- `calculateActiveDCA` (active_dca_strategy.py:60-103): it fetches prices over HTTP, reads the clock and uses floating-point `log10` and powers. `Execute` takes its result as an `Option<Reading>` parameter instead.
- The error message printed on a failed fetch (active_dca_strategy.py:116) is console output and is not modelled.
- Date parsing with `pd.to_datetime` and row access through `df.iloc` (backtest.py:19-24) are not modelled. The input is a sequence of `(date, price, indicator)` samples, and the date is passed through as its YYYYMMDD number.
- The `round(...)` calls in `record_action` (backtest.py:39-45) are presentation only, so records hold unrounded reals.
- CumulativeInvestment: the source adds the rounded `Operation_Amount` (one decimal). The model adds the unrounded amount, because rounding is left out.
- `generate_charts` apart from the cumulative-investment loop (backtest.py:58-89, 98-149) is plotting and file output. The call to it at backtest.py:31 is not modelled either. On an empty series the source raises inside that call, because a DataFrame built from no records has no `'Date'` column (backtest.py:66, 70); the model's `RunBacktest` on an empty series simply returns with no records.
- `save_results` (backtest.py:151-158) is file output.
- main.py's CSV loading, its `FileNotFoundError` handling and its console messages are I/O. Only the wiring in lines 15-23 is modelled, as `FreshRun`.
- IEEE floating-point behaviour is not modelled. All equalities are stated exactly over reals.
- Positive price and indicator appear as preconditions because the source does not guard against them: a zero indicator or price divides by zero, and a negative one is accepted silently but inverts signs (a negative indicator gives a negative dynamic investment at active_dca_strategy.py:119, so a Buy shrinks the position). The same holds for `WellFormed` on the backtest's input series.
