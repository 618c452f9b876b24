# Hybrid micro-inverter savings simulator, V4 — dispatch model

The V4 dashboard (`streamlit_app.py`) simulates a household or office that has
solar panels, a battery and a grid connection with a cheap "eco" tariff window.
It walks a day's hourly demand in order. Each hour the demand is met first by
solar, then by the battery, then by the grid. During the eco window the grid
also recharges the battery by at most 1 kWh. The battery starts full, and its
charge is the only state carried from one hour to the next. The run produces one
`[solar, battery, grid]` row per demand row. A per-hour cost column is the grid
energy at the unit price. Three totals are shown:

- the bill without the system: total demand at the unit price;
- the bill with the system: the sum of the cost column;
- the saving: the first bill minus the second.

The project models this as five Dafny modules:

- `Dispatch` (`dispatch.dfy`):
  - the settings, as a `Config` value, and the sidebar ranges;
  - the eco-window test;
  - one loop iteration, as the pure function `Step`;
  - the whole loop as a fold, `Run` / `Simulation`;
  - the loop itself, as the imperative method `Simulate`, proved equal to the fold;
  - per-hour guarantees on the returned table.
- `Costs` (`costs.dfy`): table columns, sums, the cost column and the before/after/saved totals.
- `Savings` (`savings.dfy`): energy bookkeeping over a whole run.
- `Comparison` (`comparison.dfy`): what the yen figures amount to, and when the saving is zero or not negative.
- `Profiles` (`profiles.dfy`): the two built-in 24-hour profiles, and the figures the app shows for them under the default sidebar settings.

The settings the function reads as globals become a `Config` parameter. Energy
and money are Dafny `real`s. The row position is the hour, as it is for the
default integer index of the demand table.

One consequence of the loop found while proving it: the battery starts full, so
an eco recharge can only put back what the run drew out. The saving is therefore
the price of the solar energy used plus the charge missing at the end. It is
never negative for non-negative demand, with or without an eco window
(`Comparison.SavedIsRetainedEnergy`, `Comparison.SavedNeverNegative`). Under the
sidebar ranges (`eco_end` is at least 1), hour 0 always lies in the eco window.

## Model

| member | source | states |
|---|---|---|
| Dispatch.SidebarIsWellFormed | streamlit_app.py:13-20 | every setting the sidebar widgets allow has a non-negative capacity, solar output and price |
| Dispatch.EcoWindowShape | streamlit_app.py:67 | the eco test is an OR: a window with start ≤ end covers every hour; with end < start an hour is in it exactly when it is not in [end, start) |
| Dispatch.Step | streamlit_app.py:48-72 | solar is the smaller of the demand and the panels' hourly yield; the battery gives the whole post-solar remainder when it holds that much and otherwise all its charge, never more than either; solar + battery + unmet = demand with unmet ≥ 0; the grid row is unmet plus the eco charge; outside the window nothing is charged; inside it the new charge is min(capacity, charge left + 1); a charge in [0, capacity] stays there and the eco charge lies in [0, 1] |
| Dispatch.Run | streamlit_app.py:44-72 | one hour per demand row; the battery starts full and its charge stays in [0, capacity] after every hour, eco recharging included; the final charge is the last hour's |
| Dispatch.Simulate | streamlit_app.py:44-75 | the loop carrying the battery across rows returns one row per demand row, equal to the fold `Simulation` |
| Dispatch.RunSnoc | streamlit_app.py:47-72 | appending a demand row appends exactly one Step, from the charge the earlier rows left, to the hours, the table and the final charge |
| Dispatch.RunExtend | streamlit_app.py:47-72 | the run over the first i+1 rows is the run over the first i rows followed by one Step at hour i |
| Dispatch.RunPrefix | streamlit_app.py:45-72 | hours never depend on later demand: the run over a prefix is the prefix of the run |
| Dispatch.SimulationPrefix | streamlit_app.py:45-74 | the table for the first k demand rows is the first k rows of the whole table, in input order |
| Dispatch.HourAt | streamlit_app.py:47-72 | row i of the table is one Step at hour i from the charge the first i rows left |
| Dispatch.HourlySplit | streamlit_app.py:50-72 | for every hour: the charge before and after lies in [0, capacity]; the battery gives at most the charge it held; outside the eco window solar + battery + grid = demand; for non-negative demand 0 ≤ solar ≤ demand and grid ≥ 0; in the window grid = remainder + charge with charge in [0, 1] and the charge rises by exactly that amount |
| Costs.Column | streamlit_app.py:74 | a table column has one entry per row, each the row's figure for that source |
| Costs.CostColumn | streamlit_app.py:81 | the cost column has one entry per row, each the row's grid energy times the unit price |
| Costs.SumSnoc | streamlit_app.py:86 | summing a column one more entry adds that entry |
| Costs.SumAppend | streamlit_app.py:86 | the sum of two joined columns is the sum of their sums |
| Costs.SumNonNegative | streamlit_app.py:86 | a column with no negative entry has a non-negative sum |
| Costs.SumOfZeros | streamlit_app.py:93 | an all-zero column sums to zero |
| Costs.AfterCostIsGridTotal | streamlit_app.py:81-93 | the after cost, the sum of the per-hour costs, is the grid total times the unit price |
| Costs.SavedFromAccount | streamlit_app.py:86-94 | the saving is the unit price times whatever demand the grid did not supply |
| Savings.EnergyAccount | streamlit_app.py:44-72 | over a whole run, demand minus grid energy equals the solar energy used plus how far the battery ended below full |
| Savings.NoEcoDrain | streamlit_app.py:56-67 | when no hour lies in the eco window the battery ends below full by exactly the energy it supplied |
| Savings.NoEcoRetained | streamlit_app.py:50-67 | when no hour lies in the eco window the energy not bought equals what solar and the battery supplied |
| Savings.SolarCoversDemand | streamlit_app.py:46-72 | when the panels' yield covers every hour the battery stays full and every row is (demand, 0, 0) |
| Comparison.SavedIsRetainedEnergy | streamlit_app.py:86-94 | the saving equals the price times (solar energy used + capacity − final charge) |
| Comparison.SavedNeverNegative | streamlit_app.py:86-94 | for non-negative demand and price the saving is never negative, with or without eco hours |
| Comparison.SolarCoversDemandCosts | streamlit_app.py:81-94 | when the panels cover every hour the after cost is zero and the whole before cost is saved |
| Comparison.ZeroDemand | streamlit_app.py:44-94 | all-zero demand leaves the battery full, every row zero and every cost figure zero |
| Comparison.NoStorageNoSolar | streamlit_app.py:44-94 | with no battery and no panels every row is (0, 0, demand) and the after cost equals the before cost |
| Profiles.Repeat | streamlit_app.py:26-27 | list repetition gives n copies of the value |
| Profiles.SumRepeat | streamlit_app.py:26-27 | n copies of x sum to n·x |
| Profiles.DefaultConfig | streamlit_app.py:13-20 | the widgets' default values lie within the sidebar ranges |
| Profiles.ProfilesCoverADay | streamlit_app.py:25-28 | both profiles have 24 entries; home demand lies in (0, 1]; office demand is 1.2 from 8:00 to 16:00 and 0.2 otherwise |
| Profiles.HomeDemandTotal | streamlit_app.py:26 | the home profile totals 14.4 kWh |
| Profiles.HomeDefaultScenario | streamlit_app.py:44-94 | under the default settings solar covers every home hour: every row is (demand, 0, 0), the before cost is 504 yen, the after cost 0 and the saving 504 |
| Profiles.OfficeDemandTotal | streamlit_app.py:27 | the office profile totals 12.8 kWh |
| Profiles.OfficeHour | streamlit_app.py:48-72 | one office hour under the default settings takes the charge to the next expected value and buys grid energy only at 23:00 (1 kWh) |
| Profiles.OfficeExtend | streamlit_app.py:47-72 | extending the office day by one hour keeps the expected charge and grid total |
| Profiles.OfficeDefaultDay | streamlit_app.py:44-75 | over the office day under the default settings the battery ends at 1.4 kWh and the grid supplies 1 kWh in total |
| Profiles.OfficeDefaultScenario | streamlit_app.py:81-94 | the office day under the default settings costs 448 yen before, 35 yen after, and saves 413 yen |

## Left out

- The Streamlit page: set-up, sidebar widgets, the scenario selector, buttons, metrics and tables. Only the widget ranges and defaults remain, as `SidebarConfig` and `DefaultConfig`.
- CSV upload and the editable demand table. They are input I/O through a foreign library. Demand is a parameter: any sequence of reals.
- pandas plumbing: frame construction, `iterrows`, concatenation and column names. Rows are a sequence of `Supply` triples, and the row position is the hour.
- Time-slot labels and the `.2f`/`.0f` display rounding, which are presentation only.
- IEEE floating-point rounding. Quantities are exact `real`s, and the loop uses only min, addition and subtraction.
- Clamping of negative demand. The code does not clamp negative demand, and the model follows the code. The per-hour balance holds for any demand. The non-negativity and saving results assume non-negative demand.
- A separate column for the eco recharge. The code adds the recharge to the grid column, and so does the model; `Hour.charge` keeps it apart for the proofs only.
- A check that the demand has 24 rows. The code accepts any number of rows, and so does the model. Hours 24 and later still go through the eco test with the row position as the hour.
- Solar-window and efficiency variants of other versions of the app. This file gives the full rated yield every hour, and so does the model.
