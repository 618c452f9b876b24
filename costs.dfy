/** The before/after cost comparison shown after a run: the all-grid bill for
    the demand, the bill for what the simulation bought from the grid, and
    their difference. */
module Costs {
  import opened Dispatch

  function Sum(xs: seq<real>): real
  {
    if |xs| == 0 then 0.0 else Sum(xs[..|xs| - 1]) + xs[|xs| - 1]
  }

  /** The three supply columns of the output table. */
  datatype Source = Solar | Battery | Grid

  function Amount(r: Supply, s: Source): real
  {
    match s
    case Solar => r.solar
    case Battery => r.battery
    case Grid => r.grid
  }

  /** One column of the output table, top to bottom. */
  function Column(rows: seq<Supply>, s: Source): (c: seq<real>)
    ensures |c| == |rows|
    ensures forall k :: 0 <= k < |rows| ==> c[k] == Amount(rows[k], s)
  {
    if |rows| == 0 then [] else Column(rows[..|rows| - 1], s) + [Amount(rows[|rows| - 1], s)]
  }

  function Total(rows: seq<Supply>, s: Source): real
  {
    Sum(Column(rows, s))
  }

  /** The per-hour cost column: each hour's grid energy at the unit price. */
  function CostColumn(rows: seq<Supply>, price: int): (c: seq<real>)
    ensures |c| == |rows|
    ensures forall k :: 0 <= k < |rows| ==> c[k] == rows[k].grid * price as real
  {
    if |rows| == 0 then [] else CostColumn(rows[..|rows| - 1], price) + [rows[|rows| - 1].grid * price as real]
  }

  /** Cost before: the whole demand bought from the grid. */
  function BeforeCost(cfg: Config, demand: seq<real>): real
  {
    Sum(demand) * cfg.electricityCost as real
  }

  /** Cost after: the sum of the per-hour cost column. */
  function AfterCost(cfg: Config, rows: seq<Supply>): real
  {
    Sum(CostColumn(rows, cfg.electricityCost))
  }

  function Saved(cfg: Config, demand: seq<real>, rows: seq<Supply>): real
  {
    BeforeCost(cfg, demand) - AfterCost(cfg, rows)
  }

  lemma {:induction false} SumSnoc(xs: seq<real>, x: real)
    ensures Sum(xs + [x]) == Sum(xs) + x
  {
    assert (xs + [x])[..|xs|] == xs;
  }

  lemma {:induction false} ColumnSnoc(rows: seq<Supply>, r: Supply, s: Source)
    ensures Column(rows + [r], s) == Column(rows, s) + [Amount(r, s)]
  {
  }

  lemma {:induction false} SumAppend(xs: seq<real>, ys: seq<real>)
    ensures Sum(xs + ys) == Sum(xs) + Sum(ys)
    decreases |ys|
  {
    if |ys| == 0 {
      assert xs + ys == xs;
    } else {
      var front := ys[..|ys| - 1];
      assert xs + ys == (xs + front) + [ys[|ys| - 1]];
      SumSnoc(xs + front, ys[|ys| - 1]);
      SumAppend(xs, front);
    }
  }

  lemma {:induction false} SumNonNegative(xs: seq<real>)
    requires forall k :: 0 <= k < |xs| ==> 0.0 <= xs[k]
    ensures 0.0 <= Sum(xs)
    decreases |xs|
  {
    if |xs| > 0 {
      SumNonNegative(xs[..|xs| - 1]);
    }
  }

  lemma {:induction false} SumOfZeros(xs: seq<real>)
    requires forall k :: 0 <= k < |xs| ==> xs[k] == 0.0
    ensures Sum(xs) == 0.0
    decreases |xs|
  {
    if |xs| > 0 {
      SumOfZeros(xs[..|xs| - 1]);
    }
  }

  /** The saving prices whatever energy the grid did not have to supply. */
  lemma {:induction false} SavedFromAccount(cfg: Config, demand: seq<real>, rows: seq<Supply>, kept: real)
    requires Sum(demand) - Total(rows, Grid) == kept
    ensures Saved(cfg, demand, rows) == cfg.electricityCost as real * kept
  {
    AfterCostIsGridTotal(cfg, rows);
  }

  lemma NonNegativeProduct(a: real, b: real)
    requires 0.0 <= a && 0.0 <= b
    ensures 0.0 <= a * b
  {
  }

  /** The after cost, a sum of per-hour costs, is the grid total at the unit price. */
  lemma {:induction false} AfterCostIsGridTotal(cfg: Config, rows: seq<Supply>)
    ensures AfterCost(cfg, rows) == Total(rows, Grid) * cfg.electricityCost as real
    decreases |rows|
  {
    if |rows| > 0 {
      var front := rows[..|rows| - 1];
      AfterCostIsGridTotal(cfg, front);
      assert CostColumn(rows, cfg.electricityCost)[..|rows| - 1] == CostColumn(front, cfg.electricityCost);
      assert Column(rows, Grid)[..|rows| - 1] == Column(front, Grid);
    }
  }

  /** Energy the run did not buy from the grid: the solar energy used plus
      how far the battery ended below full. */
  function Retained(cfg: Config, demand: seq<real>): real
  {
    Total(Simulation(cfg, demand), Solar) + Capacity(cfg) - Run(cfg, demand).battery
  }

  /** Energy solar and the battery supplied over a run. */
  function OwnSupply(rows: seq<Supply>): real
  {
    Total(rows, Solar) + Total(rows, Battery)
  }

}
