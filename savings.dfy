/** What a run of the dispatch loop saves: the before/after comparison read
    against the energy bookkeeping of the run. */
module Savings {
  import opened Dispatch
  import opened Costs

  /** Energy bookkeeping of a whole run: the demand not bought from the grid
      is what solar gave plus what the battery ended below full. */
  lemma {:induction false} EnergyAccount(cfg: Config, demand: seq<real>)
    ensures Sum(demand) - Total(Simulation(cfg, demand), Grid)
            == Total(Simulation(cfg, demand), Solar) + Capacity(cfg) - Run(cfg, demand).battery
    decreases |demand|
  {
    if |demand| > 0 {
      var n := |demand|;
      var front, x := demand[..n - 1], demand[n - 1];
      EnergyAccount(cfg, front);
      assert front + [x] == demand;
      RunSnoc(cfg, front, x);
      var rows := Simulation(cfg, front);
      var h := Step(cfg, Run(cfg, front).battery, n - 1, x);
      ColumnSnoc(rows, h.row, Grid);
      ColumnSnoc(rows, h.row, Solar);
      SumSnoc(Column(rows, Grid), h.row.grid);
      SumSnoc(Column(rows, Solar), h.row.solar);
      SumSnoc(front, x);
    }
  }

  /** Without eco recharging the battery only drains: it ends below full by
      exactly what it supplied. */
  lemma {:induction false} NoEcoDrain(cfg: Config, demand: seq<real>)
    requires forall k :: 0 <= k < |demand| ==> !InEcoWindow(cfg, k)
    ensures Run(cfg, demand).battery == Capacity(cfg) - Total(Simulation(cfg, demand), Battery)
    decreases |demand|
  {
    if |demand| > 0 {
      var n := |demand|;
      var front, x := demand[..n - 1], demand[n - 1];
      NoEcoDrain(cfg, front);
      assert front + [x] == demand;
      RunSnoc(cfg, front, x);
      var rows := Simulation(cfg, front);
      var h := Step(cfg, Run(cfg, front).battery, n - 1, x);
      ColumnSnoc(rows, h.row, Battery);
      SumSnoc(Column(rows, Battery), h.row.battery);
    }
  }

  /** Without eco recharging the retained energy is what solar and the
      battery supplied. */
  lemma {:induction false} NoEcoRetained(cfg: Config, demand: seq<real>)
    requires forall k :: 0 <= k < |demand| ==> !InEcoWindow(cfg, k)
    ensures Retained(cfg, demand) == OwnSupply(Simulation(cfg, demand))
  {
    NoEcoDrain(cfg, demand);
  }

  /** When the panels cover every hour, the battery never leaves full, solar
      meets the whole demand and nothing is bought from the grid. */
  lemma {:induction false} SolarCoversDemand(cfg: Config, demand: seq<real>)
    requires WellFormed(cfg)
    requires forall k :: 0 <= k < |demand| ==> 0.0 <= demand[k] <= SolarYield(cfg)
    ensures Run(cfg, demand).battery == Capacity(cfg)
    ensures forall k :: 0 <= k < |demand| ==> Simulation(cfg, demand)[k] == Supply(demand[k], 0.0, 0.0)
    decreases |demand|
  {
    if |demand| > 0 {
      var n := |demand|;
      var front, x := demand[..n - 1], demand[n - 1];
      SolarCoversDemand(cfg, front);
      assert front + [x] == demand;
      RunSnoc(cfg, front, x);
    }
  }
}
