/** The before/after comparison in yen: what the saving shown after a run
    amounts to, and when it is zero or not negative. */
module Comparison {
  import opened Dispatch
  import opened Costs
  import opened Savings
  /** The saving is the price of the retained energy. */
  lemma {:induction false} SavedIsRetainedEnergy(cfg: Config, demand: seq<real>)
    ensures Saved(cfg, demand, Simulation(cfg, demand)) == cfg.electricityCost as real * Retained(cfg, demand)
  {
    EnergyAccount(cfg, demand);
    SavedFromAccount(cfg, demand, Simulation(cfg, demand), Retained(cfg, demand));
  }

  /** Since the battery starts full, the eco recharge can only refill what the
      run drew out, so the saving is never negative. */
  lemma {:induction false} SavedNeverNegative(cfg: Config, demand: seq<real>)
    requires WellFormed(cfg) && 0 <= cfg.electricityCost
    requires forall k :: 0 <= k < |demand| ==> 0.0 <= demand[k]
    ensures 0.0 <= Saved(cfg, demand, Simulation(cfg, demand))
  {
    var rows := Simulation(cfg, demand);
    forall k | 0 <= k < |rows|
      ensures 0.0 <= Column(rows, Solar)[k]
    {
      HourlySplit(cfg, demand, k);
    }
    SumNonNegative(Column(rows, Solar));
    SavedIsRetainedEnergy(cfg, demand);
    NonNegativeProduct(cfg.electricityCost as real, Retained(cfg, demand));
  }

  /** ... and then the after cost is zero and the whole before cost is saved. */
  lemma {:induction false} SolarCoversDemandCosts(cfg: Config, demand: seq<real>)
    requires WellFormed(cfg)
    requires forall k :: 0 <= k < |demand| ==> 0.0 <= demand[k] <= SolarYield(cfg)
    ensures AfterCost(cfg, Simulation(cfg, demand)) == 0.0
    ensures Saved(cfg, demand, Simulation(cfg, demand)) == BeforeCost(cfg, demand)
  {
    var rows := Simulation(cfg, demand);
    SolarCoversDemand(cfg, demand);
    SumOfZeros(CostColumn(rows, cfg.electricityCost));
  }

  /** An all-zero demand gives all-zero rows and costs: the battery never
      leaves full, so the eco window has nothing to recharge. */
  lemma {:induction false} ZeroDemand(cfg: Config, demand: seq<real>)
    requires WellFormed(cfg)
    requires forall k :: 0 <= k < |demand| ==> demand[k] == 0.0
    ensures Run(cfg, demand).battery == Capacity(cfg)
    ensures forall k :: 0 <= k < |demand| ==> Simulation(cfg, demand)[k] == Supply(0.0, 0.0, 0.0)
    ensures BeforeCost(cfg, demand) == 0.0 && AfterCost(cfg, Simulation(cfg, demand)) == 0.0
    ensures Saved(cfg, demand, Simulation(cfg, demand)) == 0.0
  {
    SolarCoversDemand(cfg, demand);
    SolarCoversDemandCosts(cfg, demand);
    SumOfZeros(demand);
  }

  /** With no battery and no panels the grid meets every hour's demand and
      the after cost equals the before cost. */
  lemma {:induction false} NoStorageNoSolar(cfg: Config, demand: seq<real>)
    requires cfg.batteryCapacity == 0 && cfg.solarPower == 0
    requires forall k :: 0 <= k < |demand| ==> 0.0 <= demand[k]
    ensures forall k :: 0 <= k < |demand| ==> Simulation(cfg, demand)[k] == Supply(0.0, 0.0, demand[k])
    ensures AfterCost(cfg, Simulation(cfg, demand)) == BeforeCost(cfg, demand)
  {
    var rows := Simulation(cfg, demand);
    forall k | 0 <= k < |demand|
      ensures rows[k] == Supply(0.0, 0.0, demand[k])
    {
      HourlySplit(cfg, demand, k);
      HourAt(cfg, demand, k);
    }
    assert Column(rows, Grid) == demand;
    AfterCostIsGridTotal(cfg, rows);
  }
}
