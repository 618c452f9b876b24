/** The hourly energy-dispatch simulation of the V4 dashboard.
    Each hour's demand is met first by solar, then by the battery, then by the
    grid; during the eco window the grid also tops the battery up by at most
    one kilowatt-hour. The battery charge is the only state carried from one
    hour to the next, and it starts full. */
module Dispatch {

  /** The sidebar settings the simulation reads. The widgets hand over integers:
      capacity in kWh, solar output in W, price in yen per kWh, eco hours. */
  datatype Config = Config(
    batteryCapacity: int,
    solarPower: int,
    electricityCost: int,
    ecoStart: int,
    ecoEnd: int)

  /** The ranges the sidebar widgets allow. */
  predicate SidebarConfig(cfg: Config)
  {
    cfg.batteryCapacity in {2, 4, 6, 8}
    && 0 <= cfg.solarPower <= 4000 && cfg.solarPower % 100 == 0
    && 1 <= cfg.electricityCost <= 100
    && 0 <= cfg.ecoStart <= 23
    && 1 <= cfg.ecoEnd <= 24
  }

  /** What the physical properties below need of the settings; every sidebar
      setting has it. */
  predicate WellFormed(cfg: Config)
  {
    0 <= cfg.batteryCapacity && 0 <= cfg.solarPower
  }

  lemma SidebarIsWellFormed(cfg: Config)
    requires SidebarConfig(cfg)
    ensures WellFormed(cfg) && 0 <= cfg.electricityCost
  {
  }

  function Capacity(cfg: Config): real
  {
    cfg.batteryCapacity as real
  }

  /** Energy the panels give in one hour: the rated output for one full hour. */
  function SolarYield(cfg: Config): real
  {
    cfg.solarPower as real * 1.0 / 1000.0
  }

  /** Most the grid may put into the battery in one eco-window hour (kWh). */
  const RechargeLimit: real := 1.0

  /** Python's min(a, b): the second argument only when it is strictly smaller. */
  function Min(a: real, b: real): real
  {
    if b < a then b else a
  }

  /** The eco window test: a disjunction, so it wraps round midnight when the
      start lies after the end, and covers every hour otherwise. */
  predicate InEcoWindow(cfg: Config, hour: int)
  {
    cfg.ecoStart <= hour || hour < cfg.ecoEnd
  }

  lemma EcoWindowShape(cfg: Config, hour: int)
    ensures cfg.ecoStart <= cfg.ecoEnd ==> InEcoWindow(cfg, hour)
    ensures cfg.ecoEnd < cfg.ecoStart ==> (InEcoWindow(cfg, hour) <==> !(cfg.ecoEnd <= hour < cfg.ecoStart))
  {
  }

  /** One output row: how much of the hour's energy came from each source.
      The grid figure includes what the grid put into the battery. */
  datatype Supply = Supply(solar: real, battery: real, grid: real)

  /** One simulated hour: the output row, the part of the demand left to the
      grid, the eco recharge, and the battery charge at the end of the hour. */
  datatype Hour = Hour(row: Supply, unmet: real, charge: real, after: real)

  /** One iteration of the dispatch loop, starting from charge `battery`. */
  function Step(cfg: Config, battery: real, hour: int, usage: real): (h: Hour)
    // solar: the smaller of the hour's demand and the panels' yield
    ensures h.row.solar <= usage && h.row.solar <= SolarYield(cfg)
    ensures h.row.solar == usage || h.row.solar == SolarYield(cfg)
    ensures 0.0 <= usage && 0 <= cfg.solarPower ==> 0.0 <= h.row.solar
    // battery: all of the remainder if it holds that much, otherwise all it holds
    ensures battery >= usage - h.row.solar ==> h.row.battery == usage - h.row.solar && h.unmet == 0.0
    ensures battery < usage - h.row.solar ==> h.row.battery == battery && h.unmet > 0.0
    ensures h.row.battery <= battery && h.row.battery <= usage - h.row.solar
    // the demand is met exactly; the grid row adds the eco recharge on top
    ensures h.row.solar + h.row.battery + h.unmet == usage && 0.0 <= h.unmet
    ensures h.row.grid == h.unmet + h.charge
    ensures !InEcoWindow(cfg, hour) ==> h.charge == 0.0
    ensures InEcoWindow(cfg, hour) ==> h.after == Min(Capacity(cfg), battery - h.row.battery + RechargeLimit)
    ensures h.after == battery - h.row.battery + h.charge
    // a charge within [0, capacity] stays there
    ensures 0.0 <= battery <= Capacity(cfg) ==>
              0.0 <= h.row.battery && 0.0 <= h.charge <= RechargeLimit && 0.0 <= h.after <= Capacity(cfg)
  {
    var solar := Min(SolarYield(cfg), usage);
    var remainder := usage - solar;
    var fromBattery := if battery >= remainder then remainder else battery;
    var left := battery - fromBattery;
    var unmet := remainder - fromBattery;
    var charge := if InEcoWindow(cfg, hour) then Min(Capacity(cfg) - left, RechargeLimit) else 0.0;
    Hour(Supply(solar, fromBattery, unmet + charge), unmet, charge, left + charge)
  }

  /** The whole run so far: one Hour per demand row, and the charge at the end. */
  datatype Trace = Trace(hours: seq<Hour>, battery: real)

  /** The dispatch loop as a fold over the demand rows, hour i being row i;
      the battery starts full. */
  function Run(cfg: Config, demand: seq<real>): (t: Trace)
    ensures |t.hours| == |demand|
    ensures 0 <= cfg.batteryCapacity ==> 0.0 <= t.battery <= Capacity(cfg)
    ensures 0 <= cfg.batteryCapacity ==>
              forall k :: 0 <= k < |t.hours| ==> 0.0 <= t.hours[k].after <= Capacity(cfg)
    ensures |demand| > 0 ==> t.battery == t.hours[|demand| - 1].after
    decreases |demand|
  {
    if |demand| == 0 then Trace([], Capacity(cfg))
    else
      var prev := Run(cfg, demand[..|demand| - 1]);
      var h := Step(cfg, prev.battery, |demand| - 1, demand[|demand| - 1]);
      Trace(prev.hours + [h], h.after)
  }

  /** The output rows of a sequence of hours, in order. */
  function RowsOf(hs: seq<Hour>): (rs: seq<Supply>)
    ensures |rs| == |hs|
    ensures forall k :: 0 <= k < |hs| ==> rs[k] == hs[k].row
  {
    if |hs| == 0 then [] else RowsOf(hs[..|hs| - 1]) + [hs[|hs| - 1].row]
  }

  /** The table `simulate` returns: one [solar, battery, grid] row per demand row. */
  function Simulation(cfg: Config, demand: seq<real>): seq<Supply>
  {
    RowsOf(Run(cfg, demand).hours)
  }

  /** The charge at the start of hour i. */
  function ChargeBefore(cfg: Config, demand: seq<real>, i: nat): real
    requires i <= |demand|
  {
    Run(cfg, demand[..i]).battery
  }

  /** `simulate`: the loop itself, carrying the battery charge across rows. */
  method Simulate(cfg: Config, demand: seq<real>) returns (result: seq<Supply>)
    ensures |result| == |demand|
    ensures result == Simulation(cfg, demand)
  {
    result := [];
    var battery := Capacity(cfg);
    var i := 0;
    while i < |demand|
      invariant 0 <= i <= |demand|
      invariant battery == Run(cfg, demand[..i]).battery
      invariant result == Simulation(cfg, demand[..i])
    {
      ghost var start := battery;
      var usage := demand[i];
      var hour := i;
      var solar := Min(SolarYield(cfg), usage);
      usage := usage - solar;
      var fromBattery := 0.0;
      var fromGrid := 0.0;

      if battery >= usage {
        fromBattery := usage;
        battery := battery - usage;
        usage := 0.0;
      } else {
        fromBattery := battery;
        usage := usage - battery;
        battery := 0.0;
      }

      fromGrid := usage;
      if InEcoWindow(cfg, hour) {
        var charge := Min(Capacity(cfg) - battery, RechargeLimit);
        battery := battery + charge;
        fromGrid := fromGrid + charge;
      }

      ghost var h := Step(cfg, start, hour, demand[i]);
      assert Supply(solar, fromBattery, fromGrid) == h.row && battery == h.after;
      result := result + [Supply(solar, fromBattery, fromGrid)];
      RunExtend(cfg, demand, i);
      i := i + 1;
    }
    assert demand[..|demand|] == demand;
  }

  /** Appending a demand row appends exactly one step to the run. */
  lemma {:induction false} RunSnoc(cfg: Config, demand: seq<real>, x: real)
    ensures Run(cfg, demand + [x]).hours == Run(cfg, demand).hours + [Step(cfg, Run(cfg, demand).battery, |demand|, x)]
    ensures Simulation(cfg, demand + [x]) == Simulation(cfg, demand) + [Step(cfg, Run(cfg, demand).battery, |demand|, x).row]
    ensures Run(cfg, demand + [x]).battery == Step(cfg, Run(cfg, demand).battery, |demand|, x).after
  {
    assert (demand + [x])[..|demand|] == demand;
    var hs := Run(cfg, demand + [x]).hours;
    assert hs[..|hs| - 1] == Run(cfg, demand).hours;
  }

  /** The same, read on prefixes of one demand sequence: the run over the
      first i + 1 rows is the run over the first i rows and one more Step. */
  lemma {:induction false} RunExtend(cfg: Config, demand: seq<real>, i: nat)
    requires i < |demand|
    ensures Run(cfg, demand[..i + 1]).hours == Run(cfg, demand[..i]).hours + [Step(cfg, Run(cfg, demand[..i]).battery, i, demand[i])]
    ensures Run(cfg, demand[..i + 1]).battery == Step(cfg, Run(cfg, demand[..i]).battery, i, demand[i]).after
    ensures Simulation(cfg, demand[..i + 1])
            == Simulation(cfg, demand[..i]) + [Step(cfg, Run(cfg, demand[..i]).battery, i, demand[i]).row]
  {
    assert demand[..i + 1] == demand[..i] + [demand[i]];
    RunSnoc(cfg, demand[..i], demand[i]);
  }

  /** Earlier hours never depend on later demand: the run over a prefix of the
      demand is the prefix of the run. */
  lemma {:induction false} RunPrefix(cfg: Config, demand: seq<real>, k: nat)
    requires k <= |demand|
    ensures Run(cfg, demand[..k]).hours == Run(cfg, demand).hours[..k]
    decreases |demand|
  {
    if k == |demand| {
      assert demand[..k] == demand;
    } else {
      var n := |demand|;
      var front := demand[..n - 1];
      RunPrefix(cfg, front, k);
      assert front[..k] == demand[..k];
      assert Run(cfg, demand).hours[..n - 1] == Run(cfg, front).hours;
    }
  }

  /** The same for the output table: the rows `simulate` gives for the first k
      demand rows are the first k rows it gives for the whole demand. */
  lemma {:induction false} SimulationPrefix(cfg: Config, demand: seq<real>, k: nat)
    requires k <= |demand|
    ensures Simulation(cfg, demand[..k]) == Simulation(cfg, demand)[..k]
  {
    RunPrefix(cfg, demand, k);
  }

  /** Hour i of the run is one Step from the charge the earlier hours left. */
  lemma {:induction false} HourAt(cfg: Config, demand: seq<real>, i: nat)
    requires i < |demand|
    ensures Run(cfg, demand).hours[i] == Step(cfg, ChargeBefore(cfg, demand, i), i, demand[i])
    ensures Simulation(cfg, demand)[i] == Run(cfg, demand).hours[i].row
  {
    RunPrefix(cfg, demand, i + 1);
    RunExtend(cfg, demand, i);
  }

  /** The per-hour guarantees of the table `simulate` returns, for hour i. */
  lemma {:induction false} HourlySplit(cfg: Config, demand: seq<real>, i: nat)
    requires 0 <= cfg.batteryCapacity && i < |demand|
    ensures 0.0 <= ChargeBefore(cfg, demand, i) <= Capacity(cfg)
    ensures 0.0 <= Run(cfg, demand).hours[i].after <= Capacity(cfg)
    ensures 0.0 <= Simulation(cfg, demand)[i].battery <= ChargeBefore(cfg, demand, i)
    ensures !InEcoWindow(cfg, i) ==>
              Simulation(cfg, demand)[i].solar + Simulation(cfg, demand)[i].battery
                + Simulation(cfg, demand)[i].grid == demand[i]
    ensures 0.0 <= demand[i] && 0 <= cfg.solarPower ==>
              0.0 <= Simulation(cfg, demand)[i].solar <= demand[i]
              && 0.0 <= Simulation(cfg, demand)[i].grid
    ensures InEcoWindow(cfg, i) ==>
              var h := Run(cfg, demand).hours[i];
              h.row.grid == demand[i] - h.row.solar - h.row.battery + h.charge
              && 0.0 <= h.charge <= RechargeLimit
              && h.after == ChargeBefore(cfg, demand, i) - h.row.battery + h.charge
  {
    HourAt(cfg, demand, i);
  }
}
