/** The two built-in 24-hour demand profiles and what the simulation makes of
    them under the sidebar's default settings. */
module Profiles {
  import opened Dispatch
  import opened Costs
  import opened Savings
  import opened Comparison

  /** Python's `[x] * n`. */
  function Repeat(x: real, n: nat): (r: seq<real>)
    ensures |r| == n
    ensures forall k :: 0 <= k < n ==> r[k] == x
  {
    if n == 0 then [] else Repeat(x, n - 1) + [x]
  }

  /** The home profile, in kWh per hour from midnight. */
  function HomeProfile(): seq<real>
  {
    Repeat(0.3, 6) + Repeat(0.6, 2) + Repeat(0.4, 4) + Repeat(0.8, 5) + Repeat(1.0, 4) + Repeat(0.6, 3)
  }

  /** The office profile: a low base load with eight busy hours from 8:00. */
  function OfficeProfile(): seq<real>
  {
    Repeat(0.2, 8) + Repeat(1.2, 8) + Repeat(0.2, 8)
  }

  /** What the sidebar shows before anyone touches it: a 2 kWh battery, 1000 W
      of panels, 35 yen per kWh, eco charging from 23:00 to 6:00. */
  function DefaultConfig(): (cfg: Config)
    ensures SidebarConfig(cfg)
  {
    Config(2, 1000, 35, 23, 6)
  }

  lemma ScaleSucc(n: nat, x: real)
    requires 0 < n
    ensures (n - 1) as real * x + x == n as real * x
  {
  }

  lemma {:induction false} SumRepeat(x: real, n: nat)
    ensures Sum(Repeat(x, n)) == n as real * x
    decreases n
  {
    if n > 0 {
      SumRepeat(x, n - 1);
      SumSnoc(Repeat(x, n - 1), x);
      ScaleSucc(n, x);
    }
  }

  /** Both profiles cover a day, hour by hour, with positive demand. */
  lemma ProfilesCoverADay()
    ensures |HomeProfile()| == 24 && |OfficeProfile()| == 24
    ensures forall k :: 0 <= k < 24 ==> 0.0 < HomeProfile()[k] <= 1.0
    ensures forall k :: 0 <= k < 24 ==> OfficeProfile()[k] == if 8 <= k < 16 then 1.2 else 0.2
  {
  }

  lemma HomeDemandTotal()
    ensures Sum(HomeProfile()) == 14.4
  {
    var a, b, c := Repeat(0.3, 6), Repeat(0.6, 2), Repeat(0.4, 4);
    var d, e, f := Repeat(0.8, 5), Repeat(1.0, 4), Repeat(0.6, 3);
    SumRepeat(0.3, 6); SumRepeat(0.6, 2); SumRepeat(0.4, 4);
    SumRepeat(0.8, 5); SumRepeat(1.0, 4); SumRepeat(0.6, 3);
    SumAppend(a, b);
    SumAppend(a + b, c);
    SumAppend(a + b + c, d);
    SumAppend(a + b + c + d, e);
    SumAppend(a + b + c + d + e, f);
  }

  /** The first screen of the app: with the default settings the panels cover
      every hour of the home profile, so the whole 504 yen is saved. */
  lemma HomeDefaultScenario()
    ensures forall k :: 0 <= k < 24 ==>
              Simulation(DefaultConfig(), HomeProfile())[k] == Supply(HomeProfile()[k], 0.0, 0.0)
    ensures BeforeCost(DefaultConfig(), HomeProfile()) == 504.0
    ensures AfterCost(DefaultConfig(), Simulation(DefaultConfig(), HomeProfile())) == 0.0
    ensures Saved(DefaultConfig(), HomeProfile(), Simulation(DefaultConfig(), HomeProfile())) == 504.0
  {
    ProfilesCoverADay();
    HomeDemandTotal();
    SolarCoversDemand(DefaultConfig(), HomeProfile());
    SolarCoversDemandCosts(DefaultConfig(), HomeProfile());
  }

  /** Battery charge at the start of hour i of the office day under the
      default settings: full until 8:00, 0.2 kWh less after each busy hour,
      then topped up by 1 kWh in the eco hour from 23:00. */
  function OfficeCharge(i: nat): real
  {
    if i <= 8 then 2.0
    else if i <= 16 then 2.0 - 0.2 * (i - 8) as real
    else if i <= 23 then 0.4
    else 1.4
  }

  lemma OfficeDemandTotal()
    ensures Sum(OfficeProfile()) == 12.8
  {
    var a, b := Repeat(0.2, 8), Repeat(1.2, 8);
    SumRepeat(0.2, 8); SumRepeat(1.2, 8);
    SumAppend(a, b);
    SumAppend(a + b, a);
  }

  /** The office load shape, hour by hour. */
  predicate OfficeShaped(day: seq<real>)
  {
    |day| == 24 && forall k :: 0 <= k < 24 ==> day[k] == if 8 <= k < 16 then 1.2 else 0.2
  }

  /** One hour of the office day under the default settings. */
  lemma OfficeHour(day: seq<real>, i: nat)
    requires OfficeShaped(day) && i < 24
    ensures var h := Step(DefaultConfig(), OfficeCharge(i), i, day[i]);
            h.after == OfficeCharge(i + 1) && h.row.grid == if i == 23 then 1.0 else 0.0
  {
  }

  /** Extending the office day by one hour keeps the expected charge and
      grid total. */
  lemma OfficeExtend(day: seq<real>, i: nat)
    requires OfficeShaped(day) && i < 24
    requires Run(DefaultConfig(), day[..i]).battery == OfficeCharge(i)
    requires Total(Simulation(DefaultConfig(), day[..i]), Grid) == 0.0
    ensures Run(DefaultConfig(), day[..i + 1]).battery == OfficeCharge(i + 1)
    ensures Total(Simulation(DefaultConfig(), day[..i + 1]), Grid) == if i == 23 then 1.0 else 0.0
  {
    var cfg := DefaultConfig();
    var rows := Simulation(cfg, day[..i]);
    var h := Step(cfg, OfficeCharge(i), i, day[i]);
    OfficeHour(day, i);
    RunExtend(cfg, day, i);
    ColumnSnoc(rows, h.row, Grid);
    SumSnoc(Column(rows, Grid), h.row.grid);
  }

  /** The office day hour by hour: the battery covers the 0.2 kWh the panels
      miss in each busy hour, and the only grid purchase is the 1 kWh eco
      recharge at 23:00. */
  lemma OfficeDefaultDay(day: seq<real>)
    requires OfficeShaped(day)
    ensures Run(DefaultConfig(), day).battery == 1.4
    ensures Total(Simulation(DefaultConfig(), day), Grid) == 1.0
  {
    var i := 0;
    while i < 24
      invariant 0 <= i <= 24
      invariant Run(DefaultConfig(), day[..i]).battery == OfficeCharge(i)
      invariant Total(Simulation(DefaultConfig(), day[..i]), Grid) == if i == 24 then 1.0 else 0.0
    {
      OfficeExtend(day, i);
      i := i + 1;
    }
    assert day[..24] == day;
  }

  /** ... so 35 of the 448 yen are still paid and 413 are saved. */
  lemma OfficeDefaultScenario()
    ensures BeforeCost(DefaultConfig(), OfficeProfile()) == 448.0
    ensures AfterCost(DefaultConfig(), Simulation(DefaultConfig(), OfficeProfile())) == 35.0
    ensures Saved(DefaultConfig(), OfficeProfile(), Simulation(DefaultConfig(), OfficeProfile())) == 413.0
  {
    ProfilesCoverADay();
    OfficeDefaultDay(OfficeProfile());
    OfficeDemandTotal();
    AfterCostIsGridTotal(DefaultConfig(), Simulation(DefaultConfig(), OfficeProfile()));
  }
}
