/** Scenario analytics over a loaded portfolio: stress tests (per-class shocks) and the
    monthly compounding growth projection. */
module ConsumerScenarios {
  import opened Wrappers
  import opened ConsumerPortfolio

  /** The key of the fallback shock inside a scenario's shock mapping. */
  const DefaultShockKey: string := "default"

  /** One configured stress scenario; an absent `shocks` section is an empty mapping. */
  datatype Scenario = Scenario(description: Option<string>, shocks: map<string, real>)

  datatype StressOutcome = StressOutcome(name: string, description: string, pnl: real, pnlPct: real)

  datatype ProjectionPoint = ProjectionPoint(month: int, projectedValue: real)

  /** The shock of an asset class: its own entry, else the scenario's "default", else 0. */
  function ShockFor(shocks: map<string, real>, assetClass: string): real {
    if assetClass in shocks then shocks[assetClass]
    else if DefaultShockKey in shocks then shocks[DefaultShockKey]
    else 0.0
  }

  /** Sum of a list of amounts, left to right (Python's `sum`). */
  function Sum(xs: seq<real>): real {
    if xs == [] then 0.0 else Sum(xs[..|xs| - 1]) + xs[|xs| - 1]
  }

  /** A row's value under the scenario: value x (1 + shock). */
  function ShockedValue(p: Position, shocks: map<string, real>): real {
    p.value * (1.0 + ShockFor(shocks, p.assetClass))
  }

  /** The shocked value of every row, in frame order. */
  function ShockedValues(ps: seq<Position>, shocks: map<string, real>): (vs: seq<real>)
    ensures |vs| == |ps|
  {
    if ps == [] then []
    else ShockedValues(ps[..|ps| - 1], shocks) + [ShockedValue(ps[|ps| - 1], shocks)]
  }

  /** Sum over the rows of value x shock: the first-order exposure to the scenario. */
  function Exposure(ps: seq<Position>, shocks: map<string, real>): real {
    if ps == [] then 0.0
    else Exposure(ps[..|ps| - 1], shocks) + ps[|ps| - 1].value * ShockFor(shocks, ps[|ps| - 1].assetClass)
  }

  /** P&L relative to the current value, guarded against a zero current value. */
  function PnlPct(pnl: real, current: real): real {
    if current != 0.0 then pnl / current else 0.0
  }

  /** What one scenario reports: its name, its description ("" when absent) and the P&L,
      which is the shock-weighted exposure of the rows, with its guarded percentage. */
  function OutcomeOf(ps: seq<Position>, name: string, sc: Scenario): (o: StressOutcome)
    ensures o.name == name && o.description == sc.description.GetOr("")
    ensures o.pnl == Exposure(ps, sc.shocks)
    ensures o.pnlPct == PnlPct(o.pnl, TotalValue(ps))
  {
    var pnl := Sum(ShockedValues(ps, sc.shocks)) - TotalValue(ps);
    PnlIsExposure(ps, sc.shocks);
    StressOutcome(name, sc.description.GetOr(""), pnl, PnlPct(pnl, TotalValue(ps)))
  }

  /** `ConsumerAnalyticsAgent.run_stress_tests`: one outcome per configured scenario, in
      the configuration's order. */
  method RunStressTests(ps: seq<Position>, scenarios: seq<(string, Scenario)>)
    returns (outcomes: seq<StressOutcome>)
    ensures |outcomes| == |scenarios|
    ensures forall i :: 0 <= i < |scenarios| ==> outcomes[i] == OutcomeOf(ps, scenarios[i].0, scenarios[i].1)
  {
    outcomes := [];
    for i := 0 to |scenarios|
      invariant |outcomes| == i
      invariant forall k :: 0 <= k < i ==> outcomes[k] == OutcomeOf(ps, scenarios[k].0, scenarios[k].1)
    {
      var outcome := StressTest(ps, scenarios[i].0, scenarios[i].1);
      outcomes := outcomes + [outcome];
    }
  }

  /** The body of the scenario loop of `run_stress_tests`. */
  method StressTest(ps: seq<Position>, name: string, scenario: Scenario) returns (outcome: StressOutcome)
    ensures outcome == OutcomeOf(ps, name, scenario)
  {
    var shockedValues := ShockValues(ps, scenario.shocks);
    var scenarioValue := Sum(shockedValues);
    var currentValue := TotalValue(ps);
    var pnl := scenarioValue - currentValue;
    var pnlPct := if currentValue != 0.0 then pnl / currentValue else 0.0;
    outcome := StressOutcome(name, scenario.description.GetOr(""), pnl, pnlPct);
  }

  /** The inner loop of `run_stress_tests`: each row's value times one plus its shock. */
  method ShockValues(ps: seq<Position>, shocks: map<string, real>) returns (shockedValues: seq<real>)
    ensures shockedValues == ShockedValues(ps, shocks)
  {
    shockedValues := [];
    for j := 0 to |ps|
      invariant shockedValues == ShockedValues(ps[..j], shocks)
    {
      var shock := ShockFor(shocks, ps[j].assetClass);
      ShockedStep(ps, shocks, j);
      var shocked := ps[j].value * (1.0 + shock);
      assert shocked == ShockedValue(ps[j], shocks);
      shockedValues := shockedValues + [shocked];
    }
    assert ps[..|ps|] == ps;
  }

  lemma ShockedStep(ps: seq<Position>, shocks: map<string, real>, j: nat)
    requires j < |ps|
    ensures ShockedValues(ps[..j + 1], shocks) == ShockedValues(ps[..j], shocks) + [ShockedValue(ps[j], shocks)]
  {
    assert ps[..j + 1][..j] == ps[..j];
  }

  /** The scenario's P&L is the sum of value x shock over the positions. */
  lemma {:induction false} PnlIsExposure(ps: seq<Position>, shocks: map<string, real>)
    ensures Sum(ShockedValues(ps, shocks)) - TotalValue(ps) == Exposure(ps, shocks)
  {
    if ps != [] {
      var init := ps[..|ps| - 1];
      PnlIsExposure(init, shocks);
      var vs := ShockedValues(ps, shocks);
      assert vs[..|vs| - 1] == ShockedValues(init, shocks);
    }
  }

  /** A scenario whose shocks are all zero (or absent) loses and gains nothing. */
  lemma {:induction false} ZeroShocksAreNeutral(ps: seq<Position>, name: string, sc: Scenario)
    requires forall k :: k in sc.shocks ==> sc.shocks[k] == 0.0
    ensures OutcomeOf(ps, name, sc).pnl == 0.0
    ensures OutcomeOf(ps, name, sc).pnlPct == 0.0
  {
    PnlIsExposure(ps, sc.shocks);
    ZeroExposure(ps, sc.shocks);
  }

  lemma {:induction false} ZeroExposure(ps: seq<Position>, shocks: map<string, real>)
    requires forall k :: k in shocks ==> shocks[k] == 0.0
    ensures Exposure(ps, shocks) == 0.0
  {
    if ps != [] {
      ZeroExposure(ps[..|ps| - 1], shocks);
    }
  }

  /** The percentage is the P&L over the current value, and exactly zero when that value is zero. */
  lemma PnlPctGuard(pnl: real, current: real)
    ensures current != 0.0 ==> PnlPct(pnl, current) * current == pnl
    ensures current == 0.0 ==> PnlPct(pnl, current) == 0.0
  {
  }

  /** A uniform shock s moves the portfolio by s times its value. */
  lemma {:induction false} UniformShock(ps: seq<Position>, shocks: map<string, real>, s: real)
    requires forall i :: 0 <= i < |ps| ==> ShockFor(shocks, ps[i].assetClass) == s
    ensures Exposure(ps, shocks) == s * TotalValue(ps)
  {
    if ps != [] {
      UniformShock(ps[..|ps| - 1], shocks, s);
    }
  }

  // ---- growth projection --------------------------------------------------------

  /** The expected annual return of an asset class, 0 when it has none configured. */
  function ExpectedReturn(expectedReturns: map<string, real>, assetClass: string): real {
    if assetClass in expectedReturns then expectedReturns[assetClass] else 0.0
  }

  /** The blended monthly return: sum of weight x annual return / 12 over the rows. */
  function MonthlyReturn(ps: seq<Position>, expectedReturns: map<string, real>): real {
    if ps == [] then 0.0
    else
      var p := ps[|ps| - 1];
      MonthlyReturn(ps[..|ps| - 1], expectedReturns) + p.weight * (ExpectedReturn(expectedReturns, p.assetClass) / 12.0)
  }

  /** The value after `n` months of compounding at `r` with contribution `c` each month. */
  function Compound(start: real, r: real, c: real, n: nat): real {
    if n == 0 then start else Compound(start, r, c, n - 1) * (1.0 + r) + c
  }

  /** The first `n` points of the projection: month k carries the value after k months. */
  function Projection(start: real, r: real, c: real, n: nat): (pts: seq<ProjectionPoint>)
    ensures |pts| == n
  {
    if n == 0 then [] else Projection(start, r, c, n - 1) + [ProjectionPoint(n, Compound(start, r, c, n))]
  }

  /** Point k of the projection is month k + 1 with the value compounded k + 1 times. */
  lemma {:induction false} ProjectionPoints(start: real, r: real, c: real, n: nat)
    ensures forall k :: 0 <= k < n ==>
      Projection(start, r, c, n)[k].month == k + 1 &&
      Projection(start, r, c, n)[k].projectedValue == Compound(start, r, c, k + 1)
  {
    if n > 0 {
      ProjectionPoints(start, r, c, n - 1);
    }
  }

  /** `ConsumerAnalyticsAgent.project_growth`: one point per month 1..months, each the
      previous total grown by the blended monthly return of the original weights plus the
      monthly contribution (the `monthly_contribution` key of `action_templates`, 0 when not
      configured). The horizon defaults to 12 months. */
  method ProjectGrowth(ps: seq<Position>, expectedReturns: map<string, real>,
                       monthlyContribution: Option<real>, months: int := 12)
    returns (projection: seq<ProjectionPoint>)
    ensures projection == Projection(TotalValue(ps), MonthlyReturn(ps, expectedReturns),
                                     monthlyContribution.GetOr(0.0), if months > 0 then months else 0)
  {
    var contribution := monthlyContribution.GetOr(0.0);
    ghost var r := MonthlyReturn(ps, expectedReturns);
    ghost var start := TotalValue(ps);
    projection := [];
    var total := TotalValue(ps);
    var month := 1;
    while month <= months
      invariant 1 <= month <= (if months > 0 then months else 0) + 1
      invariant total == Compound(start, r, contribution, month - 1)
      invariant projection == Projection(start, r, contribution, month - 1)
    {
      var monthlyReturn := BlendedMonthlyReturn(ps, expectedReturns);
      total := total * (1.0 + monthlyReturn) + contribution;
      projection := projection + [ProjectionPoint(month, total)];
      month := month + 1;
    }
  }

  /** The inner loop of `project_growth`: weight x annual return / 12, summed over the rows. */
  method BlendedMonthlyReturn(ps: seq<Position>, expectedReturns: map<string, real>) returns (monthlyReturn: real)
    ensures monthlyReturn == MonthlyReturn(ps, expectedReturns)
  {
    monthlyReturn := 0.0;
    for j := 0 to |ps|
      invariant monthlyReturn == MonthlyReturn(ps[..j], expectedReturns)
    {
      var assetReturn := ExpectedReturn(expectedReturns, ps[j].assetClass);
      assert ps[..j + 1][..j] == ps[..j];
      monthlyReturn := monthlyReturn + ps[j].weight * (assetReturn / 12.0);
    }
    assert ps[..|ps|] == ps;
  }

  /** With non-negative value, return and contribution, the projection never falls. */
  lemma {:induction false} ProjectionNonDecreasing(start: real, r: real, c: real, n: nat)
    requires start >= 0.0 && r >= 0.0 && c >= 0.0
    ensures 0.0 <= Compound(start, r, c, n) <= Compound(start, r, c, n + 1)
  {
    if n > 0 {
      ProjectionNonDecreasing(start, r, c, n - 1);
    }
    var v := Compound(start, r, c, n);
    assert v * (1.0 + r) == v + v * r;
    assert v * r >= 0.0;
  }

  lemma {:induction false} MonthlyReturnOfAbsentClasses(ps: seq<Position>, expectedReturns: map<string, real>)
    requires forall i :: 0 <= i < |ps| ==> ps[i].assetClass !in expectedReturns
    ensures MonthlyReturn(ps, expectedReturns) == 0.0
  {
    if ps != [] {
      MonthlyReturnOfAbsentClasses(ps[..|ps| - 1], expectedReturns);
    }
  }

  /** Classes without a configured return contribute nothing, so a portfolio none of whose
      classes has one grows only by the contributions: start + n c. */
  lemma NoReturnsGrowByContributions(ps: seq<Position>, expectedReturns: map<string, real>, c: real, n: nat)
    requires forall i :: 0 <= i < |ps| ==> ps[i].assetClass !in expectedReturns
    ensures Compound(TotalValue(ps), MonthlyReturn(ps, expectedReturns), c, n) == TotalValue(ps) + n as real * c
  {
    MonthlyReturnOfAbsentClasses(ps, expectedReturns);
    FlatGrowth(TotalValue(ps), c, n);
  }

  lemma {:induction false} FlatGrowth(start: real, c: real, n: nat)
    ensures Compound(start, 0.0, c, n) == start + n as real * c
  {
    if n > 0 {
      FlatGrowth(start, c, n - 1);
    }
  }
}
