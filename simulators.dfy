/** The generators that the source writes as loops appending to a list
    (Dashboard.py: simulate_advanced_budget, simulate_advanced_readiness,
    simulate_advanced_deterrence, simulate_missile_tests,
    simulate_nuclear_arsenal_size, simulate_missile_range_evolution). Each
    method follows the source's loop and is proved to compute the
    elementwise series of the Series module. */
module Simulators {
  import opened Config
  import opened Formulas
  import opened Series

  /** The budget loop: the trend, then one multiplier chosen by an if/elif
      chain (whose last branch, from 2020, is unreachable). */
  method SimulateBudget(years: seq<int>, config: Config) returns (budgets: seq<real>)
    ensures budgets == Budget(years, config)
  {
    var budgetBase := BudgetBase(config);
    budgets := [];
    for i := 0 to |years|
      invariant |budgets| == i
      invariant forall k :: 0 <= k < i ==> budgets[k] == BudgetAt(budgetBase, years[k])
    {
      var y := years[i];
      var base := budgetBase * (1.0 + 0.065 * (y - 2000) as real);
      ghost var trend := base;
      assert trend == budgetBase * (1.0 + 0.065 * Elapsed(y));
      if 2002 <= y <= 2004 {
        base := base * 1.1;
      } else if 2008 <= y <= 2010 {
        base := base * 1.15;
      } else if y >= 2016 {
        base := base * 1.2;
      } else if y >= 2020 {
        base := base * 1.25;
      }
      assert base == BudgetAt(budgetBase, y) by {
        BudgetFactorByYear(y);
        assert base == trend * BudgetFactor(y);
      }
      budgets := budgets + [base];
    }
  }

  /** The readiness loop: the trend, then the reform bonuses added one by
      one, then the cap of 90. */
  method SimulateReadiness(years: seq<int>) returns (readiness: seq<real>)
    ensures readiness == Readiness(years)
  {
    readiness := [];
    for i := 0 to |years|
      invariant |readiness| == i
      invariant forall k :: 0 <= k < i ==> readiness[k] == ReadinessAt(years[k])
    {
      var y := years[i];
      var base := 65.0 + 1.5 * (y - 2000) as real;
      if y >= 2008 {
        base := base + 8.0;
      }
      if y >= 2014 {
        base := base + 7.0;
      }
      if y >= 2020 {
        base := base + 5.0;
      }
      readiness := readiness + [if base <= 90.0 then base else 90.0];
    }
  }

  /** The deterrence loop: one segment per threshold, then the cap of 95. */
  method SimulateDeterrence(years: seq<int>) returns (deterrence: seq<int>)
    ensures deterrence == Deterrence(years)
  {
    deterrence := [];
    for i := 0 to |years|
      invariant |deterrence| == i
      invariant forall k :: 0 <= k < i ==> deterrence[k] == DeterrenceAt(years[k])
    {
      var y := years[i];
      var base;
      if y < 1998 {
        base := 0;
      } else if y < 2003 {
        base := 40;
      } else if y < 2012 {
        base := 60;
      } else if y < 2018 {
        base := 75;
      } else {
        base := 85 + 1 * (y - 2018);
      }
      deterrence := deterrence + [if base <= 95 then base else 95];
    }
  }

  /** The missile test loop: one segment per threshold, integer counts. */
  method SimulateMissileTests(years: seq<int>) returns (tests: seq<int>)
    ensures tests == MissileTests(years)
  {
    tests := [];
    for i := 0 to |years|
      invariant |tests| == i
      invariant forall k :: 0 <= k < i ==> tests[k] == MissileTestsAt(years[k])
    {
      var y := years[i];
      if y < 2006 {
        tests := tests + [2];
      } else if y < 2012 {
        tests := tests + [4 + (y - 2006)];
      } else {
        tests := tests + [10 + 2 * (y - 2012)];
      }
    }
  }

  /** The stockpile: a loop collecting the uncapped segments, then a pass
      capping each value at 300. */
  method SimulateNuclearArsenalSize(years: seq<int>) returns (capped: seq<int>)
    ensures capped == Stockpile(years)
  {
    var stock := [];
    for i := 0 to |years|
      invariant |stock| == i
      invariant forall k :: 0 <= k < i ==> stock[k] == StockpileRaw(years[k])
    {
      var y := years[i];
      if y < 1998 {
        stock := stock + [0];
      } else if y < 2005 {
        stock := stock + [50 + 5 * (y - 1998)];
      } else if y < 2015 {
        stock := stock + [80 + 8 * (y - 2005)];
      } else {
        stock := stock + [150 + 10 * (y - 2015)];
      }
    }
    capped := seq(|stock|, i requires 0 <= i < |stock| => if stock[i] <= 300 then stock[i] else 300);
  }

  /** The missile range loop: one segment per missile generation. */
  method SimulateMissileRangeEvolution(years: seq<int>) returns (ranges: seq<int>)
    ensures ranges == MissileRange(years)
  {
    ranges := [];
    for i := 0 to |years|
      invariant |ranges| == i
      invariant forall k :: 0 <= k < i ==> ranges[k] == MissileRangeAt(years[k])
    {
      var y := years[i];
      if y < 2002 {
        ranges := ranges + [250];
      } else if y < 2007 {
        ranges := ranges + [700 + 200 * (y - 2002)];
      } else if y < 2012 {
        ranges := ranges + [2000 + 500 * (y - 2007)];
      } else if y < 2018 {
        ranges := ranges + [3500 + 500 * (y - 2012)];
      } else {
        ranges := ranges + [5000];
      }
    }
  }
}
