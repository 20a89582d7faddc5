/** The per-year formulas of the indicator generators (Dashboard.py,
    simulate_*): every indicator value is a function of the year alone, or
    of the year and one base value of the configuration. Decimal constants
    are exact reals; the source computes them in binary floating point. */
module Formulas {
  import opened Wrappers

  /** Years since 2000, the origin of every linear trend. */
  function Elapsed(y: int): real { (y - 2000) as real }

  function MinInt(a: int, b: int): int { if a <= b then a else b }
  function MaxInt(a: int, b: int): int { if a >= b then a else b }
  function MinReal(a: real, b: real): real { if a <= b then a else b }

  // ---------------------------------------------------------------------
  // Event-windowed multiplier (budget)

  /** A window of years `first ..= last` (unbounded above when `last` is
      None) and the factor that applies inside it. */
  datatype Window = Window(first: int, last: Option<int>, factor: real)

  predicate Covers(w: Window, y: int) {
    w.first <= y && (w.last.None? || y <= w.last.value)
  }

  /** The budget's windows in the order the source tests them: tensions
      2002-2004, accelerated modernisation 2008-2010, "Make in India" from
      2016, tensions from 2020. */
  function BudgetWindows(): seq<Window> {
    [ Window(2002, Some(2004), 1.1), Window(2008, Some(2010), 1.15),
      Window(2016, None, 1.2), Window(2020, None, 1.25) ]
  }

  /** The index of the first window that covers `y`, if any. */
  function FirstMatch(ws: seq<Window>, y: int): (r: Option<nat>)
    ensures r.Some? ==> r.value < |ws| && Covers(ws[r.value], y)
    ensures r.Some? ==> forall j :: 0 <= j < r.value ==> !Covers(ws[j], y)
    ensures r.None? ==> forall j :: 0 <= j < |ws| ==> !Covers(ws[j], y)
  {
    if |ws| == 0 then None
    else if Covers(ws[0], y) then Some(0)
    else match FirstMatch(ws[1..], y)
      case None => None
      case Some(i) => Some(i + 1)
  }

  /** The factor of the first covering window, 1 when none covers `y`. */
  function BudgetFactor(y: int): real {
    var ws := BudgetWindows();
    match FirstMatch(ws, y)
    case Some(i) => ws[i].factor
    case None => 1.0
  }

  /** The factor by year, as the source's if/elif chain yields it: the
      fourth window (from 2020, factor 1.25) is never selected, because the
      third (from 2016) already covers every year it covers. */
  lemma BudgetFactorByYear(y: int)
    ensures BudgetFactor(y) ==
      if 2002 <= y <= 2004 then 1.1
      else if 2008 <= y <= 2010 then 1.15
      else if y >= 2016 then 1.2
      else 1.0
  {
    var ws := BudgetWindows();
    assert Covers(ws[0], y) <==> 2002 <= y <= 2004;
    assert Covers(ws[1], y) <==> 2008 <= y <= 2010;
    assert Covers(ws[2], y) <==> y >= 2016;
    assert Covers(ws[3], y) ==> Covers(ws[2], y);
  }

  /** The 1.25 factor of the 2020 window can never apply. */
  lemma LateWindowNeverApplies(y: int)
    ensures FirstMatch(BudgetWindows(), y) != Some(3)
    ensures BudgetFactor(y) != 1.25
  {
    var ws := BudgetWindows();
    assert Covers(ws[3], y) ==> Covers(ws[2], y);
    BudgetFactorByYear(y);
  }

  /** Budget of year `y` from base `b`: linear growth of 6.5% of the base a
      year, times the factor of the first matching window. */
  function BudgetAt(b: real, y: int): real {
    b * (1.0 + 0.065 * Elapsed(y)) * BudgetFactor(y)
  }

  /** Inside the event windows the budget is the plain trend scaled by
      the window's factor; outside them it is the plain trend. */
  lemma BudgetAtWindows(b: real, y: int)
    ensures var trend := b * (1.0 + 0.065 * Elapsed(y));
      && (2002 <= y <= 2004 ==> BudgetAt(b, y) == trend * 1.1)
      && (2008 <= y <= 2010 ==> BudgetAt(b, y) == trend * 1.15)
      && (y >= 2016 ==> BudgetAt(b, y) == trend * 1.2)
      && (y < 2002 || 2005 <= y <= 2007 || 2011 <= y <= 2015 ==> BudgetAt(b, y) == trend)
  {
    BudgetFactorByYear(y);
  }

  // ---------------------------------------------------------------------
  // Linear-from-base and seasonal formulas

  /** Personnel of year `y`: 0.8% linear growth of the base per year. */
  function PersonnelAt(b: real, y: int): real { b * (1.0 + 0.008 * Elapsed(y)) }

  /** With a positive base, personnel strictly grows from year to year. */
  lemma PersonnelIncreasing(b: real, y1: int, y2: int)
    requires b > 0.0 && y1 < y2
    ensures PersonnelAt(b, y1) < PersonnelAt(b, y2)
  {
    var d := Elapsed(y2) - Elapsed(y1);
    assert d > 0.0;
    assert PersonnelAt(b, y2) - PersonnelAt(b, y1) == b * 0.008 * d;
    assert b * 0.008 > 0.0;
    assert (b * 0.008) * d > 0.0;
  }

  /** Share of GDP of year `y`: 2.5% rising by 0.1 point a year. */
  function GdpShareAt(y: int): real { 2.5 + 0.1 * Elapsed(y) }

  /** The share strictly grows, from 2.5% in 2000 to 5.2% in 2027. */
  lemma GdpShareIncreasing(y1: int, y2: int)
    requires y1 < y2
    ensures GdpShareAt(y1) < GdpShareAt(y2)
    ensures GdpShareAt(2000) == 2.5 && GdpShareAt(2027) == 5.2
  {
  }

  /** sin(2 pi k / 4) for an integer k: 0, 1, 0, -1 by k modulo 4. */
  function QuarterSine(k: int): (s: real)
    ensures -1.0 <= s <= 1.0
  {
    var m := k % 4;
    if m == 1 then 1.0 else if m == 3 then -1.0 else 0.0
  }

  /** Exercises of year `y`: base plus 4 a year plus a seasonal term of
      amplitude 8 and period 4 years. */
  function ExercisesAt(b: real, y: int): (v: real)
    ensures b + 4.0 * Elapsed(y) - 8.0 <= v <= b + 4.0 * Elapsed(y) + 8.0
  {
    b + 4.0 * Elapsed(y) + 8.0 * QuarterSine(y - 2000)
  }

  /** The seasonal term has period 4: four years later the value is the
      trend's 16 higher, and on even offsets from 2000 the term vanishes. */
  lemma ExercisesSeasonal(b: real, y: int)
    ensures ExercisesAt(b, y + 4) == ExercisesAt(b, y) + 16.0
    ensures (y - 2000) % 2 == 0 ==> ExercisesAt(b, y) == b + 4.0 * Elapsed(y)
    ensures (y - 2000) % 4 == 1 ==> ExercisesAt(b, y) == b + 4.0 * Elapsed(y) + 8.0
    ensures (y - 2000) % 4 == 3 ==> ExercisesAt(b, y) == b + 4.0 * Elapsed(y) - 8.0
  {
    assert (y + 4 - 2000) % 4 == (y - 2000) % 4;
  }

  // ---------------------------------------------------------------------
  // Readiness: cumulative step bonuses, capped

  /** Reform bonuses accumulated by year `y`: 8 from 2008, 7 more from
      2014, 5 more from 2020. */
  function StepBonus(y: int): real {
    (if y >= 2008 then 8.0 else 0.0) + (if y >= 2014 then 7.0 else 0.0) + (if y >= 2020 then 5.0 else 0.0)
  }

  /** Operational readiness of year `y`, never above 90. */
  function ReadinessAt(y: int): (v: real)
    ensures v <= 90.0
  {
    MinReal(65.0 + 1.5 * Elapsed(y) + StepBonus(y), 90.0)
  }

  /** Readiness never decreases from one year to a later one. */
  lemma ReadinessMonotone(y1: int, y2: int)
    requires y1 <= y2
    ensures ReadinessAt(y1) <= ReadinessAt(y2)
  {
    assert StepBonus(y1) <= StepBonus(y2);
    assert Elapsed(y1) <= Elapsed(y2);
  }

  /** Readiness sits at its cap of 90 exactly from 2012 on. */
  lemma ReadinessCappedIff(y: int)
    ensures ReadinessAt(y) == 90.0 <==> y >= 2012
  {
    if y <= 2011 {
      assert StepBonus(y) <= 8.0;
      assert 65.0 + 1.5 * Elapsed(y) + StepBonus(y) <= 89.5;
    } else {
      assert StepBonus(y) >= 8.0;
    }
  }

  // ---------------------------------------------------------------------
  // Piecewise-by-year-threshold formulas

  /** Deterrence capacity of year `y`: 0 before 1998, 40 before 2003, 60
      before 2012, 75 before 2018, then 85 plus one a year; capped at 95. */
  function DeterrenceAt(y: int): (v: int)
    ensures 0 <= v <= 95
  {
    var b :=
      if y < 1998 then 0
      else if y < 2003 then 40
      else if y < 2012 then 60
      else if y < 2018 then 75
      else 85 + 1 * (y - 2018);
    MinInt(b, 95)
  }

  /** Deterrence never decreases, and reaches its cap exactly from 2028 on. */
  lemma DeterrenceMonotone(y1: int, y2: int)
    requires y1 <= y2
    ensures DeterrenceAt(y1) <= DeterrenceAt(y2)
    ensures DeterrenceAt(y2) == 95 <==> y2 >= 2028
  {
  }

  /** Values on both sides of each breakpoint: the series jumps there. */
  lemma DeterrenceBreakpoints()
    ensures DeterrenceAt(1997) == 0 && DeterrenceAt(1998) == 40 && DeterrenceAt(2000) == 40
    ensures DeterrenceAt(2002) == 40 && DeterrenceAt(2003) == 60
    ensures DeterrenceAt(2011) == 60 && DeterrenceAt(2012) == 75
    ensures DeterrenceAt(2017) == 75 && DeterrenceAt(2018) == 85
    ensures DeterrenceAt(2027) == 94
  {
  }

  /** Missile tests of year `y` (an integer count): 2 a year before 2006,
      4 rising by one a year until 2011, 10 rising by two a year from 2012. */
  function MissileTestsAt(y: int): (v: int)
    ensures v >= 2
    ensures y >= 2006 ==> v >= 4
  {
    if y < 2006 then 2
    else if y < 2012 then 4 + (y - 2006)
    else 10 + 2 * (y - 2012)
  }

  /** The number of tests never decreases, and grows strictly from 2005 on. */
  lemma MissileTestsMonotone(y1: int, y2: int)
    requires y1 <= y2
    ensures MissileTestsAt(y1) <= MissileTestsAt(y2)
    ensures 2005 <= y1 < y2 ==> MissileTestsAt(y1) < MissileTestsAt(y2)
  {
  }

  lemma MissileTestsBreakpoints()
    ensures MissileTestsAt(2005) == 2 && MissileTestsAt(2006) == 4
    ensures MissileTestsAt(2011) == 9 && MissileTestsAt(2012) == 10
    ensures MissileTestsAt(2027) == 40
  {
  }

  /** Warhead stockpile before the cap: 0 before 1998, 50 plus 5 a year
      until 2004, 80 plus 8 a year until 2014, 150 plus 10 a year after. */
  function StockpileRaw(y: int): int {
    if y < 1998 then 0
    else if y < 2005 then 50 + 5 * (y - 1998)
    else if y < 2015 then 80 + 8 * (y - 2005)
    else 150 + 10 * (y - 2015)
  }

  /** Warhead stockpile of year `y`, between 0 and the cap of 300. */
  function StockpileAt(y: int): (v: int)
    ensures 0 <= v <= 300
    ensures v == 300 <==> y >= 2030
  {
    MinInt(StockpileRaw(y), 300)
  }

  /** The stockpile is not monotone: it falls from 152 to 150 at 2015. */
  lemma StockpileBreakpoints()
    ensures StockpileAt(1997) == 0 && StockpileAt(1998) == 50
    ensures StockpileAt(2004) == 80 && StockpileAt(2005) == 80
    ensures StockpileAt(2014) == 152 && StockpileAt(2015) == 150
    ensures StockpileAt(2018) == 180 && StockpileAt(2027) == 270
    ensures StockpileAt(2014) > StockpileAt(2015)
  {
  }

  /** Maximum missile range of year `y` in km. */
  function MissileRangeAt(y: int): (v: int)
    ensures 250 <= v <= 6000
  {
    if y < 2002 then 250
    else if y < 2007 then 700 + 200 * (y - 2002)
    else if y < 2012 then 2000 + 500 * (y - 2007)
    else if y < 2018 then 3500 + 500 * (y - 2012)
    else 5000
  }

  /** The range peaks at 6000 km in 2017 and drops to 5000 km from 2018. */
  lemma MissileRangeBreakpoints()
    ensures MissileRangeAt(2001) == 250 && MissileRangeAt(2002) == 700
    ensures MissileRangeAt(2006) == 1500 && MissileRangeAt(2007) == 2000
    ensures MissileRangeAt(2011) == 4000 && MissileRangeAt(2012) == 3500
    ensures MissileRangeAt(2017) == 6000 && MissileRangeAt(2018) == 5000
  {
  }

  /** From 2018 on, the range is constant. The largest value of all is the
      single year 2017. */
  lemma MissileRangePeak(y: int)
    ensures y >= 2018 ==> MissileRangeAt(y) == 5000
    ensures MissileRangeAt(y) == 6000 <==> y == 2017
  {
  }

  // ---------------------------------------------------------------------
  // Saturating growth and floored decline

  /** Mobilisation time in days of year `y`: 45 falling by one a year,
      never below 15. */
  function MobilisationAt(y: int): (v: int)
    ensures v >= 15
    ensures y >= 2000 ==> v <= 45
  {
    MaxInt(45 - 1 * (y - 2000), 15)
  }

  /** Mobilisation time never increases, and reaches its floor exactly from
      2030 on. */
  lemma MobilisationMonotone(y1: int, y2: int)
    requires y1 <= y2
    ensures MobilisationAt(y2) <= MobilisationAt(y1)
    ensures MobilisationAt(y2) == 15 <==> y2 >= 2030
  {
  }

  /** A linear trend `start + slope * (y - 2000)` capped at `cap`, with real
      values. */
  datatype Ramp = Ramp(start: real, slope: real, cap: real)

  function RampAt(r: Ramp, y: int): (v: real)
    ensures v <= r.cap && v <= r.start + r.slope * Elapsed(y)
    ensures v == r.cap || v == r.start + r.slope * Elapsed(y)
  {
    MinReal(r.start + r.slope * Elapsed(y), r.cap)
  }

  /** A linear trend `start + slope * (y - origin)` capped at `cap`, with
      integer values. */
  datatype IntRamp = IntRamp(origin: int, start: int, slope: int, cap: int)

  function IntRampAt(r: IntRamp, y: int): (v: int)
    ensures v <= r.cap && v <= r.start + r.slope * (y - r.origin)
    ensures v == r.cap || v == r.start + r.slope * (y - r.origin)
  {
    MinInt(r.start + r.slope * (y - r.origin), r.cap)
  }

  lemma MulMonotone(a: real, x: real, z: real)
    requires a >= 0.0 && x <= z
    ensures a * x <= a * z
  {
    assert a * z - a * x == a * (z - x);
  }

  /** A ramp with a non-negative slope never decreases. */
  lemma RampMonotone(r: Ramp, y1: int, y2: int)
    requires r.slope >= 0.0 && y1 <= y2
    ensures RampAt(r, y1) <= RampAt(r, y2)
  {
    MulMonotone(r.slope, Elapsed(y1), Elapsed(y2));
  }

  lemma IntRampMonotone(r: IntRamp, y1: int, y2: int)
    requires r.slope >= 0 && y1 <= y2
    ensures IntRampAt(r, y1) <= IntRampAt(r, y2)
  {
    assert r.slope * (y2 - r.origin) - r.slope * (y1 - r.origin) == r.slope * (y2 - y1);
  }

  // The saturating indicators, each with its start, yearly slope and cap.
  const Tech: Ramp := Ramp(50.0, 2.5, 85.0)
  const Artillery: Ramp := Ramp(70.0, 1.8, 90.0)
  const AirDefence: Ramp := Ramp(55.0, 2.2, 88.0)
  const Production: Ramp := Ramp(55.0, 2.8, 89.0)
  const NewSystems: Ramp := Ramp(3.0, 1.5, 40.0)
  const Modernisation: Ramp := Ramp(25.0, 3.5, 80.0)
  const Exports: Ramp := Ramp(0.1, 0.3, 3.0)
  const CyberDefence: Ramp := Ramp(45.0, 2.8, 83.0)

  const Logistics: IntRamp := IntRamp(2000, 60, 2, 87)
  const CyberCapabilities: IntRamp := IntRamp(2000, 45, 3, 82)
  const Underground: IntRamp := IntRamp(2000, 60, 2, 90)
  const Fleet: IntRamp := IntRamp(2000, 25, 2, 70)
  const NavalRange: IntRamp := IntRamp(2000, 500, 50, 2000)
  const JointExercises: IntRamp := IntRamp(2000, 5, 2, 35)
  const CyberAttacks: IntRamp := IntRamp(2000, 10, 2, 60)
  const CyberCommand: IntRamp := IntRamp(2000, 40, 3, 85)
  /** The submarine capability's trend starts in 2009, not 2000. */
  const Submarine: IntRamp := IntRamp(2009, 20, 4, 85)

  /** The year from which each ramp sits at its cap: before it the value is
      the uncapped trend, from it on the cap. */
  lemma SaturationYears(y: int)
    ensures RampAt(Tech, y) == 85.0 <==> y >= 2014
    ensures RampAt(Artillery, y) == 90.0 <==> y >= 2012
    ensures RampAt(AirDefence, y) == 88.0 <==> y >= 2015
    ensures RampAt(Production, y) == 89.0 <==> y >= 2013
    ensures IntRampAt(Logistics, y) == 87 <==> y >= 2014
    ensures IntRampAt(CyberCapabilities, y) == 82 <==> y >= 2013
    ensures IntRampAt(Submarine, y) == 85 <==> y >= 2026
  {
  }

  /** The same for the ramps of the optional groups. */
  lemma GroupSaturationYears(y: int)
    ensures IntRampAt(Underground, y) == 90 <==> y >= 2015
    ensures RampAt(NewSystems, y) == 40.0 <==> y >= 2025
    ensures RampAt(Modernisation, y) == 80.0 <==> y >= 2016
    ensures RampAt(Exports, y) == 3.0 <==> y >= 2010
    ensures IntRampAt(Fleet, y) == 70 <==> y >= 2023
    ensures IntRampAt(NavalRange, y) == 2000 <==> y >= 2030
    ensures IntRampAt(JointExercises, y) == 35 <==> y >= 2015
    ensures IntRampAt(CyberAttacks, y) == 60 <==> y >= 2025
    ensures IntRampAt(CyberCommand, y) == 85 <==> y >= 2015
    ensures RampAt(CyberDefence, y) == 83.0 <==> y >= 2014
  {
  }
}
