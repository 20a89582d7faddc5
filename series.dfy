/** The indicator series: each generator maps the list of years elementwise
    to one value (Dashboard.py, simulate_*), except the submarine
    capability, which filters the years and pads with zeros at the end. */
module Series {
  import opened Config
  import opened Formulas
  import opened Sequences

  /** Python's `range(lo, hi)`. */
  function Range(lo: int, hi: int): (r: seq<int>)
    ensures |r| == if hi > lo then hi - lo else 0
    ensures forall i :: 0 <= i < |r| ==> r[i] == lo + i
  {
    if hi > lo then seq(hi - lo, i requires 0 <= i < hi - lo => lo + i) else []
  }

  /** `[f(y) for y in years]`. */
  function MapSeq<T>(years: seq<int>, f: int -> T): (r: seq<T>)
    ensures |r| == |years|
    ensures forall i :: 0 <= i < |years| ==> r[i] == f(years[i])
  {
    seq(|years|, i requires 0 <= i < |years| => f(years[i]))
  }

  // Base indicator group.
  function Budget(years: seq<int>, c: Config): seq<real> { MapSeq(years, y => BudgetAt(BudgetBase(c), y)) }
  function Personnel(years: seq<int>, c: Config): seq<real> { MapSeq(years, y => PersonnelAt(PersonnelBase(c), y)) }
  function GdpShare(years: seq<int>): seq<real> { MapSeq(years, GdpShareAt) }
  function Exercises(years: seq<int>, c: Config): seq<real> { MapSeq(years, y => ExercisesAt(ExercisesBase(c), y)) }
  function Readiness(years: seq<int>): seq<real> { MapSeq(years, ReadinessAt) }
  function Deterrence(years: seq<int>): seq<int> { MapSeq(years, DeterrenceAt) }
  function Mobilisation(years: seq<int>): seq<int> { MapSeq(years, MobilisationAt) }
  function MissileTests(years: seq<int>): seq<int> { MapSeq(years, MissileTestsAt) }
  function RampSeries(years: seq<int>, r: Ramp): seq<real> { MapSeq(years, y => RampAt(r, y)) }
  function IntRampSeries(years: seq<int>, r: IntRamp): seq<int> { MapSeq(years, y => IntRampAt(r, y)) }

  // Nuclear indicator group (besides ramps).
  function Stockpile(years: seq<int>): seq<int> { MapSeq(years, StockpileAt) }
  function MissileRange(years: seq<int>): seq<int> { MapSeq(years, MissileRangeAt) }

  /** Over years listed in increasing order, a ramp series with a
      non-negative slope never decreases, and never exceeds its cap. */
  lemma RampSeriesSorted(years: seq<int>, r: Ramp)
    requires r.slope >= 0.0
    requires forall i, j :: 0 <= i < j < |years| ==> years[i] <= years[j]
    ensures forall i, j :: 0 <= i < j < |years| ==> RampSeries(years, r)[i] <= RampSeries(years, r)[j]
    ensures forall i :: 0 <= i < |years| ==> RampSeries(years, r)[i] <= r.cap
  {
    forall i, j | 0 <= i < j < |years| ensures RampSeries(years, r)[i] <= RampSeries(years, r)[j] {
      RampMonotone(r, years[i], years[j]);
    }
  }

  /** The same for the integer ramp series. */
  lemma IntRampSeriesSorted(years: seq<int>, r: IntRamp)
    requires r.slope >= 0
    requires forall i, j :: 0 <= i < j < |years| ==> years[i] <= years[j]
    ensures forall i, j :: 0 <= i < j < |years| ==> IntRampSeries(years, r)[i] <= IntRampSeries(years, r)[j]
    ensures forall i :: 0 <= i < |years| ==> IntRampSeries(years, r)[i] <= r.cap
  {
    forall i, j | 0 <= i < j < |years| ensures IntRampSeries(years, r)[i] <= IntRampSeries(years, r)[j] {
      IntRampMonotone(r, years[i], years[j]);
    }
  }

  // ---------------------------------------------------------------------
  // Submarine capability: filter, then pad at the end

  /** The years at least `t`, in order (`[y for y in years if y >= t]`). */
  function AtLeast(years: seq<int>, t: int): (r: seq<int>)
    ensures |r| <= |years|
    ensures forall y :: y in r ==> y in years && y >= t
    ensures forall y :: y in years && y >= t ==> y in r
    ensures |years| == 1 ==> r == if years[0] >= t then years else []
  {
    if |years| == 0 then []
    else (if years[0] >= t then [years[0]] else []) + AtLeast(years[1..], t)
  }

  /** `min(years)`. */
  function SeqMin(years: seq<int>): (m: int)
    requires |years| > 0
    ensures m in years
    ensures forall y :: y in years ==> m <= y
  {
    if |years| == 1 then years[0]
    else
      assert forall y :: y in years ==> y == years[0] || y in years[1..];
      MinInt(years[0], SeqMin(years[1..]))
  }

  /** `[0] * n`; Python gives the empty list for a negative `n`. */
  function Zeros(n: int): (r: seq<int>)
    ensures |r| == MaxInt(n, 0)
    ensures forall i :: 0 <= i < |r| ==> r[i] == 0
  {
    if n > 0 then seq(n, _ => 0) else []
  }

  /** The submarine capability series as the source builds it: the capped
      trend for the years from 2009, followed by `2009 - min(years)` zeros.
      Python's `min` fails on an empty list, hence the precondition. */
  function SubmarineSeries(years: seq<int>): seq<int>
    requires |years| > 0
  {
    MapSeq(AtLeast(years, 2009), y => IntRampAt(Submarine, y)) + Zeros(2009 - SeqMin(years))
  }

  /** The aligned reading of the submarine capability: zero before 2009,
      the capped trend from 2009. */
  function SubmarineAligned(y: int): (v: int)
    ensures 0 <= v <= 85
  {
    if y >= 2009 then IntRampAt(Submarine, y) else 0
  }

  /** Filtering a contiguous range keeps the part of it from the threshold. */
  lemma {:induction false} AtLeastRange(lo: int, hi: int, t: int)
    ensures AtLeast(Range(lo, hi), t) == Range(MaxInt(lo, t), hi)
    decreases hi - lo
  {
    if hi > lo {
      var r := Range(lo, hi);
      var tail := Range(lo + 1, hi);
      assert r[1..] == tail;
      assert AtLeast(r, t) == (if lo >= t then [lo] else []) + AtLeast(tail, t);
      AtLeastRange(lo + 1, hi, t);
      if lo >= t {
        assert [lo] + tail == r;
      } else {
        assert MaxInt(lo + 1, t) == MaxInt(lo, t);
      }
    }
  }

  /** Filtering years that all pass the threshold keeps them all. */
  lemma {:induction false} AtLeastAll(years: seq<int>, t: int)
    requires forall y :: y in years ==> y >= t
    ensures AtLeast(years, t) == years
  {
    if |years| > 0 {
      assert years[0] in years;
      assert forall y :: y in years[1..] ==> y in years;
      AtLeastAll(years[1..], t);
      assert [years[0]] + years[1..] == years;
    }
  }

  /** The filter distributes over concatenation: the years kept from `a`
      come first, in their order, then those kept from `b`. With the
      single-year case of `AtLeast`, this fixes the result entirely. */
  lemma {:induction false} AtLeastConcat(a: seq<int>, b: seq<int>, t: int)
    ensures AtLeast(a + b, t) == AtLeast(a, t) + AtLeast(b, t)
    decreases |a|
  {
    if |a| == 0 {
      assert a + b == b;
    } else {
      assert (a + b)[0] == a[0];
      assert (a + b)[1..] == a[1..] + b;
      AtLeastConcat(a[1..], b, t);
      var head := if a[0] >= t then [a[0]] else [];
      AppendAssoc(head, AtLeast(a[1..], t), AtLeast(b, t));
    }
  }

  lemma RangeMin(lo: int, hi: int)
    requires hi > lo
    ensures SeqMin(Range(lo, hi)) == lo
  {
    var r := Range(lo, hi);
    assert r[0] == lo;
    var m := SeqMin(r);
    assert m in r;
  }

  /** On a contiguous run of `n` years starting at `lo`, the submarine series
      has one value per year exactly when the run's last year is 2008 or
      later; a run ending earlier gets more zeros than it has years. */
  lemma SubmarineLengthOnRange(lo: int, n: nat)
    requires n > 0
    ensures |SubmarineSeries(Range(lo, lo + n))| == n <==> lo + n - 1 >= 2008
  {
    AtLeastRange(lo, lo + n, 2009);
    RangeMin(lo, lo + n);
  }

  /** When every year is 2009 or later no zeros are added, and the series is
      the capped trend year by year. */
  lemma SubmarineNoPadding(years: seq<int>)
    requires |years| > 0
    requires forall y :: y in years ==> y >= 2009
    ensures SubmarineSeries(years) == IntRampSeries(years, Submarine)
  {
    AtLeastAll(years, 2009);
    assert 2009 - SeqMin(years) <= 0;
  }

  /** On a contiguous run of years from `lo` (at most 2009) to `hi - 1`
      (at least 2008), the series holds the capped trend of 2009.. `hi - 1`
      followed by `2009 - lo` zeros. */
  lemma SubmarineOnRange(years: seq<int>, lo: int, hi: int)
    requires lo <= 2009 < hi && years == Range(lo, hi)
    ensures var s := SubmarineSeries(years);
      && |s| == hi - lo
      && (forall i :: 0 <= i < hi - 2009 ==> s[i] == IntRampAt(Submarine, 2009 + i))
      && (forall i :: hi - 2009 <= i < hi - lo ==> s[i] == 0)
  {
    AtLeastRange(lo, hi, 2009);
    RangeMin(lo, hi);
  }

  /** On the years 2000..2027 the series has 28 entries, but misaligned:
      the row of year `y` holds the value meant for `y + 9` for the first
      19 rows, and the last 9 rows (2019..2027) are zero. Every entry lies
      between 0 and the cap of 85. */
  lemma SubmarineOnYearRange(years: seq<int>)
    requires years == Range(2000, 2028)
    ensures var s := SubmarineSeries(years);
      && |s| == 28
      && (forall i :: 0 <= i < 19 ==> s[i] == MinInt(20 + 4 * i, 85) == SubmarineAligned(2000 + i + 9))
      && (forall i :: 19 <= i < 28 ==> s[i] == 0)
      && (forall i :: 0 <= i < 28 ==> 0 <= s[i] <= 85)
  {
    SubmarineOnRange(years, 2000, 2028);
  }

  /** The row of year 2000 holds 20, the value the aligned reading gives to
      2009, while the aligned reading gives 0 to 2000. */
  lemma SubmarineMisaligned()
    ensures var s := SubmarineSeries(Range(2000, 2028));
      |s| == 28 && s[0] == 20 != SubmarineAligned(2000) && s[27] == 0 != SubmarineAligned(2027)
  {
    SubmarineOnYearRange(Range(2000, 2028));
    var s := SubmarineSeries(Range(2000, 2028));
    assert s[0] == 20 by { assert s[0] == MinInt(20 + 4 * 0, 85); }
    assert s[27] == 0;
    assert SubmarineAligned(2000) == 0;
    assert SubmarineAligned(2027) == 85 by { assert IntRampAt(Submarine, 2027) == 85; }
  }
}
