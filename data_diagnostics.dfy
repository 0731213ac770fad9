/** Data-coverage diagnostics of the daily cross-asset pipeline: per asset class, how many of
    the configured benchmarks actually came back, and which classes fall below the alert level. */
module DataDiagnostics {

  /** One asset class of `benchmarks` in datasources.yaml. */
  datatype BenchmarkMeta = BenchmarkMeta(universe: seq<string>, frequency: string)

  /** A standardized frame, reduced to its BENCHMARK_ID column (one entry per row). */
  type Frame = seq<string>

  datatype Diagnostic = Diagnostic(expected: nat, actual: nat, coverage: real)

  /** Coverage strictly below this raises a data-quality issue. */
  const AlertLevel: real := 0.8

  /** The distinct benchmark ids of a frame. */
  function DistinctIds(df: Frame): set<string> {
    set id | id in df
  }

  /** One entry of `_compute_data_diagnostics`: the configured count, the number of distinct
      ids that came back (never more than the rows) and a non-negative coverage. */
  function DiagnosticOf(df: Frame, meta: BenchmarkMeta): (d: Diagnostic)
    ensures d.expected == |meta.universe|
    ensures d.actual == |DistinctIds(df)| <= |df|
    ensures d.coverage >= 0.0
  {
    var expected := |meta.universe|;
    DistinctCount(df);
    var actual := if |df| == 0 then 0 else |DistinctIds(df)|;
    var coverage := if expected > 0 then actual as real / expected as real else 1.0;
    Diagnostic(expected, actual, coverage)
  }

  /** `DataAgent._compute_data_diagnostics`: one entry per asset class of the standardized
      frames. Every class of the standardized data comes from the benchmark configuration. */
  method ComputeDataDiagnostics(standardized: map<string, Frame>, benchmarks: map<string, BenchmarkMeta>)
    returns (diagnostics: map<string, Diagnostic>)
    requires standardized.Keys <= benchmarks.Keys
    ensures diagnostics.Keys == standardized.Keys
    ensures forall c :: c in diagnostics ==> diagnostics[c] == DiagnosticOf(standardized[c], benchmarks[c])
  {
    diagnostics := map[];
    var remaining := standardized.Keys;
    while remaining != {}
      invariant remaining <= standardized.Keys
      invariant diagnostics.Keys == standardized.Keys - remaining
      invariant forall c :: c in diagnostics ==> diagnostics[c] == DiagnosticOf(standardized[c], benchmarks[c])
      decreases remaining
    {
      var assetClass :| assetClass in remaining;
      var df := standardized[assetClass];
      var expected := |benchmarks[assetClass].universe|;
      var actual := if |df| == 0 then 0 else |DistinctIds(df)|;
      var coverage := if expected > 0 then actual as real / expected as real else 1.0;
      diagnostics := diagnostics[assetClass := Diagnostic(expected, actual, coverage)];
      remaining := remaining - {assetClass};
    }
  }

  /** The alert filter of the daily pipeline: the classes whose coverage is strictly below
      the alert level. */
  method CoverageAlerts(diagnostics: map<string, Diagnostic>) returns (flagged: set<string>)
    ensures flagged == set c | c in diagnostics && diagnostics[c].coverage < AlertLevel
  {
    flagged := {};
    var remaining := diagnostics.Keys;
    while remaining != {}
      invariant remaining <= diagnostics.Keys
      invariant flagged == set c | c in diagnostics && c !in remaining && diagnostics[c].coverage < AlertLevel
      decreases remaining
    {
      var assetClass :| assetClass in remaining;
      if diagnostics[assetClass].coverage < AlertLevel {
        flagged := flagged + {assetClass};
      }
      remaining := remaining - {assetClass};
    }
  }

  // ---- properties ---------------------------------------------------------------

  /** Coverage is never negative; it is actual/expected for a configured universe and 1
      for an empty one, so it never divides by zero. */
  lemma CoverageDefinition(df: Frame, meta: BenchmarkMeta)
    ensures DiagnosticOf(df, meta).expected == |meta.universe|
    ensures DiagnosticOf(df, meta).actual == |DistinctIds(df)|
    ensures DiagnosticOf(df, meta).coverage >= 0.0
    ensures |meta.universe| > 0 ==>
      DiagnosticOf(df, meta).coverage * |meta.universe| as real == |DistinctIds(df)| as real
    ensures |meta.universe| == 0 ==> DiagnosticOf(df, meta).coverage == 1.0
  {
    if |df| == 0 {
      assert DistinctIds(df) == {};
    }
  }

  /** A list has at most as many distinct ids as entries (`nunique` never exceeds `len`). */
  lemma {:induction false} DistinctCount(s: seq<string>)
    ensures |DistinctIds(s)| <= |s|
  {
    if s != [] {
      var init := s[..|s| - 1];
      DistinctCount(init);
      assert DistinctIds(s) == DistinctIds(init) + {s[|s| - 1]};
    }
  }

  /** When the frame only holds ids of the universe (the fetch restricts the query to the
      universe), coverage is at most 1, even when the configuration repeats an id. */
  lemma CoverageAtMostOne(df: Frame, meta: BenchmarkMeta)
    requires forall id :: id in df ==> id in meta.universe
    ensures DiagnosticOf(df, meta).coverage <= 1.0
  {
    var u := meta.universe;
    if |u| > 0 {
      DistinctCount(u);
      assert DistinctIds(df) <= DistinctIds(u);
      SubsetCount(DistinctIds(df), DistinctIds(u));
      var a, e := |DistinctIds(df)| as real, |u| as real;
      assert DiagnosticOf(df, meta).coverage * e == a <= e;
    }
  }

  lemma SubsetCount(a: set<string>, b: set<string>)
    requires a <= b
    ensures |a| <= |b|
  {
    assert b == a + (b - a);
  }

  /** A class is flagged exactly when its universe is non-empty and fewer than four fifths
      of its benchmarks came back; a coverage of exactly 0.8 is not flagged. */
  lemma AlertIffShortfall(standardized: map<string, Frame>, benchmarks: map<string, BenchmarkMeta>,
                          diagnostics: map<string, Diagnostic>, c: string)
    requires standardized.Keys <= benchmarks.Keys
    requires diagnostics.Keys == standardized.Keys
    requires forall k :: k in diagnostics ==> diagnostics[k] == DiagnosticOf(standardized[k], benchmarks[k])
    ensures c in (set k | k in diagnostics && diagnostics[k].coverage < AlertLevel) <==>
      c in standardized && |benchmarks[c].universe| > 0 &&
      5 * |DistinctIds(standardized[c])| < 4 * |benchmarks[c].universe|
  {
    if c in standardized {
      CoverageDefinition(standardized[c], benchmarks[c]);
      var e := |benchmarks[c].universe|;
      if e > 0 {
        ShortfallArithmetic(diagnostics[c].coverage, |DistinctIds(standardized[c])|, e);
      }
    }
  }

  lemma ShortfallArithmetic(coverage: real, actual: nat, expected: nat)
    requires expected > 0 && coverage * expected as real == actual as real
    ensures coverage < AlertLevel <==> 5 * actual < 4 * expected
  {
    var e, a := expected as real, actual as real;
    ScaleStrict(coverage, AlertLevel, e);
    assert coverage * e == a;
    assert AlertLevel * e == 4.0 * e / 5.0;
    assert 5.0 * a == (5 * actual) as real && 4.0 * e == (4 * expected) as real;
    if coverage < AlertLevel {
      assert a < 4.0 * e / 5.0;
      assert 5.0 * a < 4.0 * e;
    }
    if 5 * actual < 4 * expected {
      assert 5.0 * a < 4.0 * e;
      assert a < 4.0 * e / 5.0;
      assert coverage * e < AlertLevel * e;
    }
  }

  lemma ScaleStrict(x: real, y: real, e: real)
    requires e > 0.0
    ensures x < y <==> x * e < y * e
  {
    assert (y - x) * e == y * e - x * e;
    if x < y {
      assert (y - x) * e > 0.0;
    } else {
      assert (x - y) * e >= 0.0;
    }
  }
}
