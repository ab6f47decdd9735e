/**
 * The performance dashboard's judgements over the monitor's averages: the
 * grade of each metric against its thresholds, the grade colours, the tips
 * shown, and the short history of recent samples.
 */
module PerformanceDashboard {
  import PMon = PerformanceMonitor

  datatype Grade = Good | Fair | Poor

  /** Good ranks highest. */
  function Rank(g: Grade): nat
  {
    match g
    case Good => 2
    case Fair => 1
    case Poor => 0
  }

  /** The (good, fair) thresholds of each metric. */
  function Thresholds(f: PMon.Field): (real, real)
  {
    match f
    case LoadTime => (1000.0, 3000.0)
    case RenderTime => (100.0, 300.0)
    case MemoryUsage => (50.0, 100.0)
    case BundleSize => (250.0, 500.0)
    case CacheHitRate => (80.0, 60.0)
  }

  /**
   * `getPerformanceGrade`: the hit rate is good from 80 and fair from 60; every
   * other metric is good up to its good threshold and fair up to its fair one.
   */
  function GradeOf(f: PMon.Field, value: real): (g: Grade)
    ensures f == PMon.CacheHitRate ==>
      g == (if value >= 80.0 then Good else if value >= 60.0 then Fair else Poor)
    ensures f != PMon.CacheHitRate ==>
      g == (if value <= Thresholds(f).0 then Good else if value <= Thresholds(f).1 then Fair else Poor)
  {
    var (good, fair) := Thresholds(f);
    if f == PMon.CacheHitRate then
      if value >= good then Good else if value >= fair then Fair else Poor
    else if value <= good then Good else if value <= fair then Fair else Poor
  }

  /** A larger value never earns a better grade, except for the hit rate, where it never earns a worse one. */
  lemma GradeMonotone(f: PMon.Field, v: real, w: real)
    requires v <= w
    ensures f != PMon.CacheHitRate ==> Rank(GradeOf(f, w)) <= Rank(GradeOf(f, v))
    ensures f == PMon.CacheHitRate ==> Rank(GradeOf(f, v)) <= Rank(GradeOf(f, w))
  {
  }

  function GradeName(g: Grade): string
  {
    match g
    case Good => "good"
    case Fair => "fair"
    case Poor => "poor"
  }

  /** `getGradeColor`: green, amber and red for the three grades, grey for anything else. */
  function GradeColor(grade: string): (c: string)
    ensures grade == "good" ==> c == "#4ade80"
    ensures grade == "fair" ==> c == "#fbbf24"
    ensures grade == "poor" ==> c == "#f87171"
    ensures grade !in {"good", "fair", "poor"} ==> c == "#6b7280"
  {
    if grade == "good" then "#4ade80"
    else if grade == "fair" then "#fbbf24"
    else if grade == "poor" then "#f87171"
    else "#6b7280"
  }

  /** Each grade gets its own colour, and none of them is the default grey. */
  lemma GradeColorsDistinct(g: Grade, h: Grade)
    ensures g != h ==> GradeColor(GradeName(g)) != GradeColor(GradeName(h))
    ensures GradeColor(GradeName(g)) != "#6b7280"
  {
  }

  /** The averages in the order of their properties, and the keys that order is graded by. */
  function Values(avg: PMon.Averages): seq<int>
  {
    [avg.loadTime, avg.renderTime, avg.memoryUsage, avg.bundleSize, avg.cacheHitRate]
  }

  const Keys: seq<PMon.Field> := [PMon.LoadTime, PMon.RenderTime, PMon.MemoryUsage, PMon.BundleSize, PMon.CacheHitRate]

  /** The `every` of the "all good" tip: each value has a key and is graded good under it. */
  predicate EveryGood(values: seq<int>, keys: seq<PMon.Field>)
  {
    forall i :: 0 <= i < |values| ==> i < |keys| && GradeOf(keys[i], values[i] as real) == Good
  }

  /** The "all good" tip appears exactly when all five metrics are graded good. */
  lemma AllGoodMeaning(avg: PMon.Averages)
    ensures EveryGood(Values(avg), Keys) <==>
      (GradeOf(PMon.LoadTime, avg.loadTime as real) == Good
       && GradeOf(PMon.RenderTime, avg.renderTime as real) == Good
       && GradeOf(PMon.MemoryUsage, avg.memoryUsage as real) == Good
       && GradeOf(PMon.BundleSize, avg.bundleSize as real) == Good
       && GradeOf(PMon.CacheHitRate, avg.cacheHitRate as real) == Good)
  {
    var vs := Values(avg);
    if GradeOf(PMon.LoadTime, avg.loadTime as real) == Good
       && GradeOf(PMon.RenderTime, avg.renderTime as real) == Good
       && GradeOf(PMon.MemoryUsage, avg.memoryUsage as real) == Good
       && GradeOf(PMon.BundleSize, avg.bundleSize as real) == Good
       && GradeOf(PMon.CacheHitRate, avg.cacheHitRate as real) == Good {
      forall i | 0 <= i < |vs| ensures i < |Keys| && GradeOf(Keys[i], vs[i] as real) == Good {
      }
    }
    if EveryGood(vs, Keys) {
      assert GradeOf(Keys[0], vs[0] as real) == Good && GradeOf(Keys[4], vs[4] as real) == Good;
      assert GradeOf(Keys[1], vs[1] as real) == Good && GradeOf(Keys[2], vs[2] as real) == Good;
      assert GradeOf(Keys[3], vs[3] as real) == Good;
    }
  }

  datatype Tip = SlowLoad | HighMemory | LowCacheHits | LargeBundle | AllGood

  /** A tip rendered only under its condition. */
  function When(c: bool, t: Tip): (r: seq<Tip>)
    ensures forall u :: u in r <==> c && u == t
  {
    if c then [t] else []
  }

  /** The tips shown, in their order on the page. */
  function Tips(avg: PMon.Averages): (r: seq<Tip>)
    ensures SlowLoad in r <==> avg.loadTime > 3000
    ensures HighMemory in r <==> avg.memoryUsage > 100
    ensures LowCacheHits in r <==> avg.cacheHitRate < 60
    ensures LargeBundle in r <==> avg.bundleSize > 500
    ensures AllGood in r <==> EveryGood(Values(avg), Keys)
  {
    When(avg.loadTime > 3000, SlowLoad) + When(avg.memoryUsage > 100, HighMemory)
    + When(avg.cacheHitRate < 60, LowCacheHits) + When(avg.bundleSize > 500, LargeBundle)
    + When(EveryGood(Values(avg), Keys), AllGood)
  }

  /** When everything is good, only the "all good" tip is shown; the initial all-zero averages never earn it. */
  lemma AllGoodAlone(avg: PMon.Averages)
    ensures EveryGood(Values(avg), Keys) ==> Tips(avg) == [AllGood]
    ensures AllGood !in Tips(PMon.Averages(0, 0, 0, 0, 0))
  {
    AllGoodMeaning(avg);
    AllGoodMeaning(PMon.Averages(0, 0, 0, 0, 0));
  }

  function Reverse<T>(s: seq<T>): (r: seq<T>)
    ensures |r| == |s|
    ensures forall i :: 0 <= i < |s| ==> r[i] == s[|s| - 1 - i]
  {
    if s == [] then [] else Reverse(s[1..]) + [s[0]]
  }

  /** `metrics.slice(-5).reverse()`: the last five samples at most, newest first. */
  function History(metrics: seq<PMon.Metric>): (r: seq<PMon.Metric>)
    ensures |r| == if |metrics| < 5 then |metrics| else 5
    ensures forall i :: 0 <= i < |r| ==> r[i] == metrics[|metrics| - 1 - i]
  {
    Reverse(PMon.Last(metrics, 5))
  }
}
