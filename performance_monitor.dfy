/**
 * The performance monitor: a buffer of the last hundred recorded metrics,
 * their rounded averages, the cache-hit estimate from resource timings, and
 * the registry of performance observers that `cleanup` disconnects.
 * Timings are real numbers; `Math.round` rounds half up.
 */
module PerformanceMonitor {
  import opened Wrappers

  const Capacity := 100

  /** `Math.round`: the nearest integer, halves rounded up. */
  function Round(x: real): (r: int)
    ensures r as real - 0.5 <= x < r as real + 0.5
  {
    (x + 0.5).Floor
  }

  lemma RoundMonotone(x: real, y: real)
    requires x <= y
    ensures Round(x) <= Round(y)
  {
  }

  /** One sample; `timestamp` is set when it is recorded. */
  datatype Metric = Metric(loadTime: real, renderTime: real, memoryUsage: real,
                           bundleSize: real, cacheHitRate: real, timestamp: int)

  /** The five measured fields of a metric. */
  datatype Field = LoadTime | RenderTime | MemoryUsage | BundleSize | CacheHitRate

  function Get(m: Metric, f: Field): real
  {
    match f
    case LoadTime => m.loadTime
    case RenderTime => m.renderTime
    case MemoryUsage => m.memoryUsage
    case BundleSize => m.bundleSize
    case CacheHitRate => m.cacheHitRate
  }

  /** The rounded averages `getAverageMetrics` returns. */
  datatype Averages = Averages(loadTime: int, renderTime: int, memoryUsage: int, bundleSize: int, cacheHitRate: int)

  /** The last `n` elements of `s`, or all of them when there are fewer. */
  function Last<T>(s: seq<T>, n: nat): (r: seq<T>)
    ensures |r| == if |s| <= n then |s| else n
    ensures s == s[..|s| - |r|] + r
  {
    if |s| <= n then s else s[|s| - n..]
  }

  /** Appending to a window of the last `n` drops its oldest element once it is full. */
  lemma LastAppend<T>(s: seq<T>, x: T, n: nat)
    requires n > 0
    ensures Last(s + [x], n) == if |Last(s, n)| + 1 > n then (Last(s, n) + [x])[1..] else Last(s, n) + [x]
  {
    var t := s + [x];
    if |s| >= n {
      FullWindowAppend(s, x, n);
    } else {
      assert Last(s, n) == s;
      assert |t| <= n;
    }
  }

  lemma FullWindowAppend<T>(s: seq<T>, x: T, n: nat)
    requires 0 < n <= |s|
    ensures Last(s + [x], n) == Last(s, n)[1..] + [x]
  {
    var t := s + [x];
    var l := s[|s| - n..];
    assert Last(s, n) == l;
    assert Last(t, n) == t[|t| - n..];
    assert t[|t| - n..] == l[1..] + [x];
  }

  function Sum(ms: seq<Metric>, f: Field): real
  {
    if ms == [] then 0.0 else Get(ms[0], f) + Sum(ms[1..], f)
  }

  /** A sum of values within `[lo, hi]` lies within `|ms|` times those bounds. */
  lemma {:induction false} SumBounds(ms: seq<Metric>, f: Field, lo: real, hi: real)
    requires forall i :: 0 <= i < |ms| ==> lo <= Get(ms[i], f) <= hi
    ensures lo * |ms| as real <= Sum(ms, f) <= hi * |ms| as real
  {
    if ms != [] {
      assert forall i :: 0 <= i < |ms[1..]| ==> ms[1..][i] == ms[i + 1];
      SumBounds(ms[1..], f, lo, hi);
      var k := |ms[1..]| as real;
      assert |ms| as real == k + 1.0;
      assert lo * (k + 1.0) == lo * k + lo && hi * (k + 1.0) == hi * k + hi;
    }
  }

  /** The rounded mean of one field; zero for an empty buffer. */
  function Mean(ms: seq<Metric>, f: Field): int
  {
    if ms == [] then 0 else Round(Sum(ms, f) / |ms| as real)
  }

  /** A mean of values within `[lo, hi]` lies within their rounded bounds. */
  lemma MeanBounds(ms: seq<Metric>, f: Field, lo: real, hi: real)
    requires ms != []
    requires forall i :: 0 <= i < |ms| ==> lo <= Get(ms[i], f) <= hi
    ensures Round(lo) <= Mean(ms, f) <= Round(hi)
  {
    SumBounds(ms, f, lo, hi);
    var n := |ms| as real;
    assert lo <= Sum(ms, f) / n <= hi by {
      assert lo * n / n == lo && hi * n / n == hi;
    }
    RoundMonotone(lo, Sum(ms, f) / n);
    RoundMonotone(Sum(ms, f) / n, hi);
  }

  /** `getAverageMetrics`: all zeros for an empty buffer, otherwise each field's rounded mean. */
  function Average(ms: seq<Metric>): (r: Averages)
    ensures ms == [] ==> r == Averages(0, 0, 0, 0, 0)
    ensures r.loadTime == Mean(ms, LoadTime) && r.renderTime == Mean(ms, RenderTime)
    ensures r.memoryUsage == Mean(ms, MemoryUsage) && r.bundleSize == Mean(ms, BundleSize)
    ensures r.cacheHitRate == Mean(ms, CacheHitRate)
  {
    if ms == [] then Averages(0, 0, 0, 0, 0)
    else Averages(Mean(ms, LoadTime), Mean(ms, RenderTime), Mean(ms, MemoryUsage),
                  Mean(ms, BundleSize), Mean(ms, CacheHitRate))
  }

  /** Hit rates within 0..100 average to a hit rate within 0..100. */
  lemma AverageHitRateBounded(ms: seq<Metric>)
    requires forall i :: 0 <= i < |ms| ==> 0.0 <= ms[i].cacheHitRate <= 100.0
    ensures 0 <= Average(ms).cacheHitRate <= 100
  {
    if ms != [] {
      MeanBounds(ms, CacheHitRate, 0.0, 100.0);
    }
  }

  /** The number of resources whose duration is under 10 ms, taken as served from cache. */
  function Hits(durations: seq<real>): (r: nat)
    ensures r <= |durations|
  {
    if durations == [] then 0 else (if durations[0] < 10.0 then 1 else 0) + Hits(durations[1..])
  }

  /** The hit percentage: zero without resources, else the rounded share of hits. */
  function HitRate(durations: seq<real>): int
  {
    if durations == [] then 0 else Round(Hits(durations) as real / |durations| as real * 100.0)
  }

  /** A share of a positive whole lies within 0..1. */
  lemma ShareBounds(part: real, whole: real)
    requires 0.0 <= part <= whole && whole > 0.0
    ensures 0.0 <= part / whole <= 1.0
  {
  }

  lemma WholeShare(whole: real)
    requires whole > 0.0
    ensures whole / whole == 1.0
  {
  }

  /** A rounded percentage of a part of a positive whole lies within 0..100, and is 100 for the whole. */
  lemma RoundedPercent(part: real, whole: real)
    requires 0.0 <= part <= whole && whole > 0.0
    ensures 0 <= Round(part / whole * 100.0) <= 100
    ensures part == whole ==> Round(part / whole * 100.0) == 100
  {
    ShareBounds(part, whole);
    var percent := part / whole * 100.0;
    RoundMonotone(0.0, percent);
    RoundMonotone(percent, 100.0);
    assert Round(0.0) == 0 && Round(100.0) == 100;
    if part == whole {
      WholeShare(whole);
    }
  }

  /** The percentage is always within 0..100, and 100 when every resource is a hit. */
  lemma HitRateBounds(durations: seq<real>)
    ensures 0 <= HitRate(durations) <= 100
    ensures durations != [] && Hits(durations) == |durations| ==> HitRate(durations) == 100
  {
    if durations != [] {
      RoundedPercent(Hits(durations) as real, |durations| as real);
    }
  }

  lemma {:induction false} HitsAppend(durations: seq<real>, d: real)
    ensures Hits(durations + [d]) == Hits(durations) + (if d < 10.0 then 1 else 0)
  {
    if durations != [] {
      assert (durations + [d])[1..] == durations[1..] + [d];
      HitsAppend(durations[1..], d);
    }
  }

  /**
   * `getCacheHitRate`, given the resource durations (`None` when the timing
   * API is missing): counts resources and hits in one pass.
   */
  method GetCacheHitRate(resources: Option<seq<real>>) returns (rate: int)
    ensures resources.None? ==> rate == 0
    ensures resources.Some? ==> rate == HitRate(resources.value)
    ensures 0 <= rate <= 100
  {
    if resources.None? {
      return 0;
    }
    var rs := resources.value;
    var cacheHits := 0;
    var totalResources := 0;
    while totalResources < |rs|
      invariant 0 <= totalResources <= |rs|
      invariant cacheHits == Hits(rs[..totalResources])
    {
      assert rs[..totalResources + 1] == rs[..totalResources] + [rs[totalResources]];
      HitsAppend(rs[..totalResources], rs[totalResources]);
      if rs[totalResources] < 10.0 {
        cacheHits := cacheHits + 1;
      }
      totalResources := totalResources + 1;
    }
    assert rs[..totalResources] == rs;
    rate := if totalResources > 0 then Round(cacheHits as real / totalResources as real * 100.0) else 0;
    HitRateBounds(rs);
  }

  /** A registered `PerformanceObserver`. */
  class Observer {
    var connected: bool

    constructor ()
      ensures connected
    {
      connected := true;
    }

    method Disconnect()
      modifies this
      ensures !connected
    {
      connected := false;
    }
  }

  class Monitor {
    var metrics: seq<Metric>
    var observers: map<string, Observer>
    /** Every metric ever recorded, oldest first. */
    ghost var recorded: seq<Metric>

    /** The buffer is the last hundred metrics recorded, in recording order. */
    ghost predicate Valid()
      reads this
    {
      metrics == Last(recorded, Capacity)
    }

    constructor ()
      ensures Valid() && metrics == [] && recorded == [] && observers == map[]
    {
      metrics, observers, recorded := [], map[], [];
    }

    /** `observers.set`: an observer registered under its metric's name. */
    method Observe(name: string, o: Observer)
      modifies this
      ensures observers == old(observers)[name := o]
      ensures metrics == old(metrics) && recorded == old(recorded)
    {
      observers := observers[name := o];
    }

    /** `recordMetric`: the sample is stamped and appended, and the oldest dropped past a hundred. */
    method RecordMetric(m: Metric, now: int)
      requires Valid()
      modifies this
      ensures Valid()
      ensures recorded == old(recorded) + [m.(timestamp := now)]
      ensures |metrics| <= Capacity && metrics[|metrics| - 1] == m.(timestamp := now)
      ensures metrics == if |old(metrics)| == Capacity then old(metrics)[1..] + [m.(timestamp := now)]
        else old(metrics) + [m.(timestamp := now)]
      ensures observers == old(observers)
    {
      var stamped := m.(timestamp := now);
      LastAppend(recorded, stamped, Capacity);
      metrics := metrics + [stamped];
      recorded := recorded + [stamped];
      if |metrics| > Capacity {
        metrics := metrics[1..];
      }
    }

    /** `getMetrics`: a copy of the buffer. */
    method GetMetrics() returns (r: seq<Metric>)
      requires Valid()
      ensures r == metrics && r == Last(recorded, Capacity)
    {
      r := metrics;
    }

    /** `getAverageMetrics` over the buffer. */
    method GetAverageMetrics() returns (r: Averages)
      ensures r == Average(metrics)
    {
      r := Average(metrics);
    }

    /** `cleanup`: every registered observer is disconnected and the registry emptied. */
    method Cleanup()
      modifies this, observers.Values
      ensures observers == map[]
      ensures forall o :: o in old(observers).Values ==> !o.connected
      ensures metrics == old(metrics) && recorded == old(recorded)
    {
      var pending := observers.Keys;
      while pending != {}
        invariant pending <= observers.Keys
        invariant observers == old(observers) && metrics == old(metrics) && recorded == old(recorded)
        invariant forall k :: k in observers.Keys - pending ==> !observers[k].connected
        decreases |pending|
      {
        var k :| k in pending;
        observers[k].Disconnect();
        pending := pending - {k};
      }
      observers := map[];
    }
  }
}
