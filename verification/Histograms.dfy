// Cumulative duration histograms: how they are filled, and how the browser decodes them.
module Histograms {
  import opened MetricsLabels

  const BOUNDS: seq<real> := [0.01, 0.05, 0.1, 0.25, 0.5, 1.0, 2.5, 5.0, 10.0, 30.0, 60.0]

  function AtMost(values: seq<real>, bound: real): nat {
    if values == [] then 0
    else AtMost(values[..|values| - 1], bound) + (if values[|values| - 1] <= bound then 1 else 0)
  }

  function Between(values: seq<real>, low: real, high: real): nat {
    if values == [] then 0
    else Between(values[..|values| - 1], low, high)
         + (if low < values[|values| - 1] <= high then 1 else 0)
  }

  function Total(values: seq<real>): real {
    if values == [] then 0.0 else Total(values[..|values| - 1]) + values[|values| - 1]
  }

  lemma Observed(values: seq<real>, v: real, bound: real)
    ensures AtMost(values + [v], bound) == AtMost(values, bound) + (if v <= bound then 1 else 0)
    ensures Total(values + [v]) == Total(values) + v
  {
    assert (values + [v])[..|values|] == values;
  }

  // The per-interval count is the difference of two cumulative counts.
  lemma {:induction false} BetweenIsDifference(values: seq<real>, low: real, high: real)
    requires low <= high
    ensures AtMost(values, high) == AtMost(values, low) + Between(values, low, high)
  {
    if values != [] { BetweenIsDifference(values[..|values| - 1], low, high); }
  }

  lemma {:induction false} AtMostBounded(values: seq<real>, bound: real)
    ensures AtMost(values, bound) <= |values|
  {
    if values != [] { AtMostBounded(values[..|values| - 1], bound); }
  }

  lemma BoundsAscend(i: nat, k: nat)
    requires i <= k < |BOUNDS|
    ensures BOUNDS[i] <= BOUNDS[k]
  {
  }

  // How many values fall to bound i and to none before it.
  function Interval(values: seq<real>, i: nat): nat
    requires i < |BOUNDS|
  {
    if i == 0 then AtMost(values, BOUNDS[0]) else Between(values, BOUNDS[i - 1], BOUNDS[i])
  }

  // Bucket i holds the number of values up to bound i.
  predicate Cumulative(buckets: seq<nat>, values: seq<real>) {
    |buckets| == |BOUNDS| && forall i | 0 <= i < |BOUNDS| :: buckets[i] == AtMost(values, BOUNDS[i])
  }

  // Buckets never decrease and never exceed the count.
  lemma CumulativeMonotone(buckets: seq<nat>, values: seq<real>, i: nat, k: nat)
    requires Cumulative(buckets, values) && i <= k < |BOUNDS|
    ensures buckets[i] <= buckets[k] <= |values|
  {
    BoundsAscend(i, k);
    BetweenIsDifference(values, BOUNDS[i], BOUNDS[k]);
    AtMostBounded(values, BOUNDS[k]);
  }

  datatype HttpHistogram = HttpHistogram(buckets: seq<nat>, count: nat, sum: real)

  // The series kept under httpMutex_.
  class HttpHistograms {
    var httpRequestCounts: map<string, nat>
    var httpDurationHistograms: map<string, HttpHistogram>
    // Every duration observed so far, per label key.
    ghost var httpDurations: map<string, seq<real>>

    ghost predicate Valid()
      reads this
    {
      && httpDurations.Keys == httpRequestCounts.Keys == httpDurationHistograms.Keys
      && forall key | key in httpDurations ::
           && httpRequestCounts[key] == |httpDurations[key]|
           && Describes(httpDurationHistograms[key], httpDurations[key])
    }

    static ghost predicate Describes(h: HttpHistogram, values: seq<real>) {
      Cumulative(h.buckets, values) && h.count == |values| && h.sum == Total(values)
    }

    constructor ()
      ensures Valid() && httpDurations == map[]
    {
      httpRequestCounts, httpDurationHistograms, httpDurations := map[], map[], map[];
    }

    method ObserveHttpRequest(httpMethod: string, route: string, status: int, seconds: real)
      requires Valid()
      modifies this
      ensures Valid()
      ensures
        var key := LabelKey(httpMethod, route, status);
        var known := if key in old(httpDurations) then old(httpDurations)[key] else [];
        httpDurations == if seconds < 0.0 then old(httpDurations)
                         else old(httpDurations)[key := known + [seconds]]
    {
      if seconds < 0.0 { return; }
      var key := MakeHttpLabelKey(httpMethod, route, status);
      ghost var before := if key in httpDurations then httpDurations[key] else [];
      var count := if key in httpRequestCounts then httpRequestCounts[key] else 0;
      var hist := if key in httpDurationHistograms then httpDurationHistograms[key]
                  else HttpHistogram(seq(|BOUNDS|, _ => 0), 0, 0.0);   // resize on first use
      assert Describes(hist, before);
      hist := AddTo(hist, before, seconds);
      httpRequestCounts := httpRequestCounts[key := count + 1];
      httpDurationHistograms := httpDurationHistograms[key := hist];
      httpDurations := httpDurations[key := before + [seconds]];
    }

    static method AddTo(hist: HttpHistogram, ghost before: seq<real>, seconds: real) returns (h: HttpHistogram)
      requires Describes(hist, before)
      ensures Describes(h, before + [seconds])
    {
      var buckets := hist.buckets;
      for i := 0 to |BOUNDS|
        invariant |buckets| == |BOUNDS|
        invariant forall k | 0 <= k < i :: buckets[k] == AtMost(before + [seconds], BOUNDS[k])
        invariant forall k | i <= k < |BOUNDS| :: buckets[k] == AtMost(before, BOUNDS[k])
      {
        Observed(before, seconds, BOUNDS[i]);
        if seconds <= BOUNDS[i] { buckets := buckets[i := buckets[i] + 1]; }
      }
      Observed(before, seconds, 0.0);
      h := HttpHistogram(buckets, hist.count + 1, hist.sum + seconds);
    }
  }

  // ---- The browser's decoding ----

  datatype Bucket = Bucket(le: string, value: int)

  datatype Decoded = Decoded(le: string, cumulative: int, count: int)

  predicate Finite(b: Bucket) {
    b.le != "" && b.le != "+Inf"
  }

  function FiniteBuckets(buckets: seq<Bucket>): seq<Bucket> {
    if buckets == [] then []
    else FiniteBuckets(buckets[..|buckets| - 1])
         + (if Finite(buckets[|buckets| - 1]) then [buckets[|buckets| - 1]] else [])
  }

  function Max(a: int, b: int): int {
    if a < b then b else a
  }

  // What the front end keeps of the finite buckets: each with its difference to the last.
  predicate DecodesTo(f: seq<Bucket>, ds: seq<Decoded>) {
    |ds| == |f| && forall i | 0 <= i < |f| :: ds[i] == Decoded(f[i].le, f[i].value, Max(0, Delta(f, i)))
  }

  function Delta(f: seq<Bucket>, i: nat): int
    requires i < |f|
  {
    f[i].value - (if i == 0 then 0 else f[i - 1].value)
  }

  lemma DecodesOneMore(f: seq<Bucket>, ds: seq<Decoded>, b: Bucket, previous: int)
    requires DecodesTo(f, ds) && previous == if f == [] then 0 else f[|f| - 1].value
    ensures DecodesTo(f + [b], ds + [Decoded(b.le, b.value, Max(0, b.value - previous))])
  {
    var g := f + [b];
    assert forall k | 0 <= k < |f| :: Delta(g, k) == Delta(f, k);
    assert Delta(g, |f|) == b.value - previous;
  }

  // filter, then map with `previous` carried along.
  method DecodeBuckets(bucketValues: seq<Bucket>) returns (durationBuckets: seq<Decoded>)
    ensures DecodesTo(FiniteBuckets(bucketValues), durationBuckets)
  {
    var previous := 0;
    durationBuckets := [];
    ghost var f: seq<Bucket> := [];
    for i := 0 to |bucketValues|
      invariant f == FiniteBuckets(bucketValues[..i])
      invariant previous == (if f == [] then 0 else f[|f| - 1].value)
      invariant DecodesTo(f, durationBuckets)
    {
      assert bucketValues[..i + 1][..i] == bucketValues[..i];
      var bucket := bucketValues[i];
      if Finite(bucket) {
        var delta := Max(0, bucket.value - previous);
        DecodesOneMore(f, durationBuckets, bucket, previous);
        previous := bucket.value;
        durationBuckets := durationBuckets + [Decoded(bucket.le, bucket.value, delta)];
        f := f + [bucket];
      }
    }
    assert bucketValues[..|bucketValues|] == bucketValues;
  }

  // The bucket lines a histogram is rendered as: one per bound, then "+Inf".
  predicate Rendered(bucketValues: seq<Bucket>, buckets: seq<nat>, count: nat) {
    && |bucketValues| == |BOUNDS| + 1 && |buckets| == |BOUNDS|
    && (forall i | 0 <= i < |BOUNDS| :: Finite(bucketValues[i]) && bucketValues[i].value == buckets[i])
    && bucketValues[|BOUNDS|] == Bucket("+Inf", count)
  }

  lemma {:induction false} AllFinite(bs: seq<Bucket>)
    requires forall i | 0 <= i < |bs| :: Finite(bs[i])
    ensures FiniteBuckets(bs) == bs
  {
    if bs != [] { AllFinite(bs[..|bs| - 1]); }
  }

  // Decoding a rendered histogram gives the number of values in each interval; the clamp
  // to zero never changes a difference.
  lemma DecodedCounts(bucketValues: seq<Bucket>, buckets: seq<nat>, values: seq<real>, i: nat)
    requires Cumulative(buckets, values) && Rendered(bucketValues, buckets, |values|) && i < |BOUNDS|
    ensures |FiniteBuckets(bucketValues)| == |BOUNDS|
    ensures
      var delta := Delta(FiniteBuckets(bucketValues), i);
      && delta == Max(0, delta)
      && delta == if i == 0 then AtMost(values, BOUNDS[0]) else Between(values, BOUNDS[i - 1], BOUNDS[i])
  {
    var n := |BOUNDS|;
    AllFinite(bucketValues[..n]);
    assert bucketValues[..|bucketValues| - 1] == bucketValues[..n];
    if i > 0 {
      BoundsAscend(i - 1, i);
      BetweenIsDifference(values, BOUNDS[i - 1], BOUNDS[i]);
    }
  }
}
