// renderPrometheus and parseMetricsSummary: the six job numbers survive the round trip
// through text, whatever histograms and HTTP labels follow them.
module MetricsExport {
  import opened Common
  import opened Strings
  import opened Text
  import opened MetricsText
  import opened Histograms
  import opened HistogramRaces

  datatype JobMetrics = JobMetrics(
    submitted: nat, completed: nat, failed: nat, retried: nat, deadLettered: nat,
    active: int, queueDepth: real)

  // ---- Rendering ----

  function Padded(n: nat, width: nat): string
    decreases width
  {
    if width == 0 then "" else Padded(n / 10, width - 1) + [Digit(n % 10)]
  }

  // std::fixed with precision 6, for values that are not negative.
  function Fixed6(x: real): string {
    var micros := (x * 1000000.0 + 0.5).Floor;
    if micros < 0 then "0.000000"
    else Digits(micros / 1000000) + "." + Padded(micros % 1000000, 6)
  }

  function JobRows(m: JobMetrics): seq<Row> {
    [ Row("cortex_jobs_submitted_total", "Total number of jobs " + "submitted", "counter", Digits(m.submitted)),
      Row("cortex_jobs_completed_total", "Total number of jobs " + "completed successfully", "counter",
          Digits(m.completed)),
      Row("cortex_jobs_failed_total", "Total number of jobs " + "that permanently failed", "counter", Digits(m.failed)),
      Row("cortex_jobs_retried_total", "Total number of " + "scheduled job retries", "counter", Digits(m.retried)),
      Row("cortex_jobs_dead_lettered_total", "Total number of jobs " + "moved to dead-letter stream", "counter",
          Digits(m.deadLettered)),
      Row("cortex_jobs_active", "Current number of jobs " + "actively being processed", "gauge", IntText(m.active)),
      Row("cortex_jobs_queue_depth", "Current Redis stream load " + "used by backpressure", "gauge",
          Fixed6(m.queueDepth)) ]
  }

  function BucketLine(metric: string, labels: string, i: nat, count: nat): string
    requires i < |BOUNDS|
  {
    metric + "_bucket{" + labels + "le=\"" + Fixed6(BOUNDS[i]) + "\"} " + Digits(count)
  }

  // The lines of buckets 0 to n - 1.
  function BucketText(metric: string, labels: string, buckets: seq<nat>, n: nat): string
    requires n <= |BOUNDS| == |buckets|
  {
    if n == 0 then ""
    else BucketText(metric, labels, buckets, n - 1) + Line(BucketLine(metric, labels, n - 1, buckets[n - 1]))
  }

  method RenderBuckets(metric: string, labels: string, buckets: seq<nat>) returns (text: string)
    requires |buckets| == |BOUNDS|
    ensures text == BucketText(metric, labels, buckets, |BOUNDS|)
  {
    text := "";
    for i := 0 to |BOUNDS|
      invariant text == BucketText(metric, labels, buckets, i)
    {
      text := text + Line(BucketLine(metric, labels, i, buckets[i]));
    }
  }

  const JOB_DURATION: string := "cortex_job_processing_duration_seconds"
  const HTTP_DURATION: string := "cortex_http_request_duration_seconds"
  const HTTP_TOTAL: string := "cortex_http_requests_total"

  // `inf` and `count` are two loads of the count.
  function JobHistogramText(buckets: seq<nat>, inf: nat, sum: real, count: nat): string
    requires |buckets| == |BOUNDS|
  {
    Line("# HELP " + JOB_DURATION + " Job processing duration in seconds")
    + Line("# TYPE " + JOB_DURATION + " histogram")
    + BucketText(JOB_DURATION, "", buckets, |BOUNDS|)
    + Line(JOB_DURATION + "_bucket{le=\"+Inf\"} " + Digits(inf))
    + Line(JOB_DURATION + "_sum " + Fixed6(sum))
    + Line(JOB_DURATION + "_count " + Digits(count))
  }

  function HttpHeader(): string {
    Line("# HELP " + HTTP_TOTAL + " Total HTTP requests")
    + Line("# TYPE " + HTTP_TOTAL + " counter")
    + Line("# HELP " + HTTP_DURATION + " HTTP request latency in seconds")
    + Line("# TYPE " + HTTP_DURATION + " histogram")
  }

  function HttpCountLine(key: string, count: nat): string {
    HTTP_TOTAL + "{" + key + "} " + Digits(count)
  }

  function HttpCountText(counts: map<string, nat>, keys: seq<string>): string
    requires forall k | k in keys :: k in counts
  {
    if keys == [] then ""
    else
      var last := keys[|keys| - 1];
      HttpCountText(counts, keys[..|keys| - 1]) + Line(HttpCountLine(last, counts[last]))
  }

  function HttpSeries(key: string, h: HttpHistogram): string
    requires |h.buckets| == |BOUNDS|
  {
    BucketText(HTTP_DURATION, key + ",", h.buckets, |BOUNDS|)
    + Line(HTTP_DURATION + "_bucket{" + key + ",le=\"+Inf\"} " + Digits(h.count))
    + Line(HTTP_DURATION + "_sum{" + key + "} " + Fixed6(h.sum))
    + Line(HTTP_DURATION + "_count{" + key + "} " + Digits(h.count))
  }

  function HttpHistogramText(hists: map<string, HttpHistogram>, keys: seq<string>): string
    requires forall k | k in keys :: k in hists && |hists[k].buckets| == |BOUNDS|
  {
    if keys == [] then ""
    else
      var last := keys[|keys| - 1];
      HttpHistogramText(hists, keys[..|keys| - 1]) + HttpSeries(last, hists[last])
  }

  // A rendering that has loaded every number of the job histogram, and the lines they become.
  predicate Loaded(s: State) {
    |s.loads| == |BOUNDS| + 2 && s.sumLoad.Some?
  }

  function JobHistogramOf(s: State): string
    requires Loaded(s)
  {
    JobHistogramText(s.loads[..|BOUNDS|], s.loads[|BOUNDS|], s.sumLoad.value, s.loads[|BOUNDS| + 1])
  }

  // The HTTP series, and the order in which each of the two maps is walked.
  datatype HttpPart = HttpPart(
    counts: map<string, nat>, hists: map<string, HttpHistogram>, countKeys: seq<string>, histKeys: seq<string>)

  predicate Walks(h: HttpPart) {
    && (forall k | k in h.countKeys :: k in h.counts)
    && (forall k | k in h.histKeys :: k in h.hists && |h.hists[k].buckets| == |BOUNDS|)
  }

  // What renderPrometheus writes for the numbers it has loaded.
  function Exposition(m: JobMetrics, s: State, h: HttpPart): string
    requires Loaded(s) && Walks(h)
  {
    RowsText(JobRows(m))
    + (JobHistogramOf(s)
       + (HttpHeader() + (HttpCountText(h.counts, h.countKeys) + HttpHistogramText(h.hists, h.histKeys))))
  }

  // The atomic counters, and whatever other threads do to them between two loads.
  class JobCounters {
    var now: JobMetrics

    constructor ()
      ensures now == JobMetrics(0, 0, 0, 0, 0, 0, 0.0)
    {
      now := JobMetrics(0, 0, 0, 0, 0, 0, 0.0);
    }

    method OthersCount()
      modifies this
      ensures NotBelow(old(now), now)
    {
      var later: JobMetrics := *;
      if NotBelow(now, later) { now := later; }
    }
  }

  predicate NotBelow(a: JobMetrics, b: JobMetrics) {
    && a.submitted <= b.submitted && a.completed <= b.completed && a.failed <= b.failed
    && a.retried <= b.retried && a.deadLettered <= b.deadLettered
  }

  // Each counter at its own moment.
  method LoadCounters(counters: JobCounters) returns (m: JobMetrics)
    modifies counters
    ensures NotBelow(old(counters.now), m) && NotBelow(m, counters.now)
  {
    counters.OthersCount();
    m := counters.now;
    counters.OthersCount();
    m := m.(completed := counters.now.completed);
    counters.OthersCount();
    m := m.(failed := counters.now.failed);
    counters.OthersCount();
    m := m.(retried := counters.now.retried);
    counters.OthersCount();
    m := m.(deadLettered := counters.now.deadLettered);
    counters.OthersCount();
    m := m.(active := counters.now.active);
    counters.OthersCount();
    m := m.(queueDepth := counters.now.queueDepth);
  }

  // Each number of the job histogram at its own moment, observers at work in between.
  method LoadJobHistogram(j: JobHistogram) returns (buckets: seq<nat>, inf: nat, sum: real, count: nat)
    requires j.Valid()
    modifies j, j.buckets
    ensures j.Valid() && Loaded(j.now) && |buckets| == |BOUNDS|
    ensures j.now.loads == buckets + [inf] + [count] && j.now.sumLoad == Some(sum)
  {
    j.Record(Scrape);
    buckets := [];
    for i := 0 to |BOUNDS|
      invariant j.Valid() && |buckets| == i && j.now.loads == buckets && j.now.sumLoad.None?
    {
      j.OthersObserve(None);
      buckets := buckets + [j.buckets[i]];
      j.Record(Load);
    }
    j.OthersObserve(None);
    inf := j.count;
    j.Record(Load);
    j.OthersObserve(None);
    sum := j.sum;
    j.Record(Load);
    j.OthersObserve(None);
    count := j.count;
    j.Record(Load);
  }

  method WriteJobHistogram(buckets: seq<nat>, inf: nat, sum: real, count: nat) returns (out: string)
    requires |buckets| == |BOUNDS|
    ensures out == JobHistogramText(buckets, inf, sum, count)
  {
    var lines := RenderBuckets(JOB_DURATION, "", buckets);
    out := Line("# HELP " + JOB_DURATION + " Job processing duration in seconds")
      + Line("# TYPE " + JOB_DURATION + " histogram")
      + lines
      + Line(JOB_DURATION + "_bucket{le=\"+Inf\"} " + Digits(inf))
      + Line(JOB_DURATION + "_sum " + Fixed6(sum))
      + Line(JOB_DURATION + "_count " + Digits(count));
  }

  // Some order of the elements, each once.
  predicate Enumerates(keys: seq<string>, all: set<string>) {
    && (forall k | k in keys :: k in all) && (forall k | k in all :: k in keys)
    && forall i, j | 0 <= i < j < |keys| :: keys[i] != keys[j]
  }

  lemma LoadsAsText(s: State, buckets: seq<nat>, inf: nat, sum: real, count: nat)
    requires Loaded(s) && |buckets| == |BOUNDS| && s.loads == buckets + [inf] + [count] && s.sumLoad == Some(sum)
    ensures JobHistogramOf(s) == JobHistogramText(buckets, inf, sum, count)
  {
    assert s.loads[..|BOUNDS|] == buckets;
  }

  // The text of the numbers loaded; the label maps are walked with the mutex held.
  method WriteExposition(m: JobMetrics, buckets: seq<nat>, inf: nat, sum: real, count: nat,
                         h: HttpPart, ghost s: State) returns (out: string)
    requires Loaded(s) && Walks(h)
    requires |buckets| == |BOUNDS| && s.loads == buckets + [inf] + [count] && s.sumLoad == Some(sum)
    ensures out == Exposition(m, s, h)
  {
    var rows := RenderRows(JobRows(m));
    LoadsAsText(s, buckets, inf, sum, count);
    var jobHistogram := WriteJobHistogram(buckets, inf, sum, count);
    var counts := RenderHttpCounts(h.counts, h.countKeys);
    var hists := RenderHttpHistograms(h.hists, h.histKeys);
    out := rows + (jobHistogram + (HttpHeader() + (counts + hists)));
  }

  // The text is local, so it makes no difference that the source appends each number as soon
  // as it has loaded it.  The two hash maps may be walked in two different orders.
  method RenderPrometheus(counters: JobCounters, j: JobHistogram, h: HttpHistograms,
                          countKeys: seq<string>, histKeys: seq<string>)
    returns (out: string, m: JobMetrics)
    requires j.Valid() && h.Valid()
    requires Enumerates(countKeys, h.httpRequestCounts.Keys) && Enumerates(histKeys, h.httpDurationHistograms.Keys)
    modifies counters, j, j.buckets
    ensures j.Valid() && Read(j.now) && Loaded(j.now)
    ensures NotBelow(old(counters.now), m) && NotBelow(m, counters.now)
    ensures out == Exposition(m, j.now, HttpPart(h.httpRequestCounts, h.httpDurationHistograms, countKeys, histKeys))
  {
    m := LoadCounters(counters);
    var buckets, inf, sum, count := LoadJobHistogram(j);
    AlwaysRead(j.states, j.labels, |j.labels|);
    var part := HttpPart(h.httpRequestCounts, h.httpDurationHistograms, countKeys, histKeys);
    out := WriteExposition(m, buckets, inf, sum, count, part, j.now);
  }

  method RenderRows(rows: seq<Row>) returns (out: string)
    ensures out == RowsText(rows)
  {
    out := "";
    for i := 0 to |rows|
      invariant out + RowsText(rows[i..]) == RowsText(rows)
    {
      assert rows[i..][1..] == rows[i + 1..];
      out := out + RowText(rows[i]);
    }
  }

  method RenderHttpCounts(counts: map<string, nat>, keys: seq<string>) returns (out: string)
    requires forall k | k in keys :: k in counts
    ensures out == HttpCountText(counts, keys)
  {
    out := "";
    for i := 0 to |keys|
      invariant out == HttpCountText(counts, keys[..i])
    {
      assert keys[..i + 1][..i] == keys[..i];
      out := out + Line(HttpCountLine(keys[i], counts[keys[i]]));
    }
    assert keys[..|keys|] == keys;
  }

  lemma HistogramTextNext(hists: map<string, HttpHistogram>, keys: seq<string>, i: nat)
    requires forall k | k in keys :: k in hists && |hists[k].buckets| == |BOUNDS|
    requires i < |keys|
    ensures HttpHistogramText(hists, keys[..i + 1])
            == HttpHistogramText(hists, keys[..i]) + HttpSeries(keys[i], hists[keys[i]])
  {
    assert keys[..i + 1][..i] == keys[..i];
  }

  method RenderHttpHistograms(hists: map<string, HttpHistogram>, keys: seq<string>) returns (out: string)
    requires forall k | k in keys :: k in hists && |hists[k].buckets| == |BOUNDS|
    ensures out == HttpHistogramText(hists, keys)
  {
    out := "";
    for i := 0 to |keys|
      invariant out == HttpHistogramText(hists, keys[..i])
    {
      var series := RenderHttpSeries(keys[i], hists[keys[i]]);
      out := out + series;
      HistogramTextNext(hists, keys, i);
    }
    assert keys[..|keys|] == keys;
  }

  method RenderHttpSeries(key: string, h: HttpHistogram) returns (out: string)
    requires |h.buckets| == |BOUNDS|
    ensures out == HttpSeries(key, h)
  {
    out := RenderBuckets(HTTP_DURATION, key + ",", h.buckets);
    out := out + Line(HTTP_DURATION + "_bucket{" + key + ",le=\"+Inf\"} " + Digits(h.count))
      + Line(HTTP_DURATION + "_sum{" + key + "} " + Fixed6(h.sum))
      + Line(HTTP_DURATION + "_count{" + key + "} " + Digits(h.count));
  }

  // ---- Parsing ----

  datatype Summary = Summary(
    jobsSubmitted: int, jobsCompleted: int, jobsFailed: int, jobsRetried: int,
    jobsDeadLettered: int, jobsActive: int)

  function OrZero(v: Option<int>): int {
    if v.Some? then Rounded(v.value) else 0
  }

  method ParseMetricsSummary(body: string) returns (snapshot: Summary)
    ensures snapshot == Parsed(body)
  {
    var submitted := ParsePrometheusScalar(body, "cortex_jobs_submitted_total");
    var completed := ParsePrometheusScalar(body, "cortex_jobs_completed_total");
    var failed := ParsePrometheusScalar(body, "cortex_jobs_failed_total");
    var retried := ParsePrometheusScalar(body, "cortex_jobs_retried_total");
    var deadLettered := ParsePrometheusScalar(body, "cortex_jobs_dead_lettered_total");
    var active := ParsePrometheusScalar(body, "cortex_jobs_active");
    snapshot := Summary(OrZero(submitted), OrZero(completed), OrZero(failed), OrZero(retried),
                        OrZero(deadLettered), OrZero(active));
  }

  lemma PaddedPrintable(n: nat, width: nat)
    ensures AllDigits(Padded(n, width))
  {
  }

  function Pow10(n: nat): nat {
    if n == 0 then 1 else 10 * Pow10(n - 1)
  }

  lemma {:induction false} PaddedValue(n: nat, width: nat)
    requires n < Pow10(width)
    ensures |Padded(n, width)| == width && AllDigits(Padded(n, width)) && Value(Padded(n, width)) == n
    decreases width
  {
    if width > 0 {
      PaddedValue(n / 10, width - 1);
      var s := Padded(n, width);
      assert s[..|s| - 1] == Padded(n / 10, width - 1);
    }
  }

  // Digits, a point and six digits, read in millionths.
  predicate IsFixed6(s: string) {
    |s| >= 8 && s[|s| - 7] == '.' && AllDigits(s[..|s| - 7]) && AllDigits(s[|s| - 6..])
  }

  function ReadFixed6(s: string): nat
    requires IsFixed6(s)
  {
    1000000 * Value(s[..|s| - 7]) + Value(s[|s| - 6..])
  }

  // A printed number is read as the nearest number of millionths.
  lemma Fixed6ReadBack(x: real)
    requires x >= 0.0
    ensures IsFixed6(Fixed6(x))
    ensures var m := ReadFixed6(Fixed6(x)) as real; -0.5 <= x * 1000000.0 - m <= 0.5
  {
    var micros := (x * 1000000.0 + 0.5).Floor;
    var whole, rest := Digits(micros / 1000000), Padded(micros % 1000000, 6);
    assert Pow10(3) == 1000 && Pow10(6) == 1000 * Pow10(3);
    PaddedValue(micros % 1000000, 6);
    ValueOfDigits(micros / 1000000);
    var s := whole + "." + rest;
    assert s[..|s| - 7] == whole && s[|s| - 6..] == rest && s[|s| - 7] == '.';
  }

  lemma Fixed6Printable(x: real)
    ensures Free(Fixed6(x), '\n')
  {
    var micros := (x * 1000000.0 + 0.5).Floor;
    if micros >= 0 { PaddedPrintable(micros % 1000000, 6); }
  }

  lemma SkipsBlank(n: int)
    ensures LeadingInt(" " + IntText(n)) == Some(n)
  {
    LeadingIntOfText(n);
    assert (" " + IntText(n))[1..] == IntText(n);
  }

  // Each fixed name is one word and each help text one line.
  lemma DoneNamesAreWords()
    ensures Word("cortex_jobs_submitted_total")
    ensures Word("cortex_jobs_completed_total")
  {
  }

  lemma FailureNamesAreWords()
    ensures Word("cortex_jobs_failed_total")
    ensures Word("cortex_jobs_retried_total")
  {
  }

  lemma DeadAndActiveNamesAreWords()
    ensures Word("cortex_jobs_dead_lettered_total")
    ensures Word("cortex_jobs_active")
  {
  }

  lemma DepthNameIsWord()
    ensures Word("cortex_jobs_queue_depth")
  {
  }

  lemma DoneHelpsAreLines()
    ensures Free("Total number of jobs ", '\n')
    ensures Free("completed successfully", '\n')
    ensures Free("that permanently failed", '\n')
  {
  }

  lemma RetryHelpsAreLines()
    ensures Free("Total number of ", '\n')
    ensures Free("scheduled job retries", '\n')
    ensures Free("moved to dead-letter stream", '\n')
  {
  }

  lemma GaugeHelpsAreLines()
    ensures Free("Current number of jobs ", '\n')
    ensures Free("actively being processed", '\n')
    ensures Free("Current Redis stream load ", '\n')
  {
  }

  lemma ShortHelpsAreLines()
    ensures Free("used by backpressure", '\n')
    ensures Free("submitted", '\n')
    ensures Free("counter", '\n')
  {
  }

  lemma GaugeIsLine()
    ensures Free("gauge", '\n')
  {
  }

  lemma CounterRowsPrintable(m: JobMetrics)
    ensures forall i: nat | i < 5 :: Printable(JobRows(m)[i])
  {
    DoneNamesAreWords();
    FailureNamesAreWords();
    DeadAndActiveNamesAreWords();
    DoneHelpsAreLines();
    RetryHelpsAreLines();
    ShortHelpsAreLines();
  }

  lemma GaugeRowsPrintable(m: JobMetrics)
    ensures Printable(JobRows(m)[5]) && Printable(JobRows(m)[6])
  {
    DeadAndActiveNamesAreWords();
    DepthNameIsWord();
    GaugeHelpsAreLines();
    ShortHelpsAreLines();
    GaugeIsLine();
    Fixed6Printable(m.queueDepth);
  }

  lemma JobRowsPrintable(m: JobMetrics)
    ensures forall r | r in JobRows(m) :: Printable(r)
  {
    CounterRowsPrintable(m);
    GaugeRowsPrintable(m);
  }

  lemma JobNamesDistinct(m: JobMetrics, i: nat, k: nat)
    requires i < k < |JobRows(m)|
    ensures JobRows(m)[i].name != JobRows(m)[k].name
  {
    // The first letters after "cortex_jobs_" tell the names apart.
    assert JobRows(m)[i].name[12] != JobRows(m)[k].name[12];
  }

  // Reading what was printed gives back each number as the nearest double, whatever follows.
  lemma SummaryReadBack(m: JobMetrics, tail: string)
    ensures
      var body := RowsText(JobRows(m)) + tail;
      && Scan(body, "cortex_jobs_submitted_total") == Some(m.submitted)
      && Scan(body, "cortex_jobs_completed_total") == Some(m.completed)
      && Scan(body, "cortex_jobs_failed_total") == Some(m.failed)
      && Scan(body, "cortex_jobs_retried_total") == Some(m.retried)
      && Scan(body, "cortex_jobs_dead_lettered_total") == Some(m.deadLettered)
      && Scan(body, "cortex_jobs_active") == Some(m.active)
  {
    assert JobRows(m)[0].name == "cortex_jobs_submitted_total";
    assert JobRows(m)[1].name == "cortex_jobs_completed_total";
    assert JobRows(m)[2].name == "cortex_jobs_failed_total";
    assert JobRows(m)[3].name == "cortex_jobs_retried_total";
    assert JobRows(m)[4].name == "cortex_jobs_dead_lettered_total";
    assert JobRows(m)[5].name == "cortex_jobs_active";
    RowReadBack(m, tail, 0, m.submitted);
    RowReadBack(m, tail, 1, m.completed);
    RowReadBack(m, tail, 2, m.failed);
    RowReadBack(m, tail, 3, m.retried);
    RowReadBack(m, tail, 4, m.deadLettered);
    RowReadBack(m, tail, 5, m.active);
  }

  lemma RowReadBack(m: JobMetrics, tail: string, k: nat, n: int)
    requires k < 6 && JobRows(m)[k].value == IntText(n)
    ensures Scan(RowsText(JobRows(m)) + tail, JobRows(m)[k].name) == Some(n)
  {
    JobRowsPrintable(m);
    forall i | 0 <= i < k ensures JobRows(m)[i].name != JobRows(m)[k].name { JobNamesDistinct(m, i, k); }
    ScanRows(JobRows(m), tail, k);
    SkipsBlank(n);
  }

  // The numbers a double holds exactly; every number below 2^53 is one.
  predicate Representable(n: int) {
    var size: nat := if n < 0 then -n else n;
    size % Gap(size) == 0
  }

  function Parsed(body: string): Summary {
    Summary(
      OrZero(Scan(body, "cortex_jobs_submitted_total")), OrZero(Scan(body, "cortex_jobs_completed_total")),
      OrZero(Scan(body, "cortex_jobs_failed_total")), OrZero(Scan(body, "cortex_jobs_retried_total")),
      OrZero(Scan(body, "cortex_jobs_dead_lettered_total")), OrZero(Scan(body, "cortex_jobs_active")))
  }

  lemma RoundedExact(n: int)
    ensures Rounded(n) == n <==> Representable(n)
    ensures -0x20_0000_0000_0000 < n < 0x20_0000_0000_0000 ==> Representable(n)
  {
    DoubleExact(if n < 0 then -n else n);
  }

  // The summary equals what was printed if and only if all six numbers are representable.
  lemma SummaryExact(m: JobMetrics, tail: string)
    ensures
      Parsed(RowsText(JobRows(m)) + tail)
        == Summary(m.submitted, m.completed, m.failed, m.retried, m.deadLettered, m.active)
      <==> Representable(m.submitted) && Representable(m.completed) && Representable(m.failed)
           && Representable(m.retried) && Representable(m.deadLettered) && Representable(m.active)
  {
    SummaryReadBack(m, tail);
    RoundedExact(m.submitted);
    RoundedExact(m.completed);
    RoundedExact(m.failed);
    RoundedExact(m.retried);
    RoundedExact(m.deadLettered);
    RoundedExact(m.active);
  }

  // The first number that does not survive the double.
  lemma SummaryInexact()
    ensures !Representable(0x20_0000_0000_0001)
    ensures forall n: nat | n <= 0x20_0000_0000_0000 :: Representable(n)
  {
    assert Gap(0x10_0000_0000_0000) == 1;
    assert Gap(0x20_0000_0000_0000) == 2 && Gap(0x20_0000_0000_0001) == 2;
    forall n: nat | n <= 0x20_0000_0000_0000 ensures Representable(n) {
      if n < 0x20_0000_0000_0000 { RoundedExact(n); }
    }
  }
}
