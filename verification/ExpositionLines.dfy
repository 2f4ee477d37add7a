// The lines of the rendered text that no reader modelled here looks at: each is there, whole,
// with the number that belongs to it.
module ExpositionLines {
  import opened Strings
  import opened Text
  import opened MetricsText
  import opened Histograms
  import opened HistogramRaces
  import opened MetricsExport

  predicate AtLineEnd(s: string) {
    s == "" || s[|s| - 1] == '\n'
  }

  // Some line of the text starts with `line` and a newline, so it is `line` up to its first
  // newline.
  predicate HasLine(text: string, line: string)
    decreases |text|
  {
    Line(line) <= text || (text != "" && HasLine(AfterLine(text), line))
  }

  lemma {:induction false} AfterLineAppend(a: string, b: string)
    requires !Free(a, '\n')
    ensures AfterLine(a + b) == AfterLine(a) + b
  {
    if a[0] == '\n' {
      assert (a + b)[1..] == a[1..] + b;
    } else {
      assert (a + b)[1..] == a[1..] + b;
      AfterLineAppend(a[1..], b);
    }
  }

  lemma {:induction false} AfterLineEnds(a: string)
    requires a != "" && AtLineEnd(a)
    ensures !Free(a, '\n') && AtLineEnd(AfterLine(a))
  {
    if a[0] != '\n' {
      assert a[1..] != "" && a[1..][|a| - 2] == a[|a| - 1];
      AfterLineEnds(a[1..]);
    }
  }

  lemma {:induction false} HasLater(a: string, b: string, line: string)
    requires AtLineEnd(a) && HasLine(b, line)
    ensures HasLine(a + b, line)
    decreases |a|
  {
    if a == "" {
      assert a + b == b;
    } else {
      AfterLineEnds(a);
      AfterLineAppend(a, b);
      HasLater(AfterLine(a), b, line);
    }
  }

  lemma {:induction false} HasEarlier(a: string, b: string, line: string)
    requires HasLine(a, line)
    ensures HasLine(a + b, line)
    decreases |a|
  {
    if !(Line(line) <= a) {
      if Free(a, '\n') { NothingAfter(a); }
      AfterLineAppend(a, b);
      HasEarlier(AfterLine(a), b, line);
    }
  }

  lemma {:induction false} NothingAfter(a: string)
    requires Free(a, '\n')
    ensures AfterLine(a) == ""
  {
    if a != "" { NothingAfter(a[1..]); }
  }

  lemma EndsTogether(a: string, b: string)
    requires AtLineEnd(a) && AtLineEnd(b)
    ensures AtLineEnd(a + b)
  {
    if b == "" { assert a + b == a; }
  }

  lemma LineEnds(s: string)
    ensures AtLineEnd(Line(s)) && HasLine(Line(s), s)
  {
  }

  ghost predicate HasLines(text: string, lines: seq<string>) {
    forall line | line in lines :: HasLine(text, line)
  }

  lemma LinesLater(a: string, b: string, lines: seq<string>)
    requires AtLineEnd(a) && HasLines(b, lines)
    ensures HasLines(a + b, lines)
  {
    forall line | line in lines ensures HasLine(a + b, line) { HasLater(a, b, line); }
  }

  lemma LinesEarlier(a: string, b: string, lines: seq<string>)
    requires HasLines(a, lines)
    ensures HasLines(a + b, lines)
  {
    forall line | line in lines ensures HasLine(a + b, line) { HasEarlier(a, b, line); }
  }

  lemma OneMore(text: string, lines: seq<string>, x: string)
    requires AtLineEnd(text) && HasLines(text, lines)
    ensures AtLineEnd(text + Line(x)) && HasLines(text + Line(x), lines + [x])
  {
    LineEnds(x);
    EndsTogether(text, Line(x));
    HasLater(text, Line(x), x);
    LinesEarlier(text, Line(x), lines);
  }

  lemma ThreeMore(text: string, lines: seq<string>, x: string, y: string, z: string)
    requires AtLineEnd(text) && HasLines(text, lines)
    ensures var all := text + Line(x) + Line(y) + Line(z); AtLineEnd(all) && HasLines(all, lines + [x] + [y] + [z])
  {
    OneMore(text, lines, x);
    OneMore(text + Line(x), lines + [x], y);
    OneMore(text + Line(x) + Line(y), lines + [x] + [y], z);
  }

  // ---- The pieces ----

  lemma {:induction false} RowsEnd(rows: seq<Row>, k: nat)
    requires k < |rows|
    ensures AtLineEnd(RowsText(rows)) && HasLines(RowsText(rows), [rows[k].name + " " + rows[k].value])
  {
    var sample := rows[k].name + " " + rows[k].value;
    RowEnds(rows[0]);
    if |rows| > 1 { RowsEnd(rows[1..], if k > 0 then k - 1 else 0); }
    EndsTogether(RowText(rows[0]), RowsText(rows[1..]));
    if k == 0 {
      LinesEarlier(RowText(rows[0]), RowsText(rows[1..]), [sample]);
    } else {
      LinesLater(RowText(rows[0]), RowsText(rows[1..]), [sample]);
    }
  }

  lemma RowEnds(r: Row)
    ensures AtLineEnd(RowText(r)) && HasLines(RowText(r), [r.name + " " + r.value])
  {
    var help, kind := "# HELP " + r.name + " " + r.help, "# TYPE " + r.name + " " + r.kind;
    LineEnds(help);
    LineEnds(kind);
    EndsTogether(Line(help), Line(kind));
    OneMore(Line(help) + Line(kind), [], r.name + " " + r.value);
  }

  function BucketLines(metric: string, labels: string, buckets: seq<nat>, n: nat): seq<string>
    requires n <= |BOUNDS| == |buckets|
  {
    if n == 0 then []
    else BucketLines(metric, labels, buckets, n - 1) + [BucketLine(metric, labels, n - 1, buckets[n - 1])]
  }

  lemma {:induction false} BucketsEnd(metric: string, labels: string, buckets: seq<nat>, n: nat)
    requires n <= |BOUNDS| == |buckets|
    ensures AtLineEnd(BucketText(metric, labels, buckets, n))
    ensures HasLines(BucketText(metric, labels, buckets, n), BucketLines(metric, labels, buckets, n))
  {
    if n > 0 {
      BucketsEnd(metric, labels, buckets, n - 1);
      OneMore(BucketText(metric, labels, buckets, n - 1), BucketLines(metric, labels, buckets, n - 1),
              BucketLine(metric, labels, n - 1, buckets[n - 1]));
    }
  }

  // The lines after the buckets, of the job histogram and of one HTTP series.
  function JobTail(inf: nat, sum: real, count: nat): seq<string> {
    ["cortex_job_processing_duration_seconds_bucket{le=\"+Inf\"} " + Digits(inf)]
    + ["cortex_job_processing_duration_seconds_sum " + Fixed6(sum)]
    + ["cortex_job_processing_duration_seconds_count " + Digits(count)]
  }

  function SeriesTail(key: string, h: HttpHistogram): seq<string> {
    ["cortex_http_request_duration_seconds_bucket{" + key + ",le=\"+Inf\"} " + Digits(h.count)]
    + ["cortex_http_request_duration_seconds_sum{" + key + "} " + Fixed6(h.sum)]
    + ["cortex_http_request_duration_seconds_count{" + key + "} " + Digits(h.count)]
  }

  lemma MetricNames()
    ensures JOB_DURATION + "_bucket{le=\"+Inf\"} " == "cortex_job_processing_duration_seconds_bucket{le=\"+Inf\"} "
    ensures JOB_DURATION + "_sum " == "cortex_job_processing_duration_seconds_sum "
    ensures JOB_DURATION + "_count " == "cortex_job_processing_duration_seconds_count "
  {
  }

  lemma SeriesNames()
    ensures HTTP_DURATION + "_bucket{" == "cortex_http_request_duration_seconds_bucket{"
    ensures HTTP_DURATION + "_sum{" == "cortex_http_request_duration_seconds_sum{"
    ensures HTTP_DURATION + "_count{" == "cortex_http_request_duration_seconds_count{"
    ensures HTTP_TOTAL + "{" == "cortex_http_requests_total{"
  {
  }

  lemma JobHistogramEnds(buckets: seq<nat>, inf: nat, sum: real, count: nat)
    requires |buckets| == |BOUNDS|
    ensures AtLineEnd(JobHistogramText(buckets, inf, sum, count))
    ensures HasLines(JobHistogramText(buckets, inf, sum, count), JobTail(inf, sum, count))
  {
    var help := "# HELP " + JOB_DURATION + " Job processing duration in seconds";
    var kind := "# TYPE " + JOB_DURATION + " histogram";
    BucketsEnd(JOB_DURATION, "", buckets, |BOUNDS|);
    FrontEnds(help, kind, BucketText(JOB_DURATION, "", buckets, |BOUNDS|));
    MetricNames();
    ThreeMore(Line(help) + Line(kind) + BucketText(JOB_DURATION, "", buckets, |BOUNDS|), [],
              JOB_DURATION + "_bucket{le=\"+Inf\"} " + Digits(inf), JOB_DURATION + "_sum " + Fixed6(sum),
              JOB_DURATION + "_count " + Digits(count));
  }

  lemma FrontEnds(help: string, kind: string, text: string)
    requires AtLineEnd(text)
    ensures AtLineEnd(Line(help) + Line(kind) + text)
  {
    EndsTogether(Line(help), Line(kind));
    EndsTogether(Line(help) + Line(kind), text);
  }

  lemma HeaderEnds()
    ensures AtLineEnd(HttpHeader())
  {
    assert HttpHeader()[|HttpHeader()| - 1] == '\n';
  }

  lemma SeriesEnds(key: string, h: HttpHistogram)
    requires |h.buckets| == |BOUNDS|
    ensures AtLineEnd(HttpSeries(key, h))
    ensures HasLines(HttpSeries(key, h), SeriesLines(key, h))
  {
    var front := BucketText(HTTP_DURATION, key + ",", h.buckets, |BOUNDS|);
    var lines := BucketLines(HTTP_DURATION, key + ",", h.buckets, |BOUNDS|);
    var x := HTTP_DURATION + "_bucket{" + key + ",le=\"+Inf\"} " + Digits(h.count);
    var y := HTTP_DURATION + "_sum{" + key + "} " + Fixed6(h.sum);
    var z := HTTP_DURATION + "_count{" + key + "} " + Digits(h.count);
    BucketsEnd(HTTP_DURATION, key + ",", h.buckets, |BOUNDS|);
    SeriesNames();
    ThreeMore(front, lines, x, y, z);
    assert lines + ([x] + [y] + [z]) == lines + [x] + [y] + [z];
  }

  // All lines of one HTTP series.
  function SeriesLines(key: string, h: HttpHistogram): seq<string>
    requires |h.buckets| == |BOUNDS|
  {
    BucketLines(HTTP_DURATION, key + ",", h.buckets, |BOUNDS|) + SeriesTail(key, h)
  }

  function CountLines(counts: map<string, nat>, keys: seq<string>): seq<string>
    requires forall k | k in keys :: k in counts
  {
    if keys == [] then []
    else
      var last := keys[|keys| - 1];
      CountLines(counts, keys[..|keys| - 1]) + ["cortex_http_requests_total{" + last + "} " + Digits(counts[last])]
  }

  lemma {:induction false} CountsEnd(counts: map<string, nat>, keys: seq<string>)
    requires forall k | k in keys :: k in counts
    ensures AtLineEnd(HttpCountText(counts, keys)) && HasLines(HttpCountText(counts, keys), CountLines(counts, keys))
  {
    if keys != [] {
      var last, others := keys[|keys| - 1], keys[..|keys| - 1];
      SeriesNames();
      CountsEnd(counts, others);
      OneMore(HttpCountText(counts, others), CountLines(counts, others), HttpCountLine(last, counts[last]));
    }
  }

  function AllSeriesLines(hists: map<string, HttpHistogram>, keys: seq<string>): seq<string>
    requires forall k | k in keys :: k in hists && |hists[k].buckets| == |BOUNDS|
  {
    if keys == [] then []
    else
      var last := keys[|keys| - 1];
      AllSeriesLines(hists, keys[..|keys| - 1]) + SeriesLines(last, hists[last])
  }

  lemma {:induction false} HistogramsEnd(hists: map<string, HttpHistogram>, keys: seq<string>)
    requires forall k | k in keys :: k in hists && |hists[k].buckets| == |BOUNDS|
    ensures AtLineEnd(HttpHistogramText(hists, keys))
    ensures HasLines(HttpHistogramText(hists, keys), AllSeriesLines(hists, keys))
  {
    if keys != [] {
      var last, others := keys[|keys| - 1], keys[..|keys| - 1];
      HistogramsEnd(hists, others);
      SeriesEnds(last, hists[last]);
      BothHave(HttpHistogramText(hists, others), AllSeriesLines(hists, others),
               HttpSeries(last, hists[last]), SeriesLines(last, hists[last]));
    }
  }

  lemma BothHave(a: string, x: seq<string>, b: string, y: seq<string>)
    requires AtLineEnd(a) && AtLineEnd(b) && HasLines(a, x) && HasLines(b, y)
    ensures AtLineEnd(a + b) && HasLines(a + b, x + y)
  {
    EndsTogether(a, b);
    LinesEarlier(a, b, x);
    LinesLater(a, b, y);
  }

  // ---- The whole text ----

  function DepthLine(m: JobMetrics): seq<string> {
    ["cortex_jobs_queue_depth " + Fixed6(m.queueDepth)]
  }

  lemma DepthEnds(m: JobMetrics)
    ensures AtLineEnd(RowsText(JobRows(m))) && HasLines(RowsText(JobRows(m)), DepthLine(m))
  {
    var rows := JobRows(m);
    assert rows[6].name == "cortex_jobs_queue_depth" && rows[6].value == Fixed6(m.queueDepth);
    RowsEnd(rows, 6);
    assert "cortex_jobs_queue_depth" + " " == "cortex_jobs_queue_depth ";
  }

  lemma LoadedEnds(s: State)
    requires Loaded(s)
    ensures AtLineEnd(JobHistogramOf(s))
    ensures HasLines(JobHistogramOf(s), JobTail(s.loads[|BOUNDS|], s.sumLoad.value, s.loads[|BOUNDS| + 1]))
  {
    JobHistogramEnds(s.loads[..|BOUNDS|], s.loads[|BOUNDS|], s.sumLoad.value, s.loads[|BOUNDS| + 1]);
  }

  // Everything the text has to say that no reader modelled here takes from it: the queue
  // depth; the +Inf line, sum and count of the job histogram; and for every HTTP series its
  // count line and all lines of its histogram, each with the number that belongs there.
  lemma ExpositionHas(m: JobMetrics, s: State, h: HttpPart)
    requires Loaded(s) && Walks(h)
    ensures HasLines(Exposition(m, s, h),
                     DepthLine(m)
                     + (JobTail(s.loads[|BOUNDS|], s.sumLoad.value, s.loads[|BOUNDS| + 1])
                        + ([] + (CountLines(h.counts, h.countKeys) + AllSeriesLines(h.hists, h.histKeys)))))
  {
    DepthEnds(m);
    LoadedEnds(s);
    HeaderEnds();
    CountsEnd(h.counts, h.countKeys);
    HistogramsEnd(h.hists, h.histKeys);
    FiveParts(RowsText(JobRows(m)), DepthLine(m), JobHistogramOf(s),
              JobTail(s.loads[|BOUNDS|], s.sumLoad.value, s.loads[|BOUNDS| + 1]), HttpHeader(),
              HttpCountText(h.counts, h.countKeys), CountLines(h.counts, h.countKeys),
              HttpHistogramText(h.hists, h.histKeys), AllSeriesLines(h.hists, h.histKeys));
  }

  lemma FiveParts(a: string, xs: seq<string>, b: string, bs: seq<string>, c: string,
                  d: string, ds: seq<string>, e: string, es: seq<string>)
    requires AtLineEnd(a) && AtLineEnd(b) && AtLineEnd(c) && AtLineEnd(d) && AtLineEnd(e)
    requires HasLines(a, xs) && HasLines(b, bs) && HasLines(d, ds) && HasLines(e, es)
    ensures HasLines(a + (b + (c + (d + e))), xs + (bs + ([] + (ds + es))))
  {
    BothHave(d, ds, e, es);
    BothHave(c, [], d + e, ds + es);
    BothHave(b, bs, c + (d + e), [] + (ds + es));
    BothHave(a, xs, b + (c + (d + e)), bs + ([] + (ds + es)));
  }
}
