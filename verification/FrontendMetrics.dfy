// The browser's reading of the exposition text: which lines are samples, which of them are
// buckets of the job histogram, and what the page shows of them.
module FrontendMetrics {
  import opened Common
  import opened Strings
  import opened Text
  import opened MetricsText
  import opened MetricsLabels
  import opened Histograms
  import opened HistogramRaces
  import opened MetricsExport

  const BUCKET: string := JOB_DURATION + "_bucket"

  // ---- The line pattern ----

  predicate NameStart(c: char) {
    'a' <= c <= 'z' || 'A' <= c <= 'Z' || c == '_' || c == ':'
  }

  predicate NameChar(c: char) {
    NameStart(c) || IsDigit(c)
  }

  // A maximal run of name characters; the pattern cannot match with a shorter one, because
  // no name character can follow the name.
  function NameLength(s: string): (n: nat)
    ensures n <= |s|
  {
    if s != "" && NameChar(s[0]) then 1 + NameLength(s[1..]) else 0
  }

  // Optional braces: the label text, and what follows.
  function SplitLabels(s: string): Option<(string, string)> {
    if s == "" || s[0] != '{' then Some(("", s))
    else
      var k := IndexOf(s[1..], '}');
      if k == |s[1..]| then None else Some((s[1..][..k], s[1..][k + 1..]))
  }

  // White space, then a numeral up to the end; counts are whole numbers.
  function CountAfterSpace(s: string): Option<nat> {
    var d := SkipSpace(s);
    if s == "" || !IsSpace(s[0]) || d == "" || !AllDigits(d) then None else Some(Value(d))
  }

  datatype Sample = Sample(name: string, labels: string, value: nat)

  function MatchLine(line: string): Option<Sample> {
    var n := NameLength(line);
    if n == 0 || !NameStart(line[0]) then None
    else
      var rest := SplitLabels(line[n..]);
      if rest.None? then None
      else
        var value := CountAfterSpace(rest.value.1);
        if value.None? then None else Some(Sample(line[..n], rest.value.0, value.value))
  }

  // ---- The label pattern ----

  predicate WordChar(c: char) {
    (NameStart(c) && c != ':') || IsDigit(c)
  }

  function WordLength(s: string): (n: nat)
    ensures n <= |s|
    ensures s != "" && WordChar(s[0]) ==> n > 0
  {
    if s != "" && WordChar(s[0]) then 1 + WordLength(s[1..]) else 0
  }

  // The quoted value right after a word: the value, and what follows its closing quote.
  function QuotedValue(s: string): (r: Option<(string, string)>)
    ensures r.Some? ==> |r.value.1| < |s|
  {
    if |s| < 2 || s[0] != '=' || s[1] != '\"' then None
    else
      var k := IndexOf(s[2..], '\"');
      if k == |s[2..]| then None else Some((s[2..][..k], s[2..][k + 1..]))
  }

  // Every name="value" from left to right; a later one wins.
  function ParseLabels(raw: string): map<string, string>
    decreases |raw|
  {
    if raw == "" then map[]
    else if !WordChar(raw[0]) then ParseLabels(raw[1..])
    else
      var n := WordLength(raw);
      var v := QuotedValue(raw[n..]);
      if v.None? then ParseLabels(raw[n..])
      else map[raw[..n] := v.value.0] + ParseLabels(v.value.1)
  }

  // ---- Lines ----

  function TrimRight(s: string): string {
    if s != "" && IsSpace(s[|s| - 1]) then TrimRight(s[..|s| - 1]) else s
  }

  function Trim(s: string): string {
    TrimRight(SkipSpace(s))
  }

  function LeOf(labels: map<string, string>): string {
    if "le" in labels then labels["le"] else ""
  }

  // What one line adds to bucketValues.
  function LineBuckets(line: string): seq<Bucket> {
    var trimmed := Trim(line);
    if trimmed == "" || trimmed[0] == '#' then []
    else
      var m := MatchLine(trimmed);
      if m.None? || m.value.name != BUCKET then []
      else [Bucket(LeOf(ParseLabels(m.value.labels)), Rounded(m.value.value))]
  }

  // What the lines of a text add, one after the other.
  function PerLine<T>(text: string, f: string -> seq<T>): seq<T>
    decreases |text|
  {
    if text == "" then [] else f(FirstLine(text)) + PerLine(AfterLine(text), f)
  }

  function TextBuckets(text: string): seq<Bucket> {
    PerLine(text, LineBuckets)
  }

  method CollectLines<T>(text: string, f: string -> seq<T>) returns (all: seq<T>)
    ensures all == PerLine(text, f)
  {
    all := [];
    var rest := text;
    while rest != ""
      invariant all + PerLine(rest, f) == PerLine(text, f)
      decreases |rest|
    {
      all := all + f(FirstLine(rest));
      rest := AfterLine(rest);
    }
  }

  method ParsePrometheusMetrics(text: string) returns (durationBuckets: seq<Decoded>)
    ensures DecodesTo(FiniteBuckets(TextBuckets(text)), durationBuckets)
  {
    var bucketValues := CollectLines(text, LineBuckets);
    durationBuckets := DecodeBuckets(bucketValues);
  }

  // ---- Lines that are not buckets ----

  lemma {:induction false} TrimRightIsPrefix(s: string)
    ensures TrimRight(s) <= s
  {
    if s != "" && IsSpace(s[|s| - 1]) { TrimRightIsPrefix(s[..|s| - 1]); }
  }

  // A line that differs from the bucket name somewhere adds nothing.
  lemma OtherLine(line: string, k: nat)
    requires k < |line| && k < |BUCKET| && line[k] != BUCKET[k] && !IsSpace(line[0])
    ensures LineBuckets(line) == []
  {
    assert SkipSpace(line) == line;
    TrimRightIsPrefix(line);
    NameIsPrefix(Trim(line));
  }

  lemma NameIsPrefix(s: string)
    ensures MatchLine(s).Some? ==> MatchLine(s).value.name <= s
  {
  }

  // ---- A bucket line ----

  lemma {:induction false} NameRun(name: string, rest: string)
    requires forall i | 0 <= i < |name| :: NameChar(name[i])
    requires rest != "" && !NameChar(rest[0])
    ensures NameLength(name + rest) == |name|
  {
    var s := name + rest;
    if name == "" {
      assert s == rest;
    } else {
      assert s[0] == name[0] && s[1..] == name[1..] + rest;
      NameRun(name[1..], rest);
    }
  }

  lemma LabelsSplit(labels: string, rest: string)
    requires Free(labels, '}')
    ensures SplitLabels(['{'] + (labels + ['}'] + rest)) == Some((labels, rest))
  {
    var s := labels + ['}'] + rest;
    assert (['{'] + s)[1..] == s;
    IndexOfFirst(labels, '}', rest);
    assert s[..|labels|] == labels && s[|labels| + 1..] == rest;
  }

  lemma CountRead(count: nat)
    ensures CountAfterSpace([' '] + Digits(count)) == Some(count)
  {
    var d := Digits(count);
    assert ([' '] + d)[1..] == d;
    assert SkipSpace(d) == d;
    ValueOfDigits(count);
  }

  lemma SampleMatched(name: string, labels: string, count: nat)
    requires name != "" && NameStart(name[0]) && forall i | 0 <= i < |name| :: NameChar(name[i])
    requires Free(labels, '}')
    ensures MatchLine(name + (['{'] + (labels + ['}'] + ([' '] + Digits(count))))) == Some(Sample(name, labels, count))
  {
    var after := [' '] + Digits(count);
    var rest := ['{'] + (labels + ['}'] + after);
    NameRun(name, rest);
    assert (name + rest)[..|name|] == name && (name + rest)[|name|..] == rest;
    LabelsSplit(labels, after);
    CountRead(count);
  }

  // The one label of a job bucket.
  lemma LeParsed(v: string)
    requires Free(v, '\"')
    ensures ParseLabels("le=\"" + (v + ['\"'])) == map["le" := v]
  {
    var tail := "=\"" + (v + ['\"']);
    var raw := "le" + tail;
    assert "le=\"" + (v + ['\"']) == raw;
    WordIsLe(tail);
    assert raw[2..] == tail && raw[..2] == "le";
    QuotedRead(v);
    assert ParseLabels("") == map[];
  }

  lemma QuotedRead(v: string)
    requires Free(v, '\"')
    ensures QuotedValue("=\"" + (v + ['\"'])) == Some((v, ""))
  {
    var tail := "=\"" + (v + ['\"']);
    assert tail[2..] == v + ['\"'] + "";
    IndexOfFirst(v, '\"', "");
    assert tail[2..][..|v|] == v && tail[2..][|v| + 1..] == "";
  }

  lemma WordIsLe(tail: string)
    requires tail != "" && !WordChar(tail[0])
    ensures WordLength("le" + tail) == 2
  {
    var raw := "le" + tail;
    assert raw[1..][0] == 'e' && raw[1..][1..] == tail;
    assert WordLength(tail) == 0;
    assert WordLength(raw[1..]) == 1;
  }

  lemma TrimKeeps(s: string)
    requires s != "" && !IsSpace(s[0]) && !IsSpace(s[|s| - 1])
    ensures Trim(s) == s
  {
    assert SkipSpace(s) == s;
  }

  lemma BucketIsName()
    ensures BUCKET != "" && BUCKET[0] == 'c' && forall i | 0 <= i < |BUCKET| :: NameChar(BUCKET[i])
  {
    assert forall i | 0 <= i < |JOB_DURATION| :: NameChar(JOB_DURATION[i]);
    assert forall i | 0 <= i < |"_bucket"| :: NameChar("_bucket"[i]);
  }

  function LeLabel(v: string): string {
    "le=\"" + (v + ['\"'])
  }

  function Labelled(name: string, labels: string, count: nat): string {
    name + (['{'] + (labels + ['}'] + ([' '] + Digits(count))))
  }

  lemma BucketLineRegrouped(metric: string, v: string, n: string)
    ensures metric + "_bucket{" + "le=\"" + v + "\"} " + n
            == (metric + "_bucket") + (['{'] + (LeLabel(v) + ['}'] + ([' '] + n)))
  {
    assert "_bucket{" == "_bucket" + ['{'] && "\"} " == ['\"'] + ['}'] + [' '];
  }

  // A whole line of the job histogram: one bucket with its bound and its count.
  lemma LabelledBucket(v: string, count: nat)
    requires Free(v, '\"') && Free(v, '}')
    ensures LineBuckets(Labelled(BUCKET, LeLabel(v), count)) == [Bucket(v, Rounded(count))]
  {
    var line := Labelled(BUCKET, LeLabel(v), count);
    BucketIsName();
    assert Free(LeLabel(v), '}');
    SampleMatched(BUCKET, LeLabel(v), count);
    LabelledTrimmed(BUCKET, LeLabel(v), count);
    LeParsed(v);
  }

  lemma LabelledTrimmed(name: string, labels: string, count: nat)
    requires name != "" && !IsSpace(name[0])
    ensures var line := Labelled(name, labels, count);
            line != "" && line[0] == name[0] && Trim(line) == line
  {
    var line := Labelled(name, labels, count);
    var d := Digits(count);
    assert line[|line| - 1] == d[|d| - 1];
    TrimKeeps(line);
  }

  lemma JobBucketLine(v: string, count: nat)
    requires Free(v, '\"') && Free(v, '}')
    ensures LineBuckets(JOB_DURATION + "_bucket{" + "le=\"" + v + "\"} " + Digits(count)) == [Bucket(v, Rounded(count))]
  {
    BucketLineRegrouped(JOB_DURATION, v, Digits(count));
    LabelledBucket(v, count);
  }

  // ---- The whole text ----

  lemma LineAdds(s: string, rest: string)
    requires Free(s, '\n')
    ensures TextBuckets(Line(s) + rest) == LineBuckets(s) + TextBuckets(rest)
  {
    LineSplits(s, rest);
    assert Line(s) + rest != "";
  }

  // A text that adds exactly `ts` to what a reader collects, whatever follows.
  ghost predicate Yields<T>(read: string -> seq<T>, text: string, ts: seq<T>) {
    forall rest :: YieldsBefore(read, text, ts, rest)
  }

  predicate YieldsBefore<T(==)>(read: string -> seq<T>, text: string, ts: seq<T>, rest: string) {
    read(text + rest) == ts + read(rest)
  }

  lemma YieldsAppend<T>(read: string -> seq<T>, a: string, x: seq<T>, b: string, y: seq<T>)
    requires Yields(read, a, x) && Yields(read, b, y)
    ensures Yields(read, a + b, x + y)
  {
    forall rest ensures YieldsBefore(read, a + b, x + y, rest) {
      assert YieldsBefore(read, b, y, rest) && YieldsBefore(read, a, x, b + rest);
      assert a + b + rest == a + (b + rest);
      assert x + (y + read(rest)) == x + y + read(rest);
    }
  }

  // A text whose lines add exactly these buckets, whatever follows.
  ghost predicate Adds(text: string, bs: seq<Bucket>) {
    Yields(TextBuckets, text, bs)
  }

  lemma AddsAppend(a: string, x: seq<Bucket>, b: string, y: seq<Bucket>)
    requires Adds(a, x) && Adds(b, y)
    ensures Adds(a + b, x + y)
  {
    YieldsAppend(TextBuckets, a, x, b, y);
  }

  lemma LineAddsAll(line: string, bs: seq<Bucket>)
    requires Free(line, '\n') && LineBuckets(line) == bs
    ensures Adds(Line(line), bs)
  {
    forall rest ensures YieldsBefore(TextBuckets, Line(line), bs, rest) {
      LineAdds(line, rest);
    }
  }

  // A text none of whose lines is a job bucket.
  ghost predicate Silent(text: string) {
    Adds(text, [])
  }

  lemma SilentLine(s: string, k: nat)
    requires Free(s, '\n') && k < |s| && k < |BUCKET| && s[k] != BUCKET[k] && !IsSpace(s[0])
    ensures Silent(Line(s))
  {
    OtherLine(s, k);
    LineAddsAll(s, []);
  }

  lemma SilentAppend(a: string, b: string)
    requires Silent(a) && Silent(b)
    ensures Silent(a + b)
  {
    var none: seq<Bucket> := [];
    AddsAppend(a, none, b, none);
    assert none + none == none;
  }

  lemma SilentEmpty()
    ensures Silent("")
  {
    NothingYields(TextBuckets);
  }

  lemma NothingYields<T>(f: string -> seq<T>)
    ensures Yields(f, "", [])
  {
    forall rest ensures YieldsBefore(f, "", [], rest) {
      assert "" + rest == rest;
    }
  }

  lemma SilentComment(text: string)
    requires Free(text, '\n')
    ensures Silent(Line("# " + text))
  {
    BucketIsName();
    SilentLine("# " + text, 0);
  }

  lemma SilentRow(r: Row)
    requires Printable(r) && |r.name| > 10 && r.name[10] == 's'
    ensures Silent(RowText(r))
  {
    var help, kind, sample := "HELP " + r.name + " " + r.help, "TYPE " + r.name + " " + r.kind, r.name + " " + r.value;
    assert "# HELP " + r.name + " " + r.help == "# " + help;
    assert "# TYPE " + r.name + " " + r.kind == "# " + kind;
    SilentComment(help);
    SilentComment(kind);
    assert BUCKET[10] == '_' && sample[10] == 's' && sample[0] == r.name[0];
    SilentLine(sample, 10);
    SilentAppend(Line("# " + help), Line("# " + kind));
    SilentAppend(Line("# " + help) + Line("# " + kind), Line(sample));
  }

  lemma {:induction false} SilentRows(rows: seq<Row>)
    requires forall r | r in rows :: Printable(r) && |r.name| > 10 && r.name[10] == 's'
    ensures Silent(RowsText(rows))
  {
    if rows == [] {
      SilentEmpty();
    } else {
      assert Printable(rows[0]);
      SilentRow(rows[0]);
      SilentRows(rows[1..]);
      SilentAppend(RowText(rows[0]), RowsText(rows[1..]));
    }
  }

  lemma SilentHttpLine(s: string)
    requires Free(s, '\n') && |s| > 7 && s[0] == 'c' && s[7] == 'h'
    ensures Silent(Line(s))
  {
    assert BUCKET[7] == 'j';
    SilentLine(s, 7);
  }

  // Lines of the two HTTP metrics.
  lemma SilentHttpTail(metric: string, tail: string)
    requires metric == HTTP_TOTAL || metric == HTTP_DURATION
    requires Free(tail, '\n')
    ensures Silent(Line(metric + tail))
  {
    var s := metric + tail;
    assert metric[0] == 'c' && metric[7] == 'h' && |metric| > 7;
    HttpNamesAreLines();
    SilentHttpLine(s);
  }

  lemma HttpNamesAreLines()
    ensures Free(HTTP_TOTAL, '\n') && Free(HTTP_DURATION, '\n')
  {
  }

  lemma Regroup4(m: string, a: string, b: string, c: string, d: string)
    ensures m + a + b + c + d == m + (a + b + c + d)
  {
  }

  lemma SilentLabelled(metric: string, a: string, key: string, b: string, value: string)
    requires metric == HTTP_TOTAL || metric == HTTP_DURATION
    requires Free(a, '\n') && Free(key, '\n') && Free(b, '\n') && Free(value, '\n')
    ensures Silent(Line(metric + a + key + b + value))
  {
    Regroup4(metric, a, key, b, value);
    SilentHttpTail(metric, a + key + b + value);
  }

  lemma SilentBucketLine(labels: string, i: nat, count: nat)
    requires i < |BOUNDS| && Free(labels, '\n')
    ensures Silent(Line(BucketLine(HTTP_DURATION, labels, i, count)))
  {
    Fixed6Printable(BOUNDS[i]);
    var b := "le=\"" + Fixed6(BOUNDS[i]) + "\"} ";
    SilentLabelled(HTTP_DURATION, "_bucket{", labels, b, Digits(count));
    assert HTTP_DURATION + "_bucket{" + labels + b + Digits(count) == BucketLine(HTTP_DURATION, labels, i, count);
  }

  lemma {:induction false} SilentBuckets(labels: string, buckets: seq<nat>, n: nat)
    requires n <= |BOUNDS| == |buckets| && Free(labels, '\n')
    ensures Silent(BucketText(HTTP_DURATION, labels, buckets, n))
  {
    if n == 0 {
      SilentEmpty();
    } else {
      SilentBucketLine(labels, n - 1, buckets[n - 1]);
      SilentBuckets(labels, buckets, n - 1);
      SilentAppend(BucketText(HTTP_DURATION, labels, buckets, n - 1),
                   Line(BucketLine(HTTP_DURATION, labels, n - 1, buckets[n - 1])));
    }
  }

  lemma SilentInf(key: string, n: nat)
    requires Free(key, '\n')
    ensures Silent(Line(HTTP_DURATION + "_bucket{" + key + ",le=\"+Inf\"} " + Digits(n)))
  {
    SilentLabelled(HTTP_DURATION, "_bucket{", key, ",le=\"+Inf\"} ", Digits(n));
  }

  lemma SilentSum(key: string, sum: real)
    requires Free(key, '\n')
    ensures Silent(Line(HTTP_DURATION + "_sum{" + key + "} " + Fixed6(sum)))
  {
    Fixed6Printable(sum);
    SilentLabelled(HTTP_DURATION, "_sum{", key, "} ", Fixed6(sum));
  }

  lemma SilentCount(key: string, n: nat)
    requires Free(key, '\n')
    ensures Silent(Line(HTTP_DURATION + "_count{" + key + "} " + Digits(n)))
  {
    SilentLabelled(HTTP_DURATION, "_count{", key, "} ", Digits(n));
  }

  lemma SilentSeries(key: string, h: HttpHistogram)
    requires |h.buckets| == |BOUNDS| && Free(key, '\n')
    ensures Silent(HttpSeries(key, h))
  {
    SilentBuckets(key + ",", h.buckets, |BOUNDS|);
    SilentInf(key, h.count);
    SilentSum(key, h.sum);
    SilentCount(key, h.count);
    SilentFour(BucketText(HTTP_DURATION, key + ",", h.buckets, |BOUNDS|),
               Line(HTTP_DURATION + "_bucket{" + key + ",le=\"+Inf\"} " + Digits(h.count)),
               Line(HTTP_DURATION + "_sum{" + key + "} " + Fixed6(h.sum)),
               Line(HTTP_DURATION + "_count{" + key + "} " + Digits(h.count)));
  }

  lemma SilentFour(a: string, b: string, c: string, d: string)
    requires Silent(a) && Silent(b) && Silent(c) && Silent(d)
    ensures Silent(a + b + c + d)
  {
    SilentAppend(a, b);
    SilentAppend(a + b, c);
    SilentAppend(a + b + c, d);
  }

  lemma {:induction false} SilentCounts(counts: map<string, nat>, keys: seq<string>)
    requires forall k | k in keys :: k in counts && Free(k, '\n')
    ensures Silent(HttpCountText(counts, keys))
  {
    if keys == [] {
      SilentEmpty();
    } else {
      var last, others := keys[|keys| - 1], keys[..|keys| - 1];
      var tail := "{" + last + "} " + Digits(counts[last]);
      assert HttpCountLine(last, counts[last]) == HTTP_TOTAL + tail;
      SilentHttpTail(HTTP_TOTAL, tail);
      SilentCounts(counts, others);
      SilentAppend(HttpCountText(counts, others), Line(HTTP_TOTAL + tail));
    }
  }

  lemma {:induction false} SilentHistograms(hists: map<string, HttpHistogram>, keys: seq<string>)
    requires forall k | k in keys :: k in hists && |hists[k].buckets| == |BOUNDS| && Free(k, '\n')
    ensures Silent(HttpHistogramText(hists, keys))
  {
    if keys == [] {
      SilentEmpty();
    } else {
      var last, others := keys[|keys| - 1], keys[..|keys| - 1];
      SilentSeries(last, hists[last]);
      SilentHistograms(hists, others);
      SilentAppend(HttpHistogramText(hists, others), HttpSeries(last, hists[last]));
    }
  }

  lemma SilentHeader()
    ensures Silent(HttpHeader())
  {
    HttpNamesAreLines();
    SilentComment("HELP " + HTTP_TOTAL + " Total HTTP requests");
    SilentComment("TYPE " + HTTP_TOTAL + " counter");
    SilentComment("HELP " + HTTP_DURATION + " HTTP request latency in seconds");
    SilentComment("TYPE " + HTTP_DURATION + " histogram");
    SilentFour(Line("# " + ("HELP " + HTTP_TOTAL + " Total HTTP requests")),
               Line("# " + ("TYPE " + HTTP_TOTAL + " counter")),
               Line("# " + ("HELP " + HTTP_DURATION + " HTTP request latency in seconds")),
               Line("# " + ("TYPE " + HTTP_DURATION + " histogram")));
    HeaderRegrouped();
  }

  lemma HeaderRegrouped()
    ensures HttpHeader() ==
              Line("# " + ("HELP " + HTTP_TOTAL + " Total HTTP requests"))
              + Line("# " + ("TYPE " + HTTP_TOTAL + " counter"))
              + Line("# " + ("HELP " + HTTP_DURATION + " HTTP request latency in seconds"))
              + Line("# " + ("TYPE " + HTTP_DURATION + " histogram"))
  {
    Comment("HELP ", HTTP_TOTAL, " Total HTTP requests");
    Comment("TYPE ", HTTP_TOTAL, " counter");
    Comment("HELP ", HTTP_DURATION, " HTTP request latency in seconds");
    Comment("TYPE ", HTTP_DURATION, " histogram");
    assert "# HELP " == "# " + "HELP " && "# TYPE " == "# " + "TYPE ";
  }

  lemma Comment(kind: string, name: string, text: string)
    ensures "# " + kind + name + text == "# " + (kind + name + text)
  {
  }

  // ---- The job histogram ----

  function JobBuckets(buckets: seq<nat>, n: nat): seq<Bucket>
    requires n <= |BOUNDS| == |buckets|
  {
    if n == 0 then [] else JobBuckets(buckets, n - 1) + [Bucket(Fixed6(BOUNDS[n - 1]), Rounded(buckets[n - 1]))]
  }

  lemma Fixed6Plain(x: real)
    ensures var s := Fixed6(x);
            s != "" && IsDigit(s[0]) && forall i | 0 <= i < |s| :: IsDigit(s[i]) || s[i] == '.'
  {
    var micros := (x * 1000000.0 + 0.5).Floor;
    if micros >= 0 {
      PaddedPrintable(micros % 1000000, 6);
      assert AllDigits(Digits(micros / 1000000));
    }
  }

  lemma BucketLineIsLine(metric: string, v: string, count: nat)
    requires Free(metric, '\n') && Free(v, '\n')
    ensures Free(metric + "_bucket{" + "le=\"" + v + "\"} " + Digits(count), '\n')
  {
  }

  lemma JobNameIsLine()
    ensures Free(JOB_DURATION, '\n')
  {
  }

  lemma JobBucketAdds(v: string, count: nat)
    requires Free(v, '\"') && Free(v, '}') && Free(v, '\n')
    ensures Adds(Line(JOB_DURATION + "_bucket{" + "le=\"" + v + "\"} " + Digits(count)), [Bucket(v, Rounded(count))])
  {
    JobNameIsLine();
    BucketLineIsLine(JOB_DURATION, v, count);
    JobBucketLine(v, count);
    LineAddsAll(JOB_DURATION + "_bucket{" + "le=\"" + v + "\"} " + Digits(count), [Bucket(v, Rounded(count))]);
  }

  lemma NthBucketAdds(i: nat, count: nat)
    requires i < |BOUNDS|
    ensures Adds(Line(BucketLine(JOB_DURATION, "", i, count)), [Bucket(Fixed6(BOUNDS[i]), Rounded(count))])
  {
    var v := Fixed6(BOUNDS[i]);
    Fixed6Plain(BOUNDS[i]);
    JobBucketAdds(v, count);
    assert JOB_DURATION + "_bucket{" + "" == JOB_DURATION + "_bucket{";
  }

  lemma {:induction false} JobBucketsAdd(buckets: seq<nat>, n: nat)
    requires n <= |BOUNDS| == |buckets|
    ensures Adds(BucketText(JOB_DURATION, "", buckets, n), JobBuckets(buckets, n))
  {
    if n == 0 {
      SilentEmpty();
    } else {
      JobBucketsAdd(buckets, n - 1);
      NthBucketAdds(n - 1, buckets[n - 1]);
      AddsAppend(BucketText(JOB_DURATION, "", buckets, n - 1), JobBuckets(buckets, n - 1),
                 Line(BucketLine(JOB_DURATION, "", n - 1, buckets[n - 1])),
                 [Bucket(Fixed6(BOUNDS[n - 1]), Rounded(buckets[n - 1]))]);
    }
  }

  lemma SilentJobTail(tail: string)
    requires Free(tail, '\n') && |tail| > 1 && tail[1] != 'b'
    ensures Silent(Line(JOB_DURATION + tail))
  {
    JobNameIsLine();
    assert |JOB_DURATION| == 38 && BUCKET[39] == 'b' && JOB_DURATION[0] == 'c';
    assert (JOB_DURATION + tail)[39] == tail[1];
    SilentLine(JOB_DURATION + tail, 39);
  }

  lemma InfAdds(count: nat)
    ensures Adds(Line(JOB_DURATION + "_bucket{le=\"+Inf\"} " + Digits(count)), [Bucket("+Inf", Rounded(count))])
  {
    JobBucketAdds("+Inf", count);
    InfRegrouped(JOB_DURATION, Digits(count));
  }

  lemma InfRegrouped(metric: string, n: string)
    ensures metric + "_bucket{le=\"+Inf\"} " + n == metric + "_bucket{" + "le=\"" + "+Inf" + "\"} " + n
  {
  }

  lemma BetweenSilent(a: string, body: string, x: seq<Bucket>, inf: string, y: seq<Bucket>, sum: string, count: string)
    requires Silent(a) && Adds(body, x) && Adds(inf, y) && Silent(sum) && Silent(count)
    ensures Adds(a + body + inf + sum + count, x + y)
  {
    var none: seq<Bucket> := [];
    AddsAppend(a, none, body, x);
    AddsAppend(a + body, none + x, inf, y);
    AddsAppend(a + body + inf, none + x + y, sum, none);
    AddsAppend(a + body + inf + sum, none + x + y + none, count, none);
    assert none + x + y + none + none == x + y;
  }

  // The lines of the job histogram, as the printer writes them.
  lemma JobHistogramAdds(buckets: seq<nat>, inf: nat, sum: real, count: nat)
    requires |buckets| == |BOUNDS|
    ensures Adds(JobHistogramText(buckets, inf, sum, count),
                 JobBuckets(buckets, |BOUNDS|) + [Bucket("+Inf", Rounded(inf))])
  {
    JobHeaderSilent();
    JobBucketsAdd(buckets, |BOUNDS|);
    InfAdds(inf);
    JobTotalsSilent(count, sum);
    BetweenSilent(Line("# HELP " + JOB_DURATION + " Job processing duration in seconds")
                  + Line("# TYPE " + JOB_DURATION + " histogram"),
                  BucketText(JOB_DURATION, "", buckets, |BOUNDS|), JobBuckets(buckets, |BOUNDS|),
                  Line(JOB_DURATION + "_bucket{le=\"+Inf\"} " + Digits(inf)), [Bucket("+Inf", Rounded(inf))],
                  Line(JOB_DURATION + "_sum " + Fixed6(sum)), Line(JOB_DURATION + "_count " + Digits(count)));
  }

  lemma JobHeaderSilent()
    ensures Silent(Line("# HELP " + JOB_DURATION + " Job processing duration in seconds")
                   + Line("# TYPE " + JOB_DURATION + " histogram"))
  {
    JobNameIsLine();
    var help := "HELP " + JOB_DURATION + " Job processing duration in seconds";
    var kind := "TYPE " + JOB_DURATION + " histogram";
    Comment("HELP ", JOB_DURATION, " Job processing duration in seconds");
    Comment("TYPE ", JOB_DURATION, " histogram");
    assert "# HELP " == "# " + "HELP " && "# TYPE " == "# " + "TYPE ";
    SilentComment(help);
    SilentComment(kind);
    SilentAppend(Line("# " + help), Line("# " + kind));
  }

  lemma JobTotalsSilent(count: nat, sum: real)
    ensures Silent(Line(JOB_DURATION + "_sum " + Fixed6(sum)))
    ensures Silent(Line(JOB_DURATION + "_count " + Digits(count)))
  {
    Fixed6Printable(sum);
    SilentJobTail("_sum " + Fixed6(sum));
    SilentJobTail("_count " + Digits(count));
    assert JOB_DURATION + "_sum " + Fixed6(sum) == JOB_DURATION + ("_sum " + Fixed6(sum));
    assert JOB_DURATION + "_count " + Digits(count) == JOB_DURATION + ("_count " + Digits(count));
  }

  // ---- The whole exposition ----

  // A series key is one line of text when its labels are.
  lemma {:induction false} EscapeIsLine(value: string)
    requires Free(value, '\n')
    ensures Free(Escape(value), '\n')
  {
    if value != "" { EscapeIsLine(value[1..]); }
  }

  lemma LabelKeyIsLine(httpMethod: string, route: string, status: int)
    requires Free(httpMethod, '\n') && Free(route, '\n')
    ensures Free(LabelKey(httpMethod, route, status), '\n')
  {
    EscapeIsLine(httpMethod);
    EscapeIsLine(route);
    LabelNamesAreLines();
    var third := StatusIsLine(status);
    var second := QuotedIsLine(",route=\"", Escape(route), third);
    var first := QuotedIsLine("method=\"", Escape(httpMethod), second);
  }

  lemma LabelNamesAreLines()
    ensures Free("method=\"", '\n') && Free(",route=\"", '\n')
  {
  }

  lemma StatusIsLine(status: int) returns (text: string)
    ensures text == ",status=\"" + IntText(status) + ['\"'] && Free(text, '\n')
  {
    text := ",status=\"" + IntText(status) + ['\"'];
    assert Free(IntText(status), '\n');
  }

  lemma QuotedIsLine(name: string, value: string, rest: string) returns (text: string)
    requires Free(name, '\n') && Free(value, '\n') && Free(rest, '\n')
    ensures text == name + (value + ['\"'] + rest) && Free(text, '\n')
  {
    text := name + (value + ['\"'] + rest);
  }

  lemma JobRowNames(m: JobMetrics)
    ensures forall r | r in JobRows(m) :: |r.name| > 10 && r.name[10] == 's'
  {
    forall i | 0 <= i < |JobRows(m)| ensures |JobRows(m)[i].name| > 10 && JobRows(m)[i].name[10] == 's' {}
  }

  // No label holds a newline.
  predicate LabelsAreLines(h: HttpPart) {
    && (forall k | k in h.countKeys :: Free(k, '\n'))
    && (forall k | k in h.histKeys :: Free(k, '\n'))
  }

  // Whatever the labels, as long as they hold no newline, the browser finds in the whole
  // exposition exactly the numbers loaded for the job histogram's buckets, in order.
  lemma ExpositionBuckets(m: JobMetrics, s: State, h: HttpPart)
    requires Loaded(s) && Walks(h) && LabelsAreLines(h)
    ensures TextBuckets(Exposition(m, s, h))
            == JobBuckets(s.loads[..|BOUNDS|], |BOUNDS|) + [Bucket("+Inf", Rounded(s.loads[|BOUNDS|]))]
  {
    var found := JobBuckets(s.loads[..|BOUNDS|], |BOUNDS|) + [Bucket("+Inf", Rounded(s.loads[|BOUNDS|]))];
    JobRowsPrintable(m);
    JobRowNames(m);
    SilentRows(JobRows(m));
    JobHistogramAdds(s.loads[..|BOUNDS|], s.loads[|BOUNDS|], s.sumLoad.value, s.loads[|BOUNDS| + 1]);
    SilentHeader();
    SilentCounts(h.counts, h.countKeys);
    SilentHistograms(h.hists, h.histKeys);
    FoundInside(RowsText(JobRows(m)), JobHistogramOf(s), found, HttpHeader(),
                HttpCountText(h.counts, h.countKeys), HttpHistogramText(h.hists, h.histKeys));
  }

  lemma FoundInside(a: string, b: string, found: seq<Bucket>, c: string, d: string, e: string)
    requires Silent(a) && Adds(b, found) && Silent(c) && Silent(d) && Silent(e)
    ensures TextBuckets(a + (b + (c + (d + e)))) == found
  {
    var none: seq<Bucket> := [];
    SilentAppend(d, e);
    SilentAppend(c, d + e);
    AddsAppend(b, found, c + (d + e), none);
    AddsAppend(a, none, b + (c + (d + e)), found + none);
    var text := a + (b + (c + (d + e)));
    assert YieldsBefore(TextBuckets, text, none + (found + none), "");
    assert text + "" == text && none + (found + none) + none == found;
  }

  lemma SmallExact(n: nat)
    requires n < 0x20_0000_0000_0000
    ensures Rounded(n) == n
  {
    RoundedExact(n);
  }

  lemma {:induction false} NthJobBucket(buckets: seq<nat>, n: nat, i: nat)
    requires i < n <= |BOUNDS| == |buckets|
    ensures |JobBuckets(buckets, n)| == n
    ensures JobBuckets(buckets, n)[i] == Bucket(Fixed6(BOUNDS[i]), Rounded(buckets[i]))
  {
    JobBucketsNext(buckets, n);
    if n > 1 { NthJobBucket(buckets, n - 1, if i < n - 1 then i else 0); }
  }

  lemma JobBucketsNext(buckets: seq<nat>, n: nat)
    requires 0 < n <= |BOUNDS| == |buckets|
    ensures JobBuckets(buckets, n) ==
            JobBuckets(buckets, n - 1) + [Bucket(Fixed6(BOUNDS[n - 1]), Rounded(buckets[n - 1]))]
    ensures n == 1 ==> JobBuckets(buckets, n) == [Bucket(Fixed6(BOUNDS[0]), Rounded(buckets[0]))]
  {
  }

  predicate Small(loads: seq<nat>) {
    forall i | 0 <= i < |loads| :: loads[i] < 0x20_0000_0000_0000
  }

  // The buckets the browser finds are the numbers loaded, with their bounds.
  lemma FoundAreLoads(buckets: seq<nat>, inf: nat)
    requires |buckets| == |BOUNDS| && Small(buckets)
    ensures var found := JobBuckets(buckets, |BOUNDS|) + [Bucket("+Inf", Rounded(inf))];
            && |found| == |BOUNDS| + 1
            && FiniteBuckets(found) == found[..|BOUNDS|]
            && forall i | 0 <= i < |BOUNDS| :: found[i] == Bucket(Fixed6(BOUNDS[i]), buckets[i])
  {
    var some := JobBuckets(buckets, |BOUNDS|);
    NthJobBucket(buckets, |BOUNDS|, 0);
    forall i | 0 <= i < |BOUNDS| ensures some[i] == Bucket(Fixed6(BOUNDS[i]), buckets[i]) && Finite(some[i]) {
      NthJobBucket(buckets, |BOUNDS|, i);
      SmallExact(buckets[i]);
      Fixed6Plain(BOUNDS[i]);
    }
    FiniteAreFirst(some, Bucket("+Inf", Rounded(inf)));
  }

  lemma FiniteAreFirst(some: seq<Bucket>, last: Bucket)
    requires !Finite(last) && forall i | 0 <= i < |some| :: Finite(some[i])
    ensures FiniteBuckets(some + [last]) == some == (some + [last])[..|some|]
  {
    AllFinite(some);
    assert (some + [last])[..|some|] == some;
  }

  // ---- What the page shows ----

  ghost predicate PageOf(m: JobMetrics, s: State, h: HttpPart, shown: seq<Decoded>) {
    && Loaded(s) && Walks(h) && LabelsAreLines(h)
    && DecodesTo(FiniteBuckets(TextBuckets(Exposition(m, s, h))), shown)
  }

  // Each bound with the number loaded for it and its difference to the one before, or 0
  // where that is negative.
  lemma PageShowsLoads(m: JobMetrics, s: State, h: HttpPart, shown: seq<Decoded>)
    requires PageOf(m, s, h, shown) && Small(s.loads)
    ensures |shown| == |BOUNDS|
    ensures forall i: nat | i < |BOUNDS| ::
              shown[i] == Decoded(Fixed6(BOUNDS[i]), s.loads[i], Max(0, Change(s.loads, i)))
  {
    var f := PageBuckets(m, s, h, shown);
    DecodedLoads(f, s.loads, shown);
  }

  lemma PageBuckets(m: JobMetrics, s: State, h: HttpPart, shown: seq<Decoded>) returns (f: seq<Bucket>)
    requires PageOf(m, s, h, shown) && Small(s.loads)
    ensures DecodesTo(f, shown) && |f| == |BOUNDS|
    ensures forall i | 0 <= i < |f| :: f[i] == Bucket(Fixed6(BOUNDS[i]), s.loads[i])
  {
    ExpositionBuckets(m, s, h);
    f := FiniteLoads(TextBuckets(Exposition(m, s, h)), s, shown);
  }

  lemma FiniteLoads(found: seq<Bucket>, s: State, shown: seq<Decoded>) returns (f: seq<Bucket>)
    requires Loaded(s) && Small(s.loads) && DecodesTo(FiniteBuckets(found), shown)
    requires found == JobBuckets(s.loads[..|BOUNDS|], |BOUNDS|) + [Bucket("+Inf", Rounded(s.loads[|BOUNDS|]))]
    ensures DecodesTo(f, shown) && |f| == |BOUNDS|
    ensures forall i | 0 <= i < |f| :: f[i] == Bucket(Fixed6(BOUNDS[i]), s.loads[i])
  {
    f := FirstBuckets(s.loads[..|BOUNDS|], s.loads[|BOUNDS|]);
  }

  lemma FirstBuckets(buckets: seq<nat>, inf: nat) returns (f: seq<Bucket>)
    requires |buckets| == |BOUNDS| && Small(buckets)
    ensures f == FiniteBuckets(JobBuckets(buckets, |BOUNDS|) + [Bucket("+Inf", Rounded(inf))])
    ensures |f| == |BOUNDS| && forall i | 0 <= i < |f| :: f[i] == Bucket(Fixed6(BOUNDS[i]), buckets[i])
  {
    FoundAreLoads(buckets, inf);
    f := FiniteBuckets(JobBuckets(buckets, |BOUNDS|) + [Bucket("+Inf", Rounded(inf))]);
  }

  lemma DecodedLoads(f: seq<Bucket>, loads: seq<nat>, shown: seq<Decoded>)
    requires |f| == |BOUNDS| <= |loads| && DecodesTo(f, shown)
    requires forall i | 0 <= i < |f| :: f[i] == Bucket(Fixed6(BOUNDS[i]), loads[i])
    ensures |shown| == |BOUNDS|
    ensures forall i: nat | i < |BOUNDS| ::
              shown[i] == Decoded(Fixed6(BOUNDS[i]), loads[i], Max(0, Change(loads, i)))
  {
    forall i: nat | i < |BOUNDS|
      ensures shown[i] == Decoded(Fixed6(BOUNDS[i]), loads[i], Max(0, Change(loads, i)))
    {
      assert Delta(f, i) == Change(loads, i);
    }
  }

  lemma LoadsSmall(s: State)
    requires Read(s) && Loaded(s) && |s.obs| < 0x20_0000_0000_0000
    ensures Small(s.loads)
  {
    forall n: nat | n < |s.loads| ensures s.loads[n] <= |s.obs| {
      assert Grew(s.seen[n], s.obs);
      WholeIsAll(s.obs);
      SubsetSize(In(s.seen[n], Place(n)), Whole(s.obs, |BOUNDS|));
    }
  }

  // From observations through text to page, in any run: if no observation overlaps the
  // rendering, which starts at `a` and ends at `b`, and there are fewer than 2^53, every
  // interval shows exactly the number of its values.
  lemma PageShowsIntervals(m: JobMetrics, ss: seq<State>, ls: seq<Label>, a: nat, b: nat,
                           h: HttpPart, shown: seq<Decoded>)
    requires QuietlyLoaded(ss, ls, a, b) && PageOf(m, ss[b], h, shown)
    requires |ss[a].obs| < 0x20_0000_0000_0000
    ensures |shown| == |BOUNDS|
    ensures var values := Values(ss[a].obs);
            forall i: nat | i < |BOUNDS| ::
              shown[i] == Decoded(Fixed6(BOUNDS[i]), AtMost(values, BOUNDS[i]), Interval(values, i))
  {
    QuietRendering(ss, ls, a, b);
    QuietPage(m, ss[b], h, shown);
  }

  lemma QuietPage(m: JobMetrics, s: State, h: HttpPart, shown: seq<Decoded>)
    requires PageOf(m, s, h, shown)
    requires Read(s) && NothingOverlaps(s) && |s.obs| < 0x20_0000_0000_0000
    ensures |shown| == |BOUNDS|
    ensures forall i: nat | i < |BOUNDS| ::
              shown[i] == Decoded(Fixed6(BOUNDS[i]), AtMost(Values(s.obs), BOUNDS[i]), Interval(Values(s.obs), i))
  {
    LoadsSmall(s);
    PageShowsLoads(m, s, h, shown);
    QuietChanges(s);
  }

  lemma QuietChanges(s: State)
    requires Read(s) && Loaded(s) && NothingOverlaps(s)
    ensures forall i: nat | i < |BOUNDS| ::
              s.loads[i] == AtMost(Values(s.obs), BOUNDS[i]) && Max(0, Change(s.loads, i)) == Interval(Values(s.obs), i)
  {
    QuietLoads(s);
    forall i: nat | i < |BOUNDS|
      ensures s.loads[i] == AtMost(Values(s.obs), BOUNDS[i]) && Max(0, Change(s.loads, i)) == Interval(Values(s.obs), i)
    {
      QuietChange(s.loads[..|BOUNDS|], Values(s.obs), i);
      assert s.loads[..|BOUNDS|][i] == s.loads[i];
    }
  }

  lemma QuietChange(buckets: seq<nat>, values: seq<real>, i: nat)
    requires Cumulative(buckets, values) && i < |BOUNDS|
    ensures buckets[i] == AtMost(values, BOUNDS[i]) && Change(buckets, i) == Interval(values, i)
  {
    if i > 0 {
      BoundsAscend(i - 1, i);
      BetweenIsDifference(values, BOUNDS[i - 1], BOUNDS[i]);
    }
  }

  // With observations in progress an interval is off by at most their number; and the page
  // hides a fall behind a 0 exactly when more observations stood between the two buckets,
  // from the one load to the other, than the interval holds and came past both meanwhile.
  lemma PageNearlyShows(m: JobMetrics, s: State, h: HttpPart, shown: seq<Decoded>, i: nat)
    requires PageOf(m, s, h, shown)
    requires Read(s) && |s.obs| < 0x20_0000_0000_0000 && i < |BOUNDS|
    ensures |shown| == |BOUNDS|
    ensures -|Overlapping(s)| <= shown[i].count - Interval(Values(s.obs), i) <= |Overlapping(s)|
    ensures shown[i].count != Change(s.loads, i) <==>
              i > 0 && |Stood(s.seen[i - 1], s.seen[i], i)|
                       > |OfInterval(s.seen[i], i)| + |Passed(s.seen[i - 1], s.seen[i], i)|
  {
    LoadsSmall(s);
    PageShowsLoads(m, s, h, shown);
    NearlyShown(s, i);
  }

  lemma NearlyShown(s: State, i: nat)
    requires Read(s) && Loaded(s) && i < |BOUNDS|
    ensures var count := Max(0, Change(s.loads, i));
            && -|Overlapping(s)| <= count - Interval(Values(s.obs), i) <= |Overlapping(s)|
            && (count != Change(s.loads, i) <==>
                  i > 0 && |Stood(s.seen[i - 1], s.seen[i], i)|
                           > |OfInterval(s.seen[i], i)| + |Passed(s.seen[i - 1], s.seen[i], i)|)
  {
    IntervalNearly(s, i);
    if i > 0 { ReadsDownIff(s, i); }
  }
}
