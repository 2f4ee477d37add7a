// The job metrics printed in the Prometheus text format and read back by the service.
module MetricsText {
  import opened Common
  import opened Strings
  import opened Text

  datatype Row = Row(name: string, help: string, kind: string, value: string)

  const NL: string := "\n"

  function Line(s: string): string {
    s + NL
  }

  function RowText(r: Row): string {
    Line("# HELP " + r.name + " " + r.help) + Line("# TYPE " + r.name + " " + r.kind)
    + Line(r.name + " " + r.value)
  }

  function RowsText(rows: seq<Row>): string {
    if rows == [] then "" else RowText(rows[0]) + RowsText(rows[1..])
  }

  predicate Word(s: string) {
    s != "" && s[0] != '#' && forall i | 0 <= i < |s| :: !IsSpace(s[i])
  }

  predicate Printable(r: Row) {
    Word(r.name) && Free(r.help, '\n') && Free(r.kind, '\n') && Free(r.value, '\n')
  }

  // ---- std::getline ----

  function FirstLine(text: string): string {
    if text == "" || text[0] == '\n' then "" else [text[0]] + FirstLine(text[1..])
  }

  function AfterLine(text: string): (rest: string)
    ensures text != "" ==> |rest| < |text|
  {
    if text == "" then "" else if text[0] == '\n' then text[1..] else AfterLine(text[1..])
  }

  lemma {:induction false} LineSplits(s: string, rest: string)
    requires Free(s, '\n')
    ensures FirstLine(Line(s) + rest) == s && AfterLine(Line(s) + rest) == rest
  {
    var text := Line(s) + rest;
    if s == "" {
      assert text[1..] == rest;
    } else {
      assert text[1..] == Line(s[1..]) + rest;
      LineSplits(s[1..], rest);
      assert s == [s[0]] + s[1..];
    }
  }

  // ---- parsePrometheusScalar ----

  predicate IsSample(line: string, name: string) {
    name <= line && |name| < |line| && IsSpace(line[|name|])
  }

  // The first sample line of the metric decides; `None` also covers an unreadable number.
  function Scan(text: string, name: string): Option<int>
    decreases |text|
  {
    if text == "" then None
    else if IsSample(FirstLine(text), name) then LeadingInt(FirstLine(text)[|name|..])
    else Scan(AfterLine(text), name)
  }

  method ParsePrometheusScalar(body: string, name: string) returns (value: Option<int>)
    ensures value == Scan(body, name)
  {
    var rest := body;
    while rest != ""   // getline
      invariant Scan(body, name) == Scan(rest, name)
      decreases |rest|
    {
      var line := FirstLine(rest);
      if IsSample(line, name) { return LeadingInt(line[|name|..]); }
      rest := AfterLine(rest);
    }
    return None;
  }

  lemma NoSampleInComment(line: string, name: string)
    requires Word(name) && line != "" && line[0] == '#'
    ensures !IsSample(line, name)
  {
  }

  // A sample line belongs to exactly the metric it names.
  lemma SampleNamesItself(name: string, value: string, target: string)
    requires Word(name) && Word(target)
    ensures IsSample(name + " " + value, target) <==> name == target
  {
    var line := name + " " + value;
    assert line[|name|] == ' ' && forall i | 0 <= i < |name| :: line[i] == name[i];
    if IsSample(line, target) {
      assert forall i | 0 <= i < |target| :: line[i] == target[i];
      assert target == line[..|target|] && name == line[..|name|];
    } else {
      assert name <= line;
    }
  }

  lemma ScanLine(line: string, rest: string, target: string)
    requires Free(line, '\n')
    ensures Scan(Line(line) + rest, target)
            == if IsSample(line, target) then LeadingInt(line[|target|..]) else Scan(rest, target)
  {
    LineSplits(line, rest);
  }

  lemma ScanRow(r: Row, rest: string, target: string)
    requires Printable(r) && Word(target)
    ensures Scan(RowText(r) + rest, target)
            == if r.name == target then LeadingInt(" " + r.value) else Scan(rest, target)
  {
    var help, kind := "# HELP " + r.name + " " + r.help, "# TYPE " + r.name + " " + r.kind;
    var sample := r.name + " " + r.value;
    assert RowText(r) + rest == Line(help) + (Line(kind) + (Line(sample) + rest));
    assert Free(help, '\n') && Free(kind, '\n') && Free(sample, '\n');
    NoSampleInComment(help, target);
    NoSampleInComment(kind, target);
    SampleNamesItself(r.name, r.value, target);
    assert sample[|r.name|..] == " " + r.value;
    ScanThree(help, kind, sample, rest, target);
  }

  lemma ScanThree(help: string, kind: string, sample: string, rest: string, target: string)
    requires Free(help, '\n') && Free(kind, '\n') && Free(sample, '\n')
    requires !IsSample(help, target) && !IsSample(kind, target)
    ensures Scan(Line(help) + (Line(kind) + (Line(sample) + rest)), target)
            == if IsSample(sample, target) then LeadingInt(sample[|target|..]) else Scan(rest, target)
  {
    ScanLine(help, Line(kind) + (Line(sample) + rest), target);
    ScanLine(kind, Line(sample) + rest, target);
    ScanLine(sample, rest, target);
  }

  lemma {:induction false} ScanRows(rows: seq<Row>, rest: string, k: nat)
    requires forall r | r in rows :: Printable(r)
    requires k < |rows| && forall i | 0 <= i < k :: rows[i].name != rows[k].name
    ensures Scan(RowsText(rows) + rest, rows[k].name) == LeadingInt(" " + rows[k].value)
  {
    assert RowsText(rows) + rest == RowText(rows[0]) + (RowsText(rows[1..]) + rest);
    assert Printable(rows[0]) && Printable(rows[k]);
    ScanRow(rows[0], RowsText(rows[1..]) + rest, rows[k].name);
    if k > 0 { ScanRows(rows[1..], rest, k - 1); }
  }

  // ---- Numbers pass through a double ----

  // The gap between neighbouring doubles at n: 1 up to 2^53, doubling from there on.
  function Gap(n: nat): (g: nat)
    ensures g > 0
  {
    if n < 0x20_0000_0000_0000 then 1 else 2 * Gap(n / 2)
  }

  // The nearest multiple of g, ties to the even one.
  function RoundTo(n: nat, g: nat): nat
    requires g > 0
  {
    var q, r := n / g, n % g;
    if 2 * r > g || (2 * r == g && q % 2 == 1) then (q + 1) * g else q * g
  }

  function AsDouble(n: nat): nat {
    RoundTo(n, Gap(n))
  }

  function Rounded(n: int): int {
    var d: int := AsDouble(if n < 0 then -n else n);
    if n < 0 then -d else d
  }

  lemma RoundToExact(n: nat, g: nat)
    requires g > 0
    ensures RoundTo(n, g) == n <==> n % g == 0
  {
    var q, r := n / g, n % g;
    var p := q * g;
    assert n == p + r;
    assert (q + 1) * g == p + g;
  }

  // A number survives the double exactly when it is a multiple of the gap.
  lemma DoubleExact(n: nat)
    ensures AsDouble(n) == n <==> n % Gap(n) == 0
    ensures n < 0x20_0000_0000_0000 ==> AsDouble(n) == n
  {
    RoundToExact(n, Gap(n));
  }
}
