// The label text HTTP series are keyed by.
module MetricsLabels {
  import opened Common
  import opened Strings
  import opened Text

  function EscapeChar(c: char): string {
    if c == '\\' || c == '\"' then ['\\', c] else [c]
  }

  function Escape(value: string): string {
    if value == "" then "" else EscapeChar(value[0]) + Escape(value[1..])
  }

  lemma EscapeAppend(value: string, c: char)
    ensures Escape(value + [c]) == Escape(value) + EscapeChar(c)
  {
    if value == "" {
      assert value + [c] == [c];
    } else {
      assert (value + [c])[1..] == value[1..] + [c];
      EscapeAppend(value[1..], c);
      ThreeParts(EscapeChar(value[0]), Escape(value[1..]), EscapeChar(c));
    }
  }

  lemma ThreeParts(a: string, b: string, c: string)
    ensures a + (b + c) == a + b + c
  {
  }

  method EscapeLabelValue(value: string) returns (escaped: string)
    ensures escaped == Escape(value)
  {
    escaped := "";
    for i := 0 to |value|
      invariant escaped == Escape(value[..i])
    {
      EscapeAppend(value[..i], value[i]);
      assert value[..i + 1] == value[..i] + [value[i]];
      if value[i] == '\\' || value[i] == '\"' { escaped := escaped + ['\\']; }
      escaped := escaped + [value[i]];
    }
    assert value[..|value|] == value;
  }

  // What a reader of the label syntax does: take the text up to the first unescaped quote.
  function ReadQuoted(s: string): Option<(string, string)> {
    if s == "" then None
    else if s[0] == '\"' then Some(("", s[1..]))
    else
      var c := if s[0] == '\\' && |s| > 1 then s[1] else s[0];
      var rest := ReadQuoted(if s[0] == '\\' && |s| > 1 then s[2..] else s[1..]);
      if rest.None? then None else Some(([c] + rest.value.0, rest.value.1))
  }

  lemma {:induction false} ReadEscaped(value: string, rest: string)
    ensures ReadQuoted(Escape(value) + ['\"'] + rest) == Some((value, rest))
  {
    var s := Escape(value) + ['\"'] + rest;
    if value == "" {
      assert s[0] == '\"' && s[1..] == rest;
    } else {
      var tail := Escape(value[1..]) + ['\"'] + rest;
      ReadEscaped(value[1..], rest);
      if value[0] == '\\' || value[0] == '\"' {
        assert s == ['\\', value[0]] + tail;
        assert s[2..] == tail;
      } else {
        assert s == [value[0]] + tail;
        assert s[1..] == tail;
      }
      assert value == [value[0]] + value[1..];
    }
  }

  function LabelKey(httpMethod: string, route: string, status: int): string {
    "method=\"" + (Escape(httpMethod) + ['\"'] +
      (",route=\"" + (Escape(route) + ['\"'] + (",status=\"" + IntText(status) + ['\"']))))
  }

  lemma Regroup(a: string, m: string, quote: string, b: string, r: string, c: string, s: string)
    ensures a + m + quote + b + r + quote + c + s + quote == a + (m + quote + (b + (r + quote + (c + s + quote))))
  {
    assert r + quote + (c + s + quote) == r + quote + c + s + quote;
  }

  method MakeHttpLabelKey(httpMethod: string, route: string, status: int) returns (key: string)
    ensures key == LabelKey(httpMethod, route, status)
  {
    var m := EscapeLabelValue(httpMethod);
    var r := EscapeLabelValue(route);
    var quote, first, second, third := ['\"'], "method=\"", ",route=\"", ",status=\"";
    key := first + m + quote + second + r + quote + third + IntText(status) + quote;
    Regroup(first, m, quote, second, r, third, IntText(status));
  }

  // ---- A reader of the labels ----

  // name="value", then a comma and the next label, or nothing.
  function ReadLabels(s: string): Option<seq<(string, string)>>
    decreases |s|
  {
    var k := IndexOf(s, '=');
    if k + 1 >= |s| || s[k + 1] != '\"' then None
    else
      var quoted := ReadQuoted(s[k + 2..]);
      if quoted.None? then None
      else
        var (value, rest) := quoted.value;
        ReadShorter(s[k + 2..]);
        if rest == "" then Some([(s[..k], value)])
        else if rest[0] != ',' then None
        else
          var later := ReadLabels(rest[1..]);
          if later.None? then None else Some([(s[..k], value)] + later.value)
  }

  lemma {:induction false} ReadShorter(s: string)
    ensures ReadQuoted(s).Some? ==> |ReadQuoted(s).value.1| < |s|
    decreases |s|
  {
    if s != "" && s[0] != '\"' {
      ReadShorter(if s[0] == '\\' && |s| > 1 then s[2..] else s[1..]);
    }
  }

  // One label in front of what is left of the text.
  lemma ReadOne(name: string, value: string, rest: string)
    requires Free(name, '=')
    ensures var s := name + ("=\"" + (Escape(value) + ['\"'] + rest));
            ReadLabels(s) ==
            if rest == "" then Some([(name, value)])
            else if rest[0] != ',' || ReadLabels(rest[1..]).None? then None
            else Some([(name, value)] + ReadLabels(rest[1..]).value)
  {
    var tail := Escape(value) + ['\"'] + rest;
    var s := name + ("=\"" + tail);
    assert s == name + ['='] + ("\"" + tail);
    IndexOfFirst(name, '=', "\"" + tail);
    assert s[..|name|] == name && s[|name| + 1] == '\"' && s[|name| + 2..] == tail;
    ReadEscaped(value, rest);
  }

  lemma EscapedNumber(status: int)
    ensures Escape(IntText(status)) == IntText(status)
  {
    PlainEscaped(IntText(status));
  }

  lemma {:induction false} PlainEscaped(s: string)
    requires forall i | 0 <= i < |s| :: s[i] != '\\' && s[i] != '\"'
    ensures Escape(s) == s
  {
    if s != "" {
      PlainEscaped(s[1..]);
      assert s == [s[0]] + s[1..];
    }
  }

  // Who reads the key finds the method under "method", the route under "route" and the status
  // under "status", whatever characters they hold.
  lemma LabelsReadBack(httpMethod: string, route: string, status: int)
    ensures ReadLabels(LabelKey(httpMethod, route, status))
            == Some([("method", httpMethod), ("route", route), ("status", IntText(status))])
  {
    var a, b, c := ("method", httpMethod), ("route", route), ("status", IntText(status));
    var first := ChainRead(a, b, c);
    KeyIsLabels(httpMethod, route, status, first);
    ThreeInARow(a, b, c);
  }

  function Chained(name: string, value: string, rest: string): string {
    name + ("=\"" + (Escape(value) + ['\"'] + rest))
  }

  lemma ChainRead(a: (string, string), b: (string, string), c: (string, string)) returns (s: string)
    requires Free(a.0, '=') && Free(b.0, '=') && Free(c.0, '=')
    ensures s == Chained(a.0, a.1, "," + Chained(b.0, b.1, "," + Chained(c.0, c.1, "")))
    ensures ReadLabels(s) == Some([a] + ([b] + [c]))
  {
    var third := LastLabel(c.0, c.1);
    var second := OneMoreLabel(b.0, b.1, third, [c]);
    s := OneMoreLabel(a.0, a.1, second, [b] + [c]);
  }

  lemma ThreeInARow<T>(a: T, b: T, c: T)
    ensures [a] + ([b] + [c]) == [a, b, c]
  {
  }

  lemma LastLabel(name: string, value: string) returns (s: string)
    requires Free(name, '=')
    ensures s == Chained(name, value, "") && ReadLabels(s) == Some([(name, value)])
  {
    s := Chained(name, value, "");
    ReadOne(name, value, "");
  }

  lemma OneMoreLabel(name: string, value: string, rest: string, later: seq<(string, string)>) returns (s: string)
    requires Free(name, '=') && ReadLabels(rest) == Some(later)
    ensures s == Chained(name, value, "," + rest) && ReadLabels(s) == Some([(name, value)] + later)
  {
    s := Chained(name, value, "," + rest);
    assert ("," + rest)[1..] == rest;
    ReadOne(name, value, "," + rest);
  }

  lemma KeyIsLabels(m: string, r: string, status: int, first: string)
    requires first == Chained("method", m, "," + Chained("route", r, "," + Chained("status", IntText(status), "")))
    ensures first == LabelKey(m, r, status)
  {
    EscapedNumber(status);
    var third := Chained("status", IntText(status), "");
    var second := Chained("route", r, "," + third);
    assert "," + "status" + "=\"" == ",status=\"" && "," + "route" + "=\"" == ",route=\"";
    assert "method" + "=\"" == "method=\"";
    assert IntText(status) + ['\"'] + "" == IntText(status) + ['\"'];
    Glued(",", "status", "=\"", IntText(status) + ['\"']);
    assert "," + third == ",status=\"" + IntText(status) + ['\"'];
    Glued(",", "route", "=\"", Escape(r) + ['\"'] + ("," + third));
    Glued("", "method", "=\"", Escape(m) + ['\"'] + ("," + second));
  }

  lemma Glued(a: string, b: string, c: string, rest: string)
    ensures a + (b + (c + rest)) == (a + b + c) + rest && b + (c + rest) == (b + c) + rest
  {
  }

  // A text that follows a known prefix is determined by the whole.
  lemma DropPrefix(prefix: string, s: string, t: string)
    requires prefix + s == prefix + t
    ensures s == t
  {
    assert (prefix + s)[|prefix|..] == s && (prefix + t)[|prefix|..] == t;
  }

  // Distinct (method, route, status) triples never share a series.
  lemma LabelKeyInjective(m: string, r: string, s: int, m': string, r': string, s': int)
    requires LabelKey(m, r, s) == LabelKey(m', r', s')
    ensures m == m' && r == r' && s == s'
  {
    var z, z' := ",status=\"" + IntText(s) + ['\"'], ",status=\"" + IntText(s') + ['\"'];
    var y, y' := ",route=\"" + (Escape(r) + ['\"'] + z), ",route=\"" + (Escape(r') + ['\"'] + z');
    DropPrefix("method=\"", Escape(m) + ['\"'] + y, Escape(m') + ['\"'] + y');
    ReadEscaped(m, y);
    ReadEscaped(m', y');
    DropPrefix(",route=\"", Escape(r) + ['\"'] + z, Escape(r') + ['\"'] + z');
    ReadEscaped(r, z);
    ReadEscaped(r', z');
    StatusTextInjective(s, s');
  }

  lemma StatusTextInjective(s: int, s': int)
    requires ",status=\"" + IntText(s) + ['\"'] == ",status=\"" + IntText(s') + ['\"']
    ensures s == s'
  {
    var a, b := ",status=\"" + IntText(s), ",status=\"" + IntText(s');
    assert a == (a + ['\"'])[..|a + ['\"']| - 1];
    assert b == (b + ['\"'])[..|b + ['\"']| - 1];
    DropPrefix(",status=\"", IntText(s), IntText(s'));
    IntTextInjective(s, s');
  }
}
