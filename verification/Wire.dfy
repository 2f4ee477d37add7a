// The fields of a stream entry, as publishJob writes them and parseStreamMessage reads them.
module Wire {
  import opened Common
  import opened Text

  datatype StreamJobMessage = StreamJobMessage(
    streamId: string, jobId: string, attempt: int, traceparent: string, tracestate: string)

  // A Redis reply.  Asking one for a form it does not have throws, and the caller of the
  // parser answers an exception with no message, as it does nil.
  datatype Reply = Nil | Text(text: string) | Array(items: seq<Reply>)

  // The arguments of XADD after the id.
  function EntryFields(jobId: string, attempt: int, traceparent: string, tracestate: string): seq<string> {
    ["job_id", jobId, "attempt", IntText(attempt), "traceparent", traceparent, "tracestate", tracestate]
  }

  function Texts(fields: seq<string>): seq<Reply> {
    seq(|fields|, i requires 0 <= i < |fields| => Text(fields[i]))
  }

  // What XREADGROUP replies for one stream with one entry.
  function ReplyOf(stream: string, id: string, fields: seq<string>): Reply {
    Array([Array([Text(stream), Array([Array([Text(id), Array(Texts(fields))])])])])
  }

  // One key and its value.
  function SetField(m: StreamJobMessage, key: string, value: string): StreamJobMessage {
    if key == "job_id" then m.(jobId := value)
    else if key == "attempt" then
      m.(attempt := if Stoi(value).Some? then Stoi(value).value else 0)
    else if key == "traceparent" then m.(traceparent := value)
    else if key == "tracestate" then m.(tracestate := value)
    else m
  }

  // All complete pairs from the left; an unpaired last element is ignored.
  function SetFields(m: StreamJobMessage, fields: seq<Reply>): Option<StreamJobMessage>
    decreases |fields|
  {
    if |fields| < 2 then Some(m)
    else if !fields[0].Text? || !fields[1].Text? then None
    else SetFields(SetField(m, fields[0].text, fields[1].text), fields[2..])
  }

  function Items(r: Reply): seq<Reply> {
    if r.Array? then r.items else []
  }

  // The id and the fields of the first message of the first stream.
  function FirstMessage(r: Reply): Option<(string, seq<Reply>)> {
    var streams := Items(r);
    var envelope := if streams == [] then [] else Items(streams[0]);
    var messages := if |envelope| < 2 then [] else Items(envelope[1]);
    var message := if messages == [] then [] else Items(messages[0]);
    if |message| < 2 || !message[0].Text? || !message[1].Array? then None
    else Some((message[0].text, message[1].items))
  }

  function Parsed(r: Reply): Option<StreamJobMessage> {
    var first := FirstMessage(r);
    if first.None? then None
    else
      var m := SetFields(StreamJobMessage(first.value.0, "", 0, "", ""), first.value.1);
      if m.None? || m.value.jobId == "" then None else m
  }

  method Unwrap(result: Reply) returns (first: Option<(string, seq<Reply>)>)
    ensures first == FirstMessage(result)
  {
    if !result.Array? { return None; }
    var streams := result.items;
    if streams == [] || !streams[0].Array? { return None; }
    var envelope := streams[0].items;
    if |envelope| < 2 || !envelope[1].Array? { return None; }
    var messages := envelope[1].items;
    if messages == [] || !messages[0].Array? { return None; }
    var message := messages[0].items;
    if |message| < 2 || !message[0].Text? || !message[1].Array? { return None; }
    return Some((message[0].text, message[1].items));
  }

  method ParseStreamMessage(result: Reply) returns (message: Option<StreamJobMessage>)
    ensures message == Parsed(result)
  {
    var first := Unwrap(result);
    if first.None? { return None; }
    var fields := first.value.1;
    var parsed := StreamJobMessage(first.value.0, "", 0, "", "");
    ghost var whole := SetFields(parsed, fields);
    var i := 0;
    while i + 1 < |fields|
      invariant 0 <= i <= |fields|
      invariant SetFields(parsed, fields[i..]) == whole
    {
      assert fields[i..][2..] == fields[i + 2..];
      if !fields[i].Text? || !fields[i + 1].Text? { return None; }
      var key, value := fields[i].text, fields[i + 1].text;
      if key == "job_id" {
        parsed := parsed.(jobId := value);
      } else if key == "attempt" {
        var n := Stoi(value);
        parsed := parsed.(attempt := if n.Some? then n.value else 0);
      } else if key == "traceparent" {
        parsed := parsed.(traceparent := value);
      } else if key == "tracestate" {
        parsed := parsed.(tracestate := value);
      }
      i := i + 2;
    }
    if parsed.jobId == "" { return None; }
    return Some(parsed);
  }

  // Every message publishJob writes, with a job id and an int attempt number, is read back
  // unchanged from the reply that delivers it.
  lemma EntryReadBack(stream: string, id: string, jobId: string, attempt: int, traceparent: string, tracestate: string)
    requires jobId != "" && -INT_MAX - 1 <= attempt <= INT_MAX
    ensures Parsed(ReplyOf(stream, id, EntryFields(jobId, attempt, traceparent, tracestate)))
            == Some(StreamJobMessage(id, jobId, attempt, traceparent, tracestate))
  {
    var fields := EntryFields(jobId, attempt, traceparent, tracestate);
    assert FirstMessage(ReplyOf(stream, id, fields)) == Some((id, Texts(fields)));
    FieldsReadBack(id, jobId, attempt, traceparent, tracestate);
  }

  lemma FieldsReadBack(id: string, jobId: string, attempt: int, traceparent: string, tracestate: string)
    requires -INT_MAX - 1 <= attempt <= INT_MAX
    ensures SetFields(StreamJobMessage(id, "", 0, "", ""), Texts(EntryFields(jobId, attempt, traceparent, tracestate)))
            == Some(StreamJobMessage(id, jobId, attempt, traceparent, tracestate))
  {
    LeadingIntOfText(attempt);
    var m := StreamJobMessage(id, "", 0, "", "");
    var last := ["tracestate", tracestate];
    var third := ["traceparent", traceparent] + last;
    var second := ["attempt", IntText(attempt)] + third;
    assert EntryFields(jobId, attempt, traceparent, tracestate) == ["job_id", jobId] + second;
    OneField(m, "job_id", jobId, second);
    OneField(m.(jobId := jobId), "attempt", IntText(attempt), third);
    OneField(m.(jobId := jobId, attempt := attempt), "traceparent", traceparent, last);
    assert last == last + [];
    OneField(m.(jobId := jobId, attempt := attempt, traceparent := traceparent), "tracestate", tracestate, []);
  }

  lemma OneField(m: StreamJobMessage, key: string, value: string, rest: seq<string>)
    ensures SetFields(m, Texts([key, value] + rest)) == SetFields(SetField(m, key, value), Texts(rest))
  {
    assert Texts([key, value] + rest)[2..] == Texts(rest);
  }

  // ---- What the parser takes from the fields ----

  // The value of the last complete pair with this key.
  function LastUnder(fields: seq<string>, key: string): Option<string> {
    if |fields| < 2 then None
    else
      var later := LastUnder(fields[2..], key);
      if later.Some? then later else if fields[0] == key then Some(fields[1]) else None
  }

  function Or(a: Option<string>, b: string): string {
    if a.Some? then a.value else b
  }

  function AttemptIn(a: Option<string>, b: int): int {
    if a.None? then b else if Stoi(a.value).Some? then Stoi(a.value).value else 0
  }

  // Of each field the last value counts, an attempt that cannot be read is 0, and unknown
  // fields do not matter.
  lemma {:induction false} FieldsMean(m: StreamJobMessage, fields: seq<string>)
    ensures SetFields(m, Texts(fields)) ==
            Some(StreamJobMessage(
              m.streamId, Or(LastUnder(fields, "job_id"), m.jobId), AttemptIn(LastUnder(fields, "attempt"), m.attempt),
              Or(LastUnder(fields, "traceparent"), m.traceparent), Or(LastUnder(fields, "tracestate"), m.tracestate)))
    decreases |fields|
  {
    if |fields| >= 2 {
      assert Texts(fields)[2..] == Texts(fields[2..]);
      FieldsMean(SetField(m, fields[0], fields[1]), fields[2..]);
    }
  }

  // So the message has the last job id given, which must not be missing or empty.
  lemma ParsedMeans(stream: string, id: string, fields: seq<string>)
    ensures var jobId := Or(LastUnder(fields, "job_id"), "");
            Parsed(ReplyOf(stream, id, fields)) ==
            if jobId == "" then None
            else Some(StreamJobMessage(
              id, jobId, AttemptIn(LastUnder(fields, "attempt"), 0),
              Or(LastUnder(fields, "traceparent"), ""), Or(LastUnder(fields, "tracestate"), "")))
  {
    assert FirstMessage(ReplyOf(stream, id, fields)) == Some((id, Texts(fields)));
    FieldsMean(StreamJobMessage(id, "", 0, "", ""), fields);
  }
}
