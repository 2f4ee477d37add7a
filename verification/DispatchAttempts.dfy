// Attempt numbers in stream order, and how often a job is analysed.
module DispatchAttempts {
  import opened Common
  import opened RedisStreams
  import opened Dispatch
  import opened DispatchSafety
  import opened DispatchDuplicates

  // The attempt numbers of one job, oldest entry first.
  function Attempts(stream: seq<Entry>, j: string): seq<int> {
    if stream == [] then []
    else
      var n := |stream| - 1;
      Attempts(stream[..n], j) + (if stream[n].jobId == j then [stream[n].attempt] else [])
  }

  lemma AttemptsAppend(stream: seq<Entry>, e: Entry, j: string)
    ensures Attempts(stream + [e], j) ==
            Attempts(stream, j) + (if e.jobId == j then [e.attempt] else [])
  {
    assert (stream + [e])[..|stream|] == stream;
  }

  lemma {:induction false} AttemptsEmpty(stream: seq<Entry>, j: string)
    ensures Attempts(stream, j) == [] <==> forall i | 0 <= i < |stream| :: stream[i].jobId != j
  {
    if stream != [] {
      var n := |stream| - 1;
      AttemptsEmpty(stream[..n], j);
      assert forall i | 0 <= i < n :: stream[..n][i] == stream[i];
    }
  }

  predicate Counting(a: seq<int>) {
    forall i | 0 <= i < |a| :: a[i] == i
  }

  // The attempts are 0, 1, .., k and the one active message carries the latest.
  ghost predicate InOrder(s: Sys, j: string) {
    && Balanced(s, j)
    && (s.hist.windowFaults[j] == 0 ==>
          && Counting(Attempts(s.redis.stream, j))
          && ActiveNewest(s, j)
          && (forall i | i in LiveIds(s.redis, j) && Windowed(s, i) ::
                s.redis.stream[i].attempt < |Attempts(s.redis.stream, j)| - 1))
  }

  predicate ActiveNewest(s: Sys, j: string) {
    forall i | i in Active(s, j) :: s.redis.stream[i].attempt == |Attempts(s.redis.stream, j)| - 1
  }

  lemma OwnMoveKeepsOrder(c: Config, s: Sys, w: nat, a: Action, mv: Move, t: Sys, j: string)
    requires Inv(c, s) && Balanced(s, j) && s.hist.windowFaults[j] == 0
    requires Counting(Attempts(s.redis.stream, j)) && ActiveNewest(s, j)
    requires w < |s.workers| && Shape(s, w, mv) && WindowShape(s, w, a, mv)
    requires t.redis == Exec(s.redis, mv.cmd) && t.workers == s.workers[w := mv.next]
    requires Holds(s.workers[w].pc) && s.workers[w].pc.m.jobId == j && !IsWindowFault(s.workers[w].pc, a)
    ensures Counting(Attempts(t.redis.stream, j)) && ActiveNewest(t, j)
  {
    assert Matches(s.redis, w, s.workers[w].pc);
    ActiveChange(c, s, w, a, mv, t);
    if mv.cmd.XAdd? {
      OnlyHeldIsActive(c, s, w, j);
      AttemptsAppend(s.redis.stream, mv.cmd.entry, j);
      NextAttempt(s, t, mv.cmd.entry, s.workers[w].pc.m, j);
    } else {
      assert Active(t, j) <= Active(s, j);
      assert t.redis.stream == s.redis.stream;
    }
  }

  lemma NextAttempt(s: Sys, t: Sys, e: Entry, m: Msg, j: string)
    requires Counting(Attempts(s.redis.stream, j)) && ActiveNewest(s, j)
    requires m.id < |s.redis.stream| && s.redis.stream[m.id].attempt == m.attempt
    requires Active(s, j) == {m.id} && Active(t, j) == {|s.redis.stream|}
    requires e == Entry(j, m.attempt + 1) && t.redis.stream == s.redis.stream + [e]
    requires Attempts(t.redis.stream, j) == Attempts(s.redis.stream, j) + [e.attempt]
    ensures Counting(Attempts(t.redis.stream, j)) && ActiveNewest(t, j)
  {
    assert m.id in Active(s, j);
  }

  lemma OtherMoveKeepsOrder(c: Config, s: Sys, w: nat, a: Action, mv: Move, t: Sys, j: string)
    requires Inv(c, s)
    requires Counting(Attempts(s.redis.stream, j)) && ActiveNewest(s, j)
    requires w < |s.workers| && Shape(s, w, mv) && WindowShape(s, w, a, mv)
    requires t.redis == Exec(s.redis, mv.cmd) && t.workers == s.workers[w := mv.next]
    requires Holds(s.workers[w].pc) ==> s.workers[w].pc.m.jobId != j
    ensures Counting(Attempts(t.redis.stream, j)) && ActiveNewest(t, j)
  {
    assert Matches(s.redis, w, s.workers[w].pc);
    ActiveSame(c, s, w, a, mv, t, j);
    if mv.cmd.XAdd? { AttemptsAppend(s.redis.stream, mv.cmd.entry, j); }
  }

  lemma OnlyHeldIsActive(c: Config, s: Sys, w: nat, j: string)
    requires Inv(c, s) && Balanced(s, j) && s.hist.windowFaults[j] == 0 && Working(s, w, j)
    ensures Active(s, j) == {s.workers[w].pc.m.id}
  {
    WorkingIsActive(c, s, w, j);
    forall i | i in Active(s, j) ensures i == s.workers[w].pc.m.id {
      AtMostOne(Active(s, j), i, s.workers[w].pc.m.id);
    }
  }

  // A message whose retry is out has been overtaken.
  lemma MoveKeepsOvertaken(c: Config, s: Sys, w: nat, a: Action, mv: Move, t: Sys, j: string)
    requires Inv(c, s) && InOrder(s, j)
    requires w < |s.workers| && Shape(s, w, mv) && WindowShape(s, w, a, mv)
    requires t.redis == Exec(s.redis, mv.cmd) && t.workers == s.workers[w := mv.next]
    requires s.hist.windowFaults[j] == 0
    ensures forall i | i in LiveIds(t.redis, j) && Windowed(t, i) ::
              t.redis.stream[i].attempt < |Attempts(t.redis.stream, j)| - 1
  {
    assert Matches(s.redis, w, s.workers[w].pc);
    LiveIdsAfter(s.redis, mv.cmd, j);
    if mv.cmd.XAdd? { AttemptsAppend(s.redis.stream, mv.cmd.entry, j); }
    forall i | i in LiveIds(t.redis, j) && Windowed(t, i)
      ensures t.redis.stream[i].attempt < |Attempts(t.redis.stream, j)| - 1
    {
      if t.redis.pending[i] == w { WorkingIsActive(c, s, w, j); }
    }
  }

  lemma SubmissionKeepsOrder(c: Config, s: Sys, cmd: Cmd, t: Sys, j: string)
    requires Inv(c, s) && InOrder(s, j) && SubmissionShape(s, cmd, t)
    requires t.hist.windowFaults == s.hist.windowFaults && t.hist.ended == s.hist.ended
    ensures InOrder(t, j)
  {
    SubmissionKeepsBalance(c, s, cmd, t, j);
    if cmd.XAdd? && cmd.entry.jobId == j {
      FirstAttempt(c, s, cmd, t, j);
    } else {
      OthersAttempt(c, s, cmd, t, j);
    }
  }

  lemma OthersAttempt(c: Config, s: Sys, cmd: Cmd, t: Sys, j: string)
    requires Inv(c, s) && SubmissionShape(s, cmd, t) && (cmd.XAdd? ==> cmd.entry.jobId != j)
    ensures Attempts(t.redis.stream, j) == Attempts(s.redis.stream, j)
    ensures LiveIds(t.redis, j) == LiveIds(s.redis, j) && Active(t, j) == Active(s, j)
    ensures forall i | i in LiveIds(s.redis, j) ::
              t.redis.stream[i] == s.redis.stream[i] && Windowed(t, i) == Windowed(s, i)
  {
    OthersKeepActive(s, cmd, t, j);
    if cmd.XAdd? { AttemptsAppend(s.redis.stream, cmd.entry, j); }
  }

  lemma FirstAttempt(c: Config, s: Sys, cmd: Cmd, t: Sys, j: string)
    requires Inv(c, s) && SubmissionShape(s, cmd, t) && cmd.XAdd? && cmd.entry.jobId == j
    ensures Attempts(t.redis.stream, j) == [0] && LiveIds(t.redis, j) == {|s.redis.stream|}
    ensures !Windowed(t, |s.redis.stream|)
  {
    AttemptsAppend(s.redis.stream, cmd.entry, j);
    AttemptsEmpty(s.redis.stream, j);
    LiveIdsAfter(s.redis, cmd, j);
    assert !Published(s, j);
  }

  lemma StepKeepsOrder(c: Config, s: Sys, l: Label, t: Sys, j: string)
    requires Inv(c, s) && InOrder(s, j) && Step(c, s, l, t)
    ensures InOrder(t, j)
  {
    if l.Work? {
      var mv := WindowMove(c, s, l.w, l.a, t);
      WorkKeepsOrder(c, s, l.w, l.a, mv, t, j);
    } else {
      var cmd := SubmissionIs(c, s, l, t);
      SubmissionKeepsOrder(c, s, cmd, t, j);
    }
  }

  lemma WorkKeepsOrder(c: Config, s: Sys, w: nat, a: Action, mv: Move, t: Sys, j: string)
    requires Inv(c, s) && InOrder(s, j)
    requires w < |s.workers| && Effect(s, w, a, mv, t) && Shape(s, w, mv) && WindowShape(s, w, a, mv)
    ensures InOrder(t, j)
  {
    BalanceAfterMove(c, s, w, a, mv, t, j);
    if t.hist.windowFaults[j] == 0 {
      if Holds(s.workers[w].pc) && s.workers[w].pc.m.jobId == j {
        OwnMoveKeepsOrder(c, s, w, a, mv, t, j);
      } else {
        OtherMoveKeepsOrder(c, s, w, a, mv, t, j);
      }
      MoveKeepsOvertaken(c, s, w, a, mv, t, j);
    }
  }

  // As long as no retry-window fault has hit the job, its attempts are exactly 0..k in
  // stream order; k is at most the retry limit in any run.
  lemma AttemptsInOrder(c: Config, ss: seq<Sys>, ls: seq<Label>, i: nat, j: string)
    requires Execution(c, ss, ls) && i < |ss| && ss[i].hist.windowFaults[j] == 0
    ensures Counting(Attempts(ss[i].redis.stream, j))
    ensures |Attempts(ss[i].redis.stream, j)| <= c.maxRetries + 1
    ensures forall n | n in Active(ss[i], j) ::
              ss[i].redis.stream[n].attempt == |Attempts(ss[i].redis.stream, j)| - 1
  {
    forall s | Init(c, s) ensures InOrder(s, j) { InitBalanced(c, s, j); assert Active(s, j) == {}; }
    forall s, l, t | Inv(c, s) && InOrder(s, j) && Step(c, s, l, t) ensures InOrder(t, j) {
      StepKeepsOrder(c, s, l, t, j);
    }
    Always(c, ss, ls, i, s => InOrder(s, j));
    AttemptsBounded(ss[i].redis.stream, j, c.maxRetries);
  }

  lemma {:induction false} AttemptsBounded(stream: seq<Entry>, j: string, limit: nat)
    requires forall i | 0 <= i < |stream| :: stream[i].attempt <= limit
    ensures forall i | 0 <= i < |Attempts(stream, j)| :: Attempts(stream, j)[i] <= limit
    ensures Counting(Attempts(stream, j)) ==> |Attempts(stream, j)| <= limit + 1
  {
    if stream != [] {
      var n := |stream| - 1;
      AttemptsBounded(stream[..n], j, limit);
    }
    var a := Attempts(stream, j);
    if Counting(a) && a != [] { assert a[|a| - 1] == |a| - 1; }
  }

  // ---- Analyses ----

  predicate Analysable(pc: Pc) {
    Idle(pc) || pc.Fetched? || pc.MarkingRunning? || pc.StampingStart? || pc.Analysing?
  }

  predicate Waits(s: Sys, i: nat) {
    i in s.redis.pending && s.redis.pending[i] < |s.workers| ==>
      Analysable(s.workers[s.redis.pending[i]].pc)
  }

  // Live messages whose current delivery has not been analysed yet.
  function Waiting(s: Sys, j: string): (ids: set<nat>)
    ensures forall i: nat :: i in ids <==> i in LiveIds(s.redis, j) && Waits(s, i)
  {
    set i | i in LiveIds(s.redis, j) && Waits(s, i)
  }

  // A message is analysed once per delivery; only a fault makes it be analysed again.
  ghost predicate Economical(s: Sys, j: string) {
    s.hist.analyses[j] + |Waiting(s, j)| <= |Attempts(s.redis.stream, j)| + s.hist.faults
  }

  ghost predicate AnalysisShape(s: Sys, w: nat, a: Action, mv: Move)
    requires w < |s.workers|
  {
    var pc, next := s.workers[w].pc, mv.next.pc;
    && (a.Analyse? ==> pc.Analysing? && !Analysable(next) && next.m == pc.m && mv.cmd.Nop?)
    && (Holds(pc) && !Analysable(pc) && Analysable(next) ==>
          Idle(next) && (mv.cmd.XAck? || IsFault(Work(w, a))))
    && (Analysable(pc) ==> !mv.cmd.XAck? && !mv.cmd.XAdd?)
  }

  lemma MoveHasAnalysisShape(c: Config, s: Sys, w: nat, a: Action)
    requires w < |s.workers| && Fits(s.workers[w].pc, s.workersReady, a)
    ensures AnalysisShape(s, w, a, WorkerMove(c, s, w, a))
  {
  }

  lemma AnalysisMove(c: Config, s: Sys, w: nat, a: Action, t: Sys) returns (mv: Move)
    requires Inv(c, s) && Step(c, s, Work(w, a), t)
    ensures Effect(s, w, a, mv, t) && Shape(s, w, mv) && AnalysisShape(s, w, a, mv)
  {
    mv := WorkerMove(c, s, w, a);
    WorkHasEffect(c, s, w, a, t);
    MoveHasShape(c, s, w, a);
    MoveHasAnalysisShape(c, s, w, a);
  }

  lemma WaitingChange(c: Config, s: Sys, w: nat, a: Action, mv: Move, t: Sys, j: string)
    requires Inv(c, s)
    requires w < |s.workers| && Shape(s, w, mv) && AnalysisShape(s, w, a, mv)
    requires t.redis == Exec(s.redis, mv.cmd) && t.workers == s.workers[w := mv.next]
    ensures
      var pc := s.workers[w].pc;
      var mine := Holds(pc) && pc.m.jobId == j;
      |Waiting(t, j)| + One(mine && a.Analyse?)
        <= |Waiting(s, j)| + One(mine && mv.cmd.XAdd?) + One(mine && IsFault(Work(w, a)))
  {
    var pc := s.workers[w].pc;
    assert Matches(s.redis, w, pc);
    LiveIdsAfter(s.redis, mv.cmd, j);
    var mine := Holds(pc) && pc.m.jobId == j;
    var added := if mine && mv.cmd.XAdd? then {|s.redis.stream|} else {};
    var again := if mine && IsFault(Work(w, a)) then {pc.m.id} else {};
    var done := if mine && a.Analyse? then {pc.m.id} else {};
    forall i | i in Waiting(t, j) ensures i in Waiting(s, j) - done + added + again {
      WaitingFrom(c, s, w, a, mv, t, j, i);
    }
    SubsetSize(Waiting(t, j), Waiting(s, j) - done + added + again);
    if mine && a.Analyse? { assert pc.m.id in Waiting(s, j); }
  }

  lemma WaitingFrom(c: Config, s: Sys, w: nat, a: Action, mv: Move, t: Sys, j: string, i: nat)
    requires Inv(c, s)
    requires w < |s.workers| && Shape(s, w, mv) && AnalysisShape(s, w, a, mv)
    requires t.redis == Exec(s.redis, mv.cmd) && t.workers == s.workers[w := mv.next]
    requires i in Waiting(t, j)
    ensures
      var pc := s.workers[w].pc;
      var mine := Holds(pc) && pc.m.jobId == j;
      || (mine && mv.cmd.XAdd? && i == |s.redis.stream|)
      || (mine && IsFault(Work(w, a)) && i == pc.m.id)
      || (i in Waiting(s, j) && (mine && a.Analyse? ==> i != pc.m.id))
  {
    assert Matches(s.redis, w, s.workers[w].pc);
    LiveIdsAfter(s.redis, mv.cmd, j);
    if i in s.redis.pending && s.redis.pending[i] == w && Holds(s.workers[w].pc) {
      assert i == s.workers[w].pc.m.id;
    }
  }

  lemma WorkKeepsEconomy(c: Config, s: Sys, w: nat, a: Action, mv: Move, t: Sys, j: string)
    requires Inv(c, s) && Economical(s, j)
    requires w < |s.workers| && Shape(s, w, mv) && AnalysisShape(s, w, a, mv)
    requires Effect(s, w, a, mv, t)
    ensures Economical(t, j)
  {
    assert Matches(s.redis, w, s.workers[w].pc);
    WaitingChange(c, s, w, a, mv, t, j);
    if mv.cmd.XAdd? { AttemptsAppend(s.redis.stream, mv.cmd.entry, j); }
  }

  lemma SubmissionKeepsEconomy(c: Config, s: Sys, cmd: Cmd, t: Sys, j: string)
    requires Inv(c, s) && Economical(s, j) && SubmissionShape(s, cmd, t)
    requires t.hist.analyses == s.hist.analyses && t.hist.faults >= s.hist.faults
    ensures Economical(t, j)
  {
    WaitingAfterSubmission(c, s, cmd, t, j);
    if cmd.XAdd? { AttemptsAppend(s.redis.stream, cmd.entry, j); }
  }

  lemma WaitingAfterSubmission(c: Config, s: Sys, cmd: Cmd, t: Sys, j: string)
    requires Inv(c, s) && SubmissionShape(s, cmd, t)
    ensures |Waiting(t, j)| <= |Waiting(s, j)| + One(cmd.XAdd? && cmd.entry.jobId == j)
  {
    var added := if cmd.XAdd? && cmd.entry.jobId == j then {|s.redis.stream|} else {};
    forall i | i in Waiting(t, j) ensures i in Waiting(s, j) + added {
      StillWaiting(c, s, cmd, t, j, i);
    }
    SubsetSize(Waiting(t, j), Waiting(s, j) + added);
  }

  lemma StillWaiting(c: Config, s: Sys, cmd: Cmd, t: Sys, j: string, i: nat)
    requires Inv(c, s) && SubmissionShape(s, cmd, t) && i in Waiting(t, j)
    ensures i in Waiting(s, j) || (cmd.XAdd? && cmd.entry.jobId == j && i == |s.redis.stream|)
  {
    LiveIdsAfter(s.redis, cmd, j);
  }

  lemma StepKeepsEconomy(c: Config, s: Sys, l: Label, t: Sys, j: string)
    requires Inv(c, s) && Economical(s, j) && Step(c, s, l, t)
    ensures Economical(t, j)
  {
    if l.Work? {
      var mv := AnalysisMove(c, s, l.w, l.a, t);
      WorkKeepsEconomy(c, s, l.w, l.a, mv, t, j);
    } else {
      var cmd := SubmissionIs(c, s, l, t);
      SubmissionKeepsEconomy(c, s, cmd, t, j);
    }
  }

  // A job is analysed at most once per entry plus once per fault; so, in a run without
  // faults, at most maxRetries + 1 times.
  lemma AnalysesBounded(c: Config, ss: seq<Sys>, ls: seq<Label>, i: nat, j: string)
    requires Execution(c, ss, ls) && i < |ss|
    ensures ss[i].hist.analyses[j] <= |Attempts(ss[i].redis.stream, j)| + ss[i].hist.faults
    ensures ss[i].hist.faults == 0 ==> ss[i].hist.analyses[j] <= c.maxRetries + 1
  {
    forall s | Init(c, s) ensures Economical(s, j) { assert Waiting(s, j) == {}; }
    forall s, l, t | Inv(c, s) && Economical(s, j) && Step(c, s, l, t) ensures Economical(t, j) {
      StepKeepsEconomy(c, s, l, t, j);
    }
    Always(c, ss, ls, i, s => Economical(s, j));
    FaultFree(c, ss, ls, i);
    if ss[i].hist.faults == 0 { AttemptsInOrder(c, ss, ls, i, j); }
  }
}
