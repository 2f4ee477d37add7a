// With two workers and a retry to spend, one lost reply lets a completed job start running
// again; with one worker, or without retries, nothing does.
module DispatchOverwritten {
  import opened RedisStreams
  import opened Dispatch
  import opened DispatchSafety
  import opened DispatchDuplicates
  import opened DispatchLifecycle

  const J := "j"
  const E0 := Entry(J, 0)
  const E1 := Entry(J, 1)
  const M0 := Msg(0, J, 0)
  const M1 := Msg(1, J, 1)

  // Where an execution has got to: its faults, the job's status, the stream, who holds what.
  datatype View = View(
    faults: nat, status: JobStatus, stream: seq<Entry>, pending: map<nat, nat>, a: Pc, b: Pc)

  predicate At(s: Sys, v: View) {
    && J in s.jobs && s.jobs[J].status == v.status
    && s.redis.stream == v.stream && s.redis.group.Some? && s.redis.pending == v.pending
    && s.redis.group.value == |v.pending|
    && |s.workers| >= 2 && s.workers[0].pc == v.a && s.workers[1].pc == v.b
  }

  // The configurations in which a retry can run beside the message it replaces.
  predicate Overlapping(c: Config) {
    c.workerCount >= 2 && c.maxRetries >= 1 && c.maxBacklog >= 1
  }

  datatype Trace = Trace(ss: seq<Sys>, ls: seq<Label>)

  ghost predicate Leads(c: Config, t: Trace, v: View) {
    Execution(c, t.ss, t.ls) && At(t.ss[|t.ls|], v) && t.ss[|t.ls|].hist.faults == v.faults
  }

  function Last(t: Trace): Sys
    requires |t.ss| == |t.ls| + 1
  {
    t.ss[|t.ls|]
  }

  lemma Extended(c: Config, t: Trace, l: Label) returns (u: Trace)
    requires Execution(c, t.ss, t.ls) && Enabled(Last(t), l)
    ensures u == Trace(t.ss + [Apply(c, Last(t), l)], t.ls + [l])
    ensures Execution(c, u.ss, u.ls)
  {
    u := Trace(t.ss + [Apply(c, Last(t), l)], t.ls + [l]);
    forall i | 0 <= i < |u.ls| ensures Step(c, u.ss[i], u.ls[i], u.ss[i + 1]) {
      if i < |t.ls| { assert Step(c, t.ss[i], t.ls[i], t.ss[i + 1]); }
    }
  }

  // Worker w does `a`, which takes every system seen as `v` to one seen as `v'`.
  lemma Go(c: Config, t: Trace, v: View, w: nat, a: Action, v': View) returns (u: Trace)
    requires Leads(c, t, v) && w < 2 && Fits(Last(t).workers[w].pc, Last(t).workersReady, a)
    requires At(Core(c, Last(t), Work(w, a)), v')
    requires v'.faults == v.faults + if IsFault(Work(w, a)) then 1 else 0
    ensures Leads(c, u, v') && |u.ss| == |t.ss| + 1 && u.ss[..|t.ss|] == t.ss
  {
    u := Extended(c, t, Work(w, a));
  }

  const START := View(0, QUEUED, [E0], map[], Starting, Starting)

  lemma Saved(c: Config) returns (t: Trace)
    requires Overlapping(c)
    ensures Execution(c, t.ss, t.ls)
    ensures At(Last(t), START.(stream := [])) && Last(t).subs == map[J := Checking]
    ensures Last(t).hist.faults == 0
  {
    var s0 := Sys(map[], EMPTY_REDIS, false, false, map[], seq(c.workerCount, _ => FRESH_WORKER),
                  Counters(0, 0, 0, 0, 0),
                  History(0, 0, 0, multiset{}, multiset{}, multiset{}, multiset{}, multiset{}));
    assert Init(c, s0);
    t := Extended(c, Trace([s0], []), Save(J, "u", 0));
    t := Extended(c, t, SubEnsure(J, Done));
  }

  lemma Submitted(c: Config) returns (t: Trace)
    requires Overlapping(c)
    ensures Leads(c, t, START)
  {
    t := Saved(c);
    t := Extended(c, t, SubCheck(J, true));
    t := Extended(c, t, SubAdd(J, Done));
  }

  const HELD := View(0, QUEUED, [E0], map[0 := 0], Fetched(M0), Starting)

  lemma HandedOut(c: Config) returns (t: Trace)
    requires Overlapping(c)
    ensures Leads(c, t, HELD)
  {
    t := Looking(c);
    t := ReadNothing(c, t, START.(a := ReadingHistory));
    t := Go(c, t, START.(a := ReadingNew), 0, ReadNew(Done), HELD);
  }

  lemma Looking(c: Config) returns (t: Trace)
    requires Overlapping(c)
    ensures Leads(c, t, START.(a := ReadingHistory))
  {
    t := Submitted(c);
    t := Go(c, t, START, 0, EnsureGroup(Done), START.(a := Polling));
    t := Go(c, t, START.(a := Polling), 0, EnsureGroup(Done), START.(a := ReadingHistory));
  }

  lemma ReadNothing(c: Config, t: Trace, v: View) returns (u: Trace)
    requires Overlapping(c)
    requires Leads(c, t, v) && v.pending == map[] && v.a == ReadingHistory
    ensures Leads(c, u, v.(a := ReadingNew))
  {
    u := Go(c, t, v, 0, ReadHistory(Done), v.(a := ReadingNew));
  }

  // The first worker fails once.
  lemma Failing(c: Config) returns (t: Trace)
    requires Overlapping(c)
    ensures Leads(c, t, HELD.(status := RUNNING, a := StampingStart(M0)))
  {
    t := HandedOut(c);
    t := Go(c, t, HELD, 0, Find, HELD.(a := MarkingRunning(M0)));
    t := Go(c, t, HELD.(a := MarkingRunning(M0)), 0, MarkRunning, HELD.(status := RUNNING, a := StampingStart(M0)));
  }

  lemma FailedOnce(c: Config) returns (t: Trace)
    requires Overlapping(c)
    ensures Leads(c, t, HELD.(status := RUNNING, a := MarkingQueued(M0)))
  {
    t := Failing(c);
    var run := HELD.(status := RUNNING);
    t := Go(c, t, run.(a := StampingStart(M0)), 0, StampStart(0), run.(a := Analysing(M0)));
    t := Go(c, t, run.(a := Analysing(M0)), 0, Analyse(TimedOut), run.(a := MarkingQueued(M0)));
  }

  const BOTH := View(1, QUEUED, [E0, E1], map[0 := 0], Polling, Starting)

  // The retry is published but its reply is lost ...
  lemma ReplyLost(c: Config) returns (t: Trace)
    requires Overlapping(c)
    ensures Leads(c, t, BOTH)
  {
    t := FailedOnce(c);
    t := Go(c, t, HELD.(status := RUNNING, a := MarkingQueued(M0)), 0, MarkQueued, HELD.(a := EnsuringRetry(M0)));
    t := Go(c, t, HELD.(a := EnsuringRetry(M0)), 0, EnsureGroup(Done), HELD.(a := PublishingRetry(M0)));
    t := PublishLost(c, t);
  }

  lemma PublishLost(c: Config, t: Trace) returns (u: Trace)
    requires Overlapping(c)
    requires Leads(c, t, HELD.(a := PublishingRetry(M0)))
    ensures Leads(c, u, BOTH)
  {
    assert [E0] + [E1] == [E0, E1];
    u := Go(c, t, HELD.(a := PublishingRetry(M0)), 0, PublishRetry(Lost), BOTH);
  }

  // ... so the worker takes its message again.
  lemma TakenAgain(c: Config) returns (t: Trace)
    requires Overlapping(c)
    ensures Leads(c, t, BOTH.(a := MarkingRunning(M0)))
  {
    t := ReplyLost(c);
    t := Go(c, t, BOTH, 0, EnsureGroup(Done), BOTH.(a := ReadingHistory));
    t := ReadAgain(c, t);
    t := FindAgain(c, t);
  }

  lemma FindAgain(c: Config, t: Trace) returns (u: Trace)
    requires Overlapping(c)
    requires Leads(c, t, BOTH.(a := Fetched(M0)))
    ensures Leads(c, u, BOTH.(a := MarkingRunning(M0)))
  {
    u := Go(c, t, BOTH.(a := Fetched(M0)), 0, Find, BOTH.(a := MarkingRunning(M0)));
  }

  lemma ReadAgain(c: Config, t: Trace) returns (u: Trace)
    requires Overlapping(c)
    requires Leads(c, t, BOTH.(a := ReadingHistory))
    ensures Leads(c, u, BOTH.(a := Fetched(M0)))
  {
    assert (set i | i in Owned(Last(t).redis, 0) && i < |Last(t).redis.stream|) == {0};
    u := Go(c, t, BOTH.(a := ReadingHistory), 0, ReadHistory(Done), BOTH.(a := Fetched(M0)));
  }

  const SECOND := View(1, QUEUED, [E0, E1], map[0 := 0, 1 := 1], MarkingRunning(M0), Fetched(M1))

  // Meanwhile the second worker is handed the retry ...
  lemma HandedRetry(c: Config) returns (t: Trace)
    requires Overlapping(c)
    ensures Leads(c, t, SECOND)
  {
    t := TakenAgain(c);
    var v := BOTH.(a := MarkingRunning(M0));
    t := Go(c, t, v, 1, EnsureGroup(Done), v.(b := Polling));
    t := Go(c, t, v.(b := Polling), 1, EnsureGroup(Done), v.(b := ReadingHistory));
    t := ReadRetry(c, t, v);
  }

  lemma ReadRetry(c: Config, t: Trace, v: View) returns (u: Trace)
    requires Overlapping(c)
    requires v == BOTH.(a := MarkingRunning(M0)) && Leads(c, t, v.(b := ReadingHistory))
    ensures Leads(c, u, SECOND)
  {
    assert Owned(Last(t).redis, 1) == {};
    u := Go(c, t, v.(b := ReadingHistory), 1, ReadHistory(Done), v.(b := ReadingNew));
    u := Go(c, u, v.(b := ReadingNew), 1, ReadNew(Done), SECOND);
  }

  lemma RetryRuns(c: Config) returns (t: Trace)
    requires Overlapping(c)
    ensures Leads(c, t, SECOND.(status := RUNNING, b := StampingStart(M1)))
  {
    t := HandedRetry(c);
    t := Go(c, t, SECOND, 1, Find, SECOND.(b := MarkingRunning(M1)));
    t := Go(c, t, SECOND.(b := MarkingRunning(M1)), 1, MarkRunning, SECOND.(status := RUNNING, b := StampingStart(M1)));
  }

  // ... and completes the job.
  lemma CompletedMeanwhile(c: Config) returns (t: Trace)
    requires Overlapping(c)
    ensures Leads(c, t, SECOND.(status := COMPLETED, b := StampingCompleted(M1)))
  {
    t := RetryRuns(c);
    var run := SECOND.(status := RUNNING);
    t := Go(c, t, run.(b := StampingStart(M1)), 1, StampStart(0), run.(b := Analysing(M1)));
    t := Go(c, t, run.(b := Analysing(M1)), 1, Analyse(Analysed), run.(b := MarkingCompleted(M1)));
    t := Go(c, t, run.(b := MarkingCompleted(M1)), 1, MarkCompleted,
            run.(status := COMPLETED, b := StampingCompleted(M1)));
  }

  // The last step of this execution takes the job from COMPLETED back to RUNNING, after a
  // single fault.
  lemma TerminalOverwritten(c: Config) returns (ss: seq<Sys>, ls: seq<Label>)
    requires Overlapping(c)
    ensures Execution(c, ss, ls) && |ls| > 0 && ss[|ls|].hist.faults == 1
    ensures J in ss[|ls| - 1].jobs && ss[|ls| - 1].jobs[J].status == COMPLETED
    ensures J in ss[|ls|].jobs && ss[|ls|].jobs[J].status == RUNNING
  {
    var t := CompletedMeanwhile(c);
    var v := SECOND.(status := COMPLETED, b := StampingCompleted(M1));
    var u := Go(c, t, v, 0, MarkRunning, v.(status := RUNNING, a := StampingStart(M0)));
    ss, ls := u.ss, u.ls;
  }

  // ---- With one worker, or without retries ----

  ghost predicate NoRetries(s: Sys) {
    s.hist.windowFaults == multiset{} && forall w | 0 <= w < |s.workers| :: !InWindow(s.workers[w].pc)
  }

  lemma NothingToRetry(c: Config, s: Sys, w: nat, mv: Move)
    requires Inv(c, s) && c.maxRetries == 0 && w < |s.workers| && Shape(s, w, mv)
    ensures !mv.cmd.XAdd?
  {
    assert Matches(s.redis, w, s.workers[w].pc) && LimitKnown(c, s.workers[w]);
  }

  lemma WorkWithoutRetries(c: Config, s: Sys, l: Label, t: Sys)
    requires Inv(c, s) && c.maxRetries == 0 && NoRetries(s) && Step(c, s, l, t) && l.Work?
    ensures NoRetries(t)
  {
    MoveHasShape(c, s, l.w, l.a);
    MoveHasWindowShape(c, s, l.w, l.a);
    NothingToRetry(c, s, l.w, WorkerMove(c, s, l.w, l.a));
  }

  lemma AlwaysWithoutRetries(c: Config, ss: seq<Sys>, ls: seq<Label>, i: nat)
    requires Execution(c, ss, ls) && i < |ss| && c.maxRetries == 0
    ensures NoRetries(ss[i])
  {
    forall s, l, t | Inv(c, s) && NoRetries(s) && Step(c, s, l, t) ensures NoRetries(t) {
      if l.Work? { WorkWithoutRetries(c, s, l, t); }
    }
    Always(c, ss, ls, i, s => NoRetries(s));
  }

  // The one worker finds every row as it left it.
  ghost predicate AloneAgrees(s: Sys, j: string) {
    forall w: nat | Working(s, w, j) && j in s.jobs :: Agrees(s.workers[w].pc, s.jobs[j].status)
  }

  lemma AloneKeepsAgreeing(c: Config, s: Sys, l: Label, t: Sys, j: string)
    requires Inv(c, s) && c.workerCount <= 1 && AloneAgrees(s, j) && Step(c, s, l, t)
    ensures AloneAgrees(t, j)
  {
    if l.Work? {
      MoveHasShape(c, s, l.w, l.a);
      MoverAgrees(c, s, l.w, l.a);
      MoveAlone(c, s, l.w, WorkerMove(c, s, l.w, l.a), t, j);
    } else {
      SubmissionHasShape(c, s, l);
      forall w: nat | Working(t, w, j) ensures Working(s, w, j) && j in s.jobs { HeldIsLive(c, s, w); }
    }
  }

  lemma MoveAlone(c: Config, s: Sys, w: nat, mv: Move, t: Sys, j: string)
    requires Inv(c, s) && c.workerCount <= 1 && AloneAgrees(s, j)
    requires w < |s.workers| && Shape(s, w, mv) && RowShape(s, w, mv)
    requires t.workers == s.workers[w := mv.next] && t.jobs == Written(s.jobs, mv.write)
    ensures AloneAgrees(t, j)
  {
    WrittenKeepsKeys(s.jobs, mv.write);
    if Holds(s.workers[w].pc) && !InWindow(s.workers[w].pc) && s.workers[w].pc.m.jobId == j {
      assert Working(s, w, j);
    }
  }

  lemma AlwaysAloneAgrees(c: Config, ss: seq<Sys>, ls: seq<Label>, i: nat, j: string)
    requires Execution(c, ss, ls) && i < |ss| && c.workerCount <= 1
    ensures AloneAgrees(ss[i], j)
  {
    forall s, l, t | Inv(c, s) && AloneAgrees(s, j) && Step(c, s, l, t) ensures AloneAgrees(t, j) {
      AloneKeepsAgreeing(c, s, l, t, j);
    }
    Always(c, ss, ls, i, s => AloneAgrees(s, j));
  }

  // ---- Which configurations keep to the documented transitions ----

  ghost predicate LawfulAt(c: Config, ss: seq<Sys>, ls: seq<Label>, i: nat, j: string) {
    Execution(c, ss, ls) && i < |ls| && j in ss[i].jobs ==>
      j in ss[i + 1].jobs && Lawful(ss[i].jobs[j].status, ss[i + 1].jobs[j].status)
  }

  lemma LawfulWhenNotOverlapping(c: Config, ss: seq<Sys>, ls: seq<Label>, i: nat, j: string)
    requires c.workerCount <= 1 || c.maxRetries == 0
    ensures LawfulAt(c, ss, ls, i, j)
  {
    if Execution(c, ss, ls) && i < |ls| && j in ss[i].jobs {
      if c.maxRetries == 0 {
        AlwaysWithoutRetries(c, ss, ls, i);
        EveryChangeLawful(c, ss, ls, i, j);
      } else {
        AlwaysAloneAgrees(c, ss, ls, i, j);
        forall w: nat | BrokenBy(ss[i], j, w) ensures false { assert Working(ss[i], w, j); }
        assert Step(c, ss[i], ls[i], ss[i + 1]);
        UnlawfulStepIff(c, ss[i], ls[i], ss[i + 1], j);
      }
    }
  }

  // Every status change of every job in every execution is a documented one if and only if
  // the pool has one worker or the retry limit is 0.  The backlog limit is never below 1.
  lemma LawfulConfigurations(c: Config)
    requires c.maxBacklog >= 1
    ensures (forall ss, ls, i: nat, j :: LawfulAt(c, ss, ls, i, j)) <==> c.workerCount <= 1 || c.maxRetries == 0
  {
    if c.workerCount <= 1 || c.maxRetries == 0 {
      forall ss, ls, i: nat, j ensures LawfulAt(c, ss, ls, i, j) {
        LawfulWhenNotOverlapping(c, ss, ls, i, j);
      }
    } else {
      var ss, ls := TerminalOverwritten(c);
      assert !LawfulAt(c, ss, ls, |ls| - 1, J);
    }
  }
}
